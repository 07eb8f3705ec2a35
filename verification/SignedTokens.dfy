/**
 Framing of signed media URLs (backend/app/files/signed_urls.py) and access tokens
 (backend/app/security/auth.py, compact form of section 7.1 of RFC 7515).

 The keyed MAC and the JSON codec are parameters; times are microseconds since the epoch.
 */
module SignedTokens {
  import opened Wrappers
  import opened Base64Url

  const MICROS := 1_000_000

  /** `int(moment.timestamp())`: whole seconds, truncated toward zero. */
  function Seconds(moment: int): int {
    if moment >= 0 then moment / MICROS else -(-moment / MICROS)
  }

  lemma SecondsFloor(moment: nat)
    ensures Seconds(moment) * MICROS <= moment < (Seconds(moment) + 1) * MICROS
  {
    assert MICROS == 1_000_000;
  }

  // ----- splitting on "." -----

  /** `text.split(".", 1)` when it yields two parts. */
  function SplitOnce(text: string): (r: Option<(string, string)>)
    ensures r.Some? ==> text == r.value.0 + "." + r.value.1 && '.' !in r.value.0
    ensures r.None? <==> '.' !in text
  {
    if text == "" then None
    else if text[0] == '.' then assert text == "" + "." + text[1..]; Some(("", text[1..]))
    else
      match SplitOnce(text[1..])
      case None => assert text == [text[0]] + text[1..]; None
      case Some((head, tail)) =>
        assert text == [text[0]] + text[1..] == [text[0]] + head + "." + tail;
        Some(([text[0]] + head, tail))
  }

  lemma {:induction false} SplitJoined(head: string, tail: string)
    requires '.' !in head
    ensures SplitOnce(head + "." + tail) == Some((head, tail))
  {
    var text := head + "." + tail;
    if head == "" {
      assert text[1..] == tail;
    } else {
      assert text[1..] == head[1..] + "." + tail;
      SplitJoined(head[1..], tail);
      assert head == [head[0]] + head[1..];
    }
  }

  // ----- signed media URLs -----

  datatype UrlPayload = UrlPayload(key: string, exp: int)
  datatype SignedUrl = SignedUrl(token: string, expiresAt: int)
  datatype UrlError = InvalidUrl | ExpiredUrl

  datatype UrlSigner = UrlSigner(mac: string -> seq<byte>, json: Json<UrlPayload>, defaultSeconds: int) {

    function Sign(encoded: string): string {
      Encode(mac(encoded))
    }

    /** A lifetime that is missing or 0 is replaced by the configured one. */
    function Lifetime(expiresIn: Option<int>): int {
      if expiresIn.Some? && expiresIn.value != 0 then expiresIn.value else defaultSeconds
    }

    function Create(key: string, expiresIn: Option<int>, now: int): SignedUrl {
      var expiresAt := now + Lifetime(expiresIn) * MICROS;
      SignedUrl(Token(UrlPayload(key, Seconds(expiresAt))), expiresAt)
    }

    function Verify(token: string, now: int): Result<string, UrlError> {
      match SplitOnce(token)
      case None => Err(InvalidUrl)
      case Some((encoded, signature)) => VerifyParts(encoded, signature, now)
    }

    function VerifyParts(encoded: string, signature: string, now: int): Result<string, UrlError> {
      if signature != Sign(encoded) then Err(InvalidUrl)
      else
        match Payload(encoded)
        case None => Err(InvalidUrl)
        case Some(payload) => if now > payload.exp * MICROS then Err(ExpiredUrl) else Ok(payload.key)
    }

    function Payload(encoded: string): Option<UrlPayload> {
      match Decode(encoded)
      case None => None
      case Some(bytes) => json.parse(bytes)
    }

    /** A fresh URL yields its key until the whole second of its expiry, and "expired" from then on. */
    lemma VerifyCreated(key: string, expiresIn: Option<int>, now: int, url: SignedUrl, later: int)
      requires forall p :: json.parse(json.render(p)) == Some(p)
      requires url == Create(key, expiresIn, now)
      ensures later <= Seconds(url.expiresAt) * MICROS ==> Verify(url.token, later) == Ok(key)
      ensures later > Seconds(url.expiresAt) * MICROS ==> Verify(url.token, later) == Err(ExpiredUrl)
    {
      var payload := UrlPayload(key, Seconds(url.expiresAt));
      assert url.token == Token(payload);
      assert json.parse(json.render(payload)) == Some(payload);
      VerifySigned(payload, later);
    }

    /** It expires the requested number of seconds from now; none or zero requested means the configured number. */
    lemma ExpiresAsRequested(key: string, seconds: int, now: int)
      ensures Create(key, None, now).expiresAt == now + defaultSeconds * 1_000_000
      ensures Create(key, Some(0), now).expiresAt == now + defaultSeconds * 1_000_000
      ensures seconds != 0 ==> Create(key, Some(seconds), now).expiresAt == now + seconds * 1_000_000
    {
    }

    /** From the request to the verdict: honoured for the requested seconds but for the last one, refused after them. */
    lemma HonouredAsRequested(key: string, seconds: int, now: nat, later: int)
      requires forall p :: json.parse(json.render(p)) == Some(p)
      requires seconds > 0
      ensures later <= now + (seconds - 1) * 1_000_000 ==>
                Verify(Create(key, Some(seconds), now).token, later) == Ok(key)
      ensures later > now + seconds * 1_000_000 ==>
                Verify(Create(key, Some(seconds), now).token, later) == Err(ExpiredUrl)
    {
      var url := Create(key, Some(seconds), now);
      ExpiresAsRequested(key, seconds, now);
      VerifyCreated(key, Some(seconds), now, url, later);
      SecondsFloor(url.expiresAt);
    }

    function Token(payload: UrlPayload): string {
      Encode(json.render(payload)) + "." + Sign(Encode(json.render(payload)))
    }

    lemma VerifySigned(payload: UrlPayload, later: int)
      requires json.parse(json.render(payload)) == Some(payload)
      ensures Verify(Token(payload), later) ==
              if later > payload.exp * MICROS then Err(ExpiredUrl) else Ok(payload.key)
    {
      var encoded := Encode(json.render(payload));
      PayloadOfEncoded(payload);
      StripThenPad(json.render(payload));
      SplitJoined(encoded, Sign(encoded));
      assert Verify(Token(payload), later) == VerifyParts(encoded, Sign(encoded), later);
    }

    lemma PayloadOfEncoded(payload: UrlPayload)
      requires json.parse(json.render(payload)) == Some(payload)
      ensures Payload(Encode(json.render(payload))) == Some(payload)
    {
      RoundTrip(json.render(payload));
    }

    /** A token is honoured exactly when it is a signed, decodable, unexpired payload for that key. */
    lemma VerifyAccepts(token: string, now: int, key: string)
      ensures Verify(token, now) == Ok(key) <==>
              exists encoded, exp :: Honoured(token, encoded, UrlPayload(key, exp)) && now <= exp * MICROS
    {
      if Verify(token, now) == Ok(key) {
        var encoded := SplitOnce(token).value.0;
        var payload := Payload(encoded).value;
        assert Honoured(token, encoded, UrlPayload(key, payload.exp));
      }
      forall encoded, exp | Honoured(token, encoded, UrlPayload(key, exp)) && now <= exp * MICROS
        ensures Verify(token, now) == Ok(key)
      {
        SplitJoined(encoded, Sign(encoded));
      }
    }

    predicate Honoured(token: string, encoded: string, payload: UrlPayload) {
      && '.' !in encoded
      && token == encoded + "." + Sign(encoded)
      && Payload(encoded) == Some(payload)
    }
  }

  // ----- access tokens -----

  datatype Claims = Claims(sub: string, kind: string, exp: int, iat: int)
  datatype AccessError = InvalidAccessToken | AccessTokenExpired | UndecodablePart

  datatype AccessTokens = AccessTokens(mac: string -> seq<byte>, json: Json<Claims>, header: seq<byte>) {

    function EncodeJwt(claims: Claims): string {
      var signed := Encode(header) + "." + Encode(json.render(claims));
      signed + "." + Encode(mac(signed))
    }

    function Create(userId: string, minutes: int, now: int): string {
      EncodeJwt(Claims(userId, "access", Seconds(now + minutes * 60 * MICROS), Seconds(now)))
    }

    function DecodeJwt(token: string, now: int): Result<Claims, AccessError> {
      match SplitOnce(token)
      case None => Err(InvalidAccessToken)
      case Some((headerRaw, rest)) =>
        match SplitOnce(rest)
        case None => Err(InvalidAccessToken)
        case Some((payloadRaw, signatureRaw)) => DecodeParts(headerRaw, payloadRaw, signatureRaw, now)
    }

    function DecodeParts(headerRaw: string, payloadRaw: string, signatureRaw: string,
                         now: int): Result<Claims, AccessError>
    {
      var actual := Decode(signatureRaw);
      if actual.None? then Err(UndecodablePart)
      else if actual.value != mac(headerRaw + "." + payloadRaw) then Err(InvalidAccessToken)
      else
        var bytes := Decode(payloadRaw);
        if bytes.None? || json.parse(bytes.value).None? then Err(UndecodablePart)
        else Admit(json.parse(bytes.value).value, now)
    }

    function Admit(claims: Claims, now: int): Result<Claims, AccessError> {
      if claims.kind != "access" then Err(InvalidAccessToken)
      else if claims.exp < Seconds(now) then Err(AccessTokenExpired)
      else Ok(claims)
    }

    /** Splitting on "." recovers the three parts. */
    lemma DecodeJoined(headerRaw: string, payloadRaw: string, signatureRaw: string, now: int)
      requires '.' !in headerRaw && '.' !in payloadRaw && '.' !in signatureRaw
      ensures DecodeJwt(headerRaw + "." + (payloadRaw + "." + signatureRaw), now) ==
              DecodeParts(headerRaw, payloadRaw, signatureRaw, now)
    {
      SplitJoined(headerRaw, payloadRaw + "." + signatureRaw);
      SplitJoined(payloadRaw, signatureRaw);
    }

    lemma EncodedParts(claims: Claims)
      ensures var (headerRaw, payloadRaw) := (Encode(header), Encode(json.render(claims)));
              var signatureRaw := Encode(mac(headerRaw + "." + payloadRaw));
              && EncodeJwt(claims) == headerRaw + "." + (payloadRaw + "." + signatureRaw)
              && '.' !in headerRaw && '.' !in payloadRaw && '.' !in signatureRaw
    {
      var (headerRaw, payloadRaw) := (Encode(header), Encode(json.render(claims)));
      StripThenPad(header);
      StripThenPad(json.render(claims));
      StripThenPad(mac(headerRaw + "." + payloadRaw));
    }

    /** So decoding admits or refuses exactly the encoded claims. */
    lemma DecodeEncoded(claims: Claims, now: int)
      requires json.parse(json.render(claims)) == Some(claims)
      ensures DecodeJwt(EncodeJwt(claims), now) ==
              if claims.kind != "access" then Err(InvalidAccessToken)
              else if claims.exp < Seconds(now) then Err(AccessTokenExpired)
              else Ok(claims)
    {
      var (headerRaw, payloadRaw) := (Encode(header), Encode(json.render(claims)));
      EncodedParts(claims);
      DecodeJoined(headerRaw, payloadRaw, Encode(mac(headerRaw + "." + payloadRaw)), now);
      PartsOfEncoded(claims, now);
    }

    lemma PartsOfEncoded(claims: Claims, now: int)
      requires json.parse(json.render(claims)) == Some(claims)
      ensures var (headerRaw, payloadRaw) := (Encode(header), Encode(json.render(claims)));
              DecodeParts(headerRaw, payloadRaw, Encode(mac(headerRaw + "." + payloadRaw)), now) == Admit(claims, now)
    {
      RoundTrip(json.render(claims));
      RoundTrip(mac(Encode(header) + "." + Encode(json.render(claims))));
    }

    /** Three parts, of which the third is the MAC of the other two and the second carries the claims. */
    ghost predicate Presents(token: string, claims: Claims, h: string, p: string, s: string) {
      && '.' !in h && '.' !in p && token == h + "." + (p + "." + s)
      && Decode(s) == Some(mac(h + "." + p))
      && Decode(p).Some? && json.parse(Decode(p).value) == Some(claims)
    }

    lemma DecodePresented(token: string, now: int, claims: Claims, h: string, p: string, s: string)
      requires Presents(token, claims, h, p, s)
      ensures DecodeJwt(token, now) == Admit(claims, now)
    {
      SplitJoined(h, p + "." + s);
      SplitJoined(p, s);
    }

    /** Every token that gets past the MAC presents its claims. */
    lemma Presented(token: string, now: int)
      ensures var r := DecodeJwt(token, now);
              (r.Ok? || r.error == AccessTokenExpired ==> exists claims, h, p, s :: Presents(token, claims, h, p, s))
    {
      var r := DecodeJwt(token, now);
      if r.Ok? || r.error == AccessTokenExpired {
        var (h, rest) := SplitOnce(token).value;
        var (p, s) := SplitOnce(rest).value;
        assert token == h + "." + (p + "." + s);
        assert Presents(token, json.parse(Decode(p).value).value, h, p, s);
      }
    }

    /** A token is accepted exactly when it is a signed presentation of unexpired access claims. */
    lemma DecodeAccepts(token: string, now: int, claims: Claims)
      ensures DecodeJwt(token, now) == Ok(claims) <==>
              (exists h, p, s :: Presents(token, claims, h, p, s))
              && claims.kind == "access" && claims.exp >= Seconds(now)
    {
      Presented(token, now);
      if c, h, p, s :| Presents(token, c, h, p, s) {
        DecodePresented(token, now, c, h, p, s);
      }
      if h, p, s :| Presents(token, claims, h, p, s) {
        DecodePresented(token, now, claims, h, p, s);
      }
    }

    /** It is called expired exactly when only the time is against it. */
    lemma DecodeExpired(token: string, now: int)
      ensures DecodeJwt(token, now) == Err(AccessTokenExpired) <==>
              exists claims, h, p, s ::
                Presents(token, claims, h, p, s) && claims.kind == "access" && claims.exp < Seconds(now)
    {
      Presented(token, now);
      if c, h, p, s :| Presents(token, c, h, p, s) {
        DecodePresented(token, now, c, h, p, s);
      }
      forall c, h, p, s | Presents(token, c, h, p, s) && c.kind == "access" && c.exp < Seconds(now)
        ensures DecodeJwt(token, now) == Err(AccessTokenExpired)
      {
        DecodePresented(token, now, c, h, p, s);
      }
    }

    /** A created token identifies its user until its expiry second has passed. */
    lemma DecodeCreated(userId: string, minutes: int, now: int, later: int)
      requires forall c :: json.parse(json.render(c)) == Some(c)
      ensures var r := DecodeJwt(Create(userId, minutes, now), later);
              if Seconds(later) <= Seconds(now + minutes * 60 * MICROS)
              then r.Ok? && r.value.sub == userId
              else r == Err(AccessTokenExpired)
    {
      var claims := Claims(userId, "access", Seconds(now + minutes * 60 * MICROS), Seconds(now));
      assert json.parse(json.render(claims)) == Some(claims);
      DecodeEncoded(claims, later);
    }
  }
}
