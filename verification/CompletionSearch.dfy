/** What the fallback of one provider guarantees, for every oracle of HTTP outcomes. */
module CompletionSearch {
  import opened Wrappers
  import opened Sequences
  import opened ModelFallback

  /** The configured candidates carry no model twice. */
  lemma CandidatesDistinct(models: seq<string>)
    ensures Distinct(DedupeBy(models, Same))
    ensures forall m :: m in DedupeBy(models, Same) <==> m in models
  {
    DedupeKeys(models, Same);
    forall m ensures m in DedupeBy(models, Same) <==> m in models {
      assert HasKey(models, Same, m) <==> HasKey(DedupeBy(models, Same), Same, m);
    }
  }

  // ----- what a completion does, as one search -----

  /** Every model the completion may contact, in order: the configured ones, then the discovered rest. */
  function Order(models: ModelsOutcome, candidates: seq<string>, cache: Option<seq<string>>): seq<string> {
    candidates + match Discovery(cache, models).1
                 case Ok(found) => Untried(found, candidates)
                 case Err(_) => []
  }

  function ChatOnly(requests: seq<Request>): seq<Request> {
    if requests == [] then []
    else
      var init, last := ChatOnly(requests[..|requests| - 1]), requests[|requests| - 1];
      if last.ListModels? then init else init + [last]
  }

  lemma {:induction false} ChatOnlyConcat(a: seq<Request>, b: seq<Request>)
    ensures ChatOnly(a + b) == ChatOnly(a) + ChatOnly(b)
  {
    if b == [] {
      assert a + b == a;
    } else {
      assert (a + b)[..|a + b| - 1] == a + b[..|b| - 1];
      ChatOnlyConcat(a, b[..|b| - 1]);
    }
  }

  lemma {:induction false} ChatOnlyChats(requests: seq<Request>)
    requires forall i | 0 <= i < |requests| :: requests[i].ChatRequest?
    ensures ChatOnly(requests) == requests
  {
    if requests != [] {
      ChatOnlyChats(requests[..|requests| - 1]);
      assert requests == requests[..|requests| - 1] + [requests[|requests| - 1]];
    }
  }

  lemma {:induction false} RoundsAreChats(chat: Chat, models: seq<string>, maxRetries: nat)
    ensures forall i | 0 <= i < |Rounds(chat, models, maxRetries)| ::
              Rounds(chat, models, maxRetries)[i].ChatRequest? && Rounds(chat, models, maxRetries)[i].model in models
    ensures |Rounds(chat, models, maxRetries)| <= (maxRetries + 1) * |models|
  {
    if models != [] {
      var init := models[..|models| - 1];
      RoundsAreChats(chat, init, maxRetries);
      assert (maxRetries + 1) * |models| == (maxRetries + 1) * |init| + (maxRetries + 1);
    }
  }

  lemma {:induction false} RoundsConcat(chat: Chat, a: seq<string>, b: seq<string>, maxRetries: nat)
    ensures Rounds(chat, a + b, maxRetries) == Rounds(chat, a, maxRetries) + Rounds(chat, b, maxRetries)
  {
    if b == [] {
      assert a + b == a;
    } else {
      var init := b[..|b| - 1];
      assert (a + b)[..|a + b| - 1] == a + init;
      RoundsConcat(chat, a, init, maxRetries);
      Associate(Rounds(chat, a, maxRetries), Rounds(chat, init, maxRetries), Round(chat, b[|b| - 1], maxRetries));
    }
  }

  /** A pass that has ended does not look at further models. */
  lemma PassDecided(chat: Chat, a: seq<string>, b: seq<string>, maxRetries: nat)
    requires !Conclusion(chat, a, maxRetries).NextModel?
    ensures Pass(chat, a + b, maxRetries) == Pass(chat, a, maxRetries)
    ensures Conclusion(chat, a + b, maxRetries) == Conclusion(chat, a, maxRetries)
    ensures Ending(chat, a + b, maxRetries) == Ending(chat, a, maxRetries)
  {
    var n := Contacted(chat, a, maxRetries);
    PassEnds(chat, a + b, maxRetries, n);
    assert (a + b)[..n] == a[..n];
  }

  /** A pass that passed on throughout goes on with the next list. */
  lemma PassContinues(chat: Chat, a: seq<string>, b: seq<string>, maxRetries: nat)
    requires Conclusion(chat, a, maxRetries).NextModel?
    ensures Pass(chat, a + b, maxRetries) == Pass(chat, a, maxRetries) + Pass(chat, b, maxRetries)
    ensures Conclusion(chat, a + b, maxRetries) == Conclusion(chat, b, maxRetries)
    ensures Ending(chat, a + b, maxRetries) == Ending(chat, b, maxRetries)
  {
    var n, m := Contacted(chat, a, maxRetries), Contacted(chat, b, maxRetries);
    assert n == |a| && a[..n] == a;
    BothPassOn(chat, a, b, maxRetries);
    PassEnds(chat, a + b, maxRetries, n + m);
    assert (a + b)[..n + m] == a + b[..m];
    RoundsConcat(chat, a, b[..m], maxRetries);
  }

  lemma BothPassOn(chat: Chat, a: seq<string>, b: seq<string>, maxRetries: nat)
    requires Conclusion(chat, a, maxRetries).NextModel?
    ensures forall i | 0 <= i < |a| + Contacted(chat, b, maxRetries) - 1 ::
              VerdictOn(chat, (a + b)[i], maxRetries).NextModel?
  {
    assert Contacted(chat, a, maxRetries) == |a|;
  }

  /**
   A completion is a single search of `Order`: it contacts a prefix of it, one round per model, and
   ends at the first model that answers or fails for good. Only when none does and the listing failed
   does the listing's error surface.
   */
  lemma CompletionIsOneSearch(chat: Chat, models: ModelsOutcome, candidates: seq<string>, cache: Option<seq<string>>,
                              maxRetries: nat)
    ensures var (trace, order) := (Fallback(chat, models, candidates, cache, maxRetries),
                                   Order(models, candidates, cache));
            && ChatOnly(trace.requests) == Pass(chat, order, maxRetries)
            && trace.result ==
               if Conclusion(chat, order, maxRetries).NextModel? && Discovery(cache, models).1.Err?
               then Err(Discovery(cache, models).1.error)
               else Ending(chat, order, maxRetries)
  {
    var found := Discovery(cache, models).1;
    var rest := if found.Ok? then Untried(found.value, candidates) else [];
    PassIsChats(chat, candidates, maxRetries);
    if Conclusion(chat, candidates, maxRetries).NextModel? {
      PassContinues(chat, candidates, rest, maxRetries);
      WithListing(chat, candidates, rest, cache, maxRetries);
    } else {
      PassDecided(chat, candidates, rest, maxRetries);
    }
  }

  lemma WithListing(chat: Chat, candidates: seq<string>, rest: seq<string>, cache: Option<seq<string>>, maxRetries: nat)
    ensures var (first, second) := (Pass(chat, candidates, maxRetries), Pass(chat, rest, maxRetries));
            var listing := if cache.None? then [ListModels] else [];
            ChatOnly(first + listing) == first && ChatOnly(first + listing + second) == first + second
  {
    var first, second := Pass(chat, candidates, maxRetries), Pass(chat, rest, maxRetries);
    var listing := if cache.None? then [ListModels] else [];
    PassIsChats(chat, candidates, maxRetries);
    PassIsChats(chat, rest, maxRetries);
    assert ChatOnly([ListModels]) == ChatOnly([ListModels][..0]);
    ChatOnlyConcat(first, listing);
    ChatOnlyConcat(first + listing, second);
  }

  lemma PassIsChats(chat: Chat, models: seq<string>, maxRetries: nat)
    ensures ChatOnly(Pass(chat, models, maxRetries)) == Pass(chat, models, maxRetries)
  {
    RoundsAreChats(chat, models[..Contacted(chat, models, maxRetries)], maxRetries);
    ChatOnlyChats(Pass(chat, models, maxRetries));
  }

  /** `i` is the first model of `order` that does not pass on. */
  ghost predicate FirstDecisive(chat: Chat, order: seq<string>, maxRetries: nat, i: nat) {
    && i < |order| && !VerdictOn(chat, order[i], maxRetries).NextModel?
    && forall j | 0 <= j < i :: VerdictOn(chat, order[j], maxRetries).NextModel?
  }

  lemma AnsweringModel(chat: Chat, order: seq<string>, maxRetries: nat)
    ensures var n := Contacted(chat, order, maxRetries);
            !Conclusion(chat, order, maxRetries).NextModel? ==>
              && n > 0 && FirstDecisive(chat, order, maxRetries, n - 1)
              && Conclusion(chat, order, maxRetries) == VerdictOn(chat, order[n - 1], maxRetries)
  {
  }

  lemma DecisiveModel(chat: Chat, order: seq<string>, maxRetries: nat, i: nat)
    requires FirstDecisive(chat, order, maxRetries, i)
    ensures Contacted(chat, order, maxRetries) == i + 1
    ensures Conclusion(chat, order, maxRetries) == VerdictOn(chat, order[i], maxRetries)
  {
    PassEnds(chat, order, maxRetries, i + 1);
  }

  ghost predicate AnsweredBy(chat: Chat, order: seq<string>, maxRetries: nat, raw: nat, model: string, i: nat) {
    && FirstDecisive(chat, order, maxRetries, i)
    && VerdictOn(chat, order[i], maxRetries) == Answer(raw) && order[i] == model
  }

  /** A search ends with (raw, model) exactly when that model is the first decisive one and answered raw. */
  lemma EndingAnswers(chat: Chat, order: seq<string>, maxRetries: nat, raw: nat, model: string)
    ensures Ending(chat, order, maxRetries) == Ok((raw, model)) <==>
            exists i: nat :: AnsweredBy(chat, order, maxRetries, raw, model, i)
  {
    AnsweringModel(chat, order, maxRetries);
    if Ending(chat, order, maxRetries) == Ok((raw, model)) {
      assert AnsweredBy(chat, order, maxRetries, raw, model, Contacted(chat, order, maxRetries) - 1);
    }
    if i: nat :| AnsweredBy(chat, order, maxRetries, raw, model, i) {
      DecisiveModel(chat, order, maxRetries, i);
    }
  }

  /** So does a completion: its answer is that of the first model that does not pass on. */
  lemma FirstAnswerWins(chat: Chat, models: ModelsOutcome, candidates: seq<string>, cache: Option<seq<string>>,
                        maxRetries: nat, raw: nat, model: string)
    ensures var order := Order(models, candidates, cache);
            Fallback(chat, models, candidates, cache, maxRetries).result == Ok((raw, model)) <==>
            exists i: nat :: AnsweredBy(chat, order, maxRetries, raw, model, i)
  {
    var order := Order(models, candidates, cache);
    CompletionIsOneSearch(chat, models, candidates, cache, maxRetries);
    EndingAnswers(chat, order, maxRetries, raw, model);
  }

  ghost predicate DistinctRequests(requests: seq<Request>) {
    forall i, j | 0 <= i < j < |requests| :: requests[i] != requests[j]
  }

  lemma {:induction false} RoundsDistinct(chat: Chat, models: seq<string>, maxRetries: nat)
    requires Distinct(models)
    ensures DistinctRequests(Rounds(chat, models, maxRetries))
  {
    if models != [] {
      RoundsDistinct(chat, models[..|models| - 1], maxRetries);
      RoundsAreChats(chat, models[..|models| - 1], maxRetries);
    }
  }

  lemma {:induction false} UntriedDistinct(models: seq<string>, tried: seq<string>)
    requires Distinct(models)
    ensures Distinct(Untried(models, tried))
  {
    if models != [] {
      UntriedDistinct(models[1..], tried);
      forall m <- Untried(models[1..], tried) ensures m != models[0] {
        assert m in models[1..];
      }
    }
  }

  lemma {:induction false} DistinctSize(models: seq<string>)
    requires Distinct(models)
    ensures |set m | m in models| == |models|
  {
    if models != [] {
      var init, last := models[..|models| - 1], models[|models| - 1];
      DistinctSize(init);
      assert models == init + [last];
      assert (set m | m in models) == (set m | m in init) + {last};
    }
  }

  lemma FoundDistinct(cache: Option<seq<string>>, models: ModelsOutcome)
    requires cache.Some? ==> Distinct(cache.value)
    ensures Discovery(cache, models).1.Ok? ==> Distinct(Discovery(cache, models).1.value)
  {
    if cache.None? && models.Listed? {
      RankModelsSorts(models.ids);
    }
  }

  lemma ConcatDistinct(a: seq<string>, b: seq<string>)
    requires Distinct(a) && Distinct(b) && forall m <- b :: m !in a
    ensures Distinct(a + b)
  {
    forall i, j | 0 <= i < j < |a + b| ensures (a + b)[i] != (a + b)[j] {
      if i < |a| <= j {
        assert b[j - |a|] in b && a[i] in a;
      }
    }
  }

  lemma OrderDistinct(models: ModelsOutcome, candidates: seq<string>, cache: Option<seq<string>>)
    requires Distinct(candidates) && (cache.Some? ==> Distinct(cache.value))
    ensures Distinct(Order(models, candidates, cache))
  {
    FoundDistinct(cache, models);
    var found := Discovery(cache, models).1;
    if found.Ok? {
      UntriedDistinct(found.value, candidates);
      ConcatDistinct(candidates, Untried(found.value, candidates));
    }
  }

  lemma Scale(k: nat, m: nat, n: nat)
    requires m <= n
    ensures k * m <= k * n
  {
  }

  lemma PassBound(chat: Chat, models: seq<string>, maxRetries: nat)
    requires Distinct(models)
    ensures DistinctRequests(Pass(chat, models, maxRetries))
    ensures |Pass(chat, models, maxRetries)| <= (maxRetries + 1) * |set m | m in models|
  {
    var n := Contacted(chat, models, maxRetries);
    RoundsDistinct(chat, models[..n], maxRetries);
    RoundsAreChats(chat, models[..n], maxRetries);
    DistinctSize(models);
    Scale(maxRetries + 1, n, |models|);
  }

  /**
   No model is contacted in two rounds (a second round would repeat its attempt 0), and there are at
   most (max_retries + 1) chat requests per model of candidates and discovered models together.
   */
  lemma RequestBound(chat: Chat, models: ModelsOutcome, candidates: seq<string>, cache: Option<seq<string>>,
                     maxRetries: nat)
    requires Distinct(candidates) && (cache.Some? ==> Distinct(cache.value))
    ensures var chats := ChatOnly(Fallback(chat, models, candidates, cache, maxRetries).requests);
            var order := Order(models, candidates, cache);
            DistinctRequests(chats) && |chats| <= (maxRetries + 1) * |set m | m in order|
  {
    CompletionIsOneSearch(chat, models, candidates, cache, maxRetries);
    OrderDistinct(models, candidates, cache);
    PassBound(chat, Order(models, candidates, cache), maxRetries);
  }

  // ----- discovery over several completions on one provider instance -----

  datatype Completion = Completion(chat: Chat, models: ModelsOutcome)

  /** The cache call i finds. */
  function CacheBefore(calls: seq<Completion>, candidates: seq<string>, maxRetries: nat, i: nat): Option<seq<string>>
    requires i <= |calls|
  {
    if i == 0 then None
    else NextCache(calls[i - 1], candidates, CacheBefore(calls, candidates, maxRetries, i - 1), maxRetries)
  }

  function NextCache(call: Completion, candidates: seq<string>, cache: Option<seq<string>>,
                     maxRetries: nat): (r: Option<seq<string>>)
    ensures cache.Some? ==> r == cache
  {
    Fallback(call.chat, call.models, candidates, cache, maxRetries).cache
  }

  /** All candidates of call i pass on to a next model. */
  predicate Exhausts(calls: seq<Completion>, candidates: seq<string>, maxRetries: nat, i: nat)
    requires i < |calls|
  {
    Conclusion(calls[i].chat, candidates, maxRetries).NextModel?
  }

  /** Call i sends a discovery request. */
  predicate Discovers(calls: seq<Completion>, candidates: seq<string>, maxRetries: nat, i: nat)
    requires i < |calls|
  {
    CacheBefore(calls, candidates, maxRetries, i).None? && Exhausts(calls, candidates, maxRetries, i)
  }

  lemma DiscoversIsListing(calls: seq<Completion>, candidates: seq<string>, maxRetries: nat, i: nat)
    requires i < |calls|
    ensures Discovers(calls, candidates, maxRetries, i) <==>
            var cache := CacheBefore(calls, candidates, maxRetries, i);
            ListModels in Fallback(calls[i].chat, calls[i].models, candidates, cache, maxRetries).requests
  {
    var found := Discovery(CacheBefore(calls, candidates, maxRetries, i), calls[i].models).1;
    RoundsAreChats(calls[i].chat, candidates[..Contacted(calls[i].chat, candidates, maxRetries)], maxRetries);
    if found.Ok? {
      var rest := Untried(found.value, candidates);
      RoundsAreChats(calls[i].chat, rest[..Contacted(calls[i].chat, rest, maxRetries)], maxRetries);
    }
  }

  /** Some call before the i-th has had its listing accepted. */
  predicate CacheSet(calls: seq<Completion>, candidates: seq<string>, maxRetries: nat, i: nat)
    requires i <= |calls|
  {
    i > 0 && (|| CacheSet(calls, candidates, maxRetries, i - 1)
              || (Exhausts(calls, candidates, maxRetries, i - 1) && !calls[i - 1].models.ModelsBodyNotJson?))
  }

  /** A completion that exhausts its candidates sets the cache unless the body is not JSON: that error escapes first. */
  lemma NextCacheSet(call: Completion, candidates: seq<string>, cache: Option<seq<string>>, maxRetries: nat)
    ensures NextCache(call, candidates, cache, maxRetries).Some? <==>
            cache.Some? || (Conclusion(call.chat, candidates, maxRetries).NextModel? && !call.models.ModelsBodyNotJson?)
  {
  }

  lemma {:induction false} CacheSetExactly(calls: seq<Completion>, candidates: seq<string>, maxRetries: nat, i: nat)
    requires i <= |calls|
    ensures CacheBefore(calls, candidates, maxRetries, i).Some? <==> CacheSet(calls, candidates, maxRetries, i)
  {
    if i > 0 {
      CacheSetExactly(calls, candidates, maxRetries, i - 1);
      NextCacheSet(calls[i - 1], candidates, CacheBefore(calls, candidates, maxRetries, i - 1), maxRetries);
    }
  }

  lemma {:induction false} CacheStaysSet(calls: seq<Completion>, candidates: seq<string>, maxRetries: nat, i: nat,
                                         j: nat)
    requires i <= j <= |calls| && CacheSet(calls, candidates, maxRetries, i)
    ensures CacheSet(calls, candidates, maxRetries, j)
  {
    if i < j {
      CacheStaysSet(calls, candidates, maxRetries, i, j - 1);
    }
  }

  predicate Asks(calls: seq<Completion>, candidates: seq<string>, maxRetries: nat, i: nat)
    requires i < |calls|
  {
    !CacheSet(calls, candidates, maxRetries, i) && Exhausts(calls, candidates, maxRetries, i)
  }

  lemma AsksIsDiscovers(calls: seq<Completion>, candidates: seq<string>, maxRetries: nat, i: nat)
    requires i < |calls|
    ensures Asks(calls, candidates, maxRetries, i) <==> Discovers(calls, candidates, maxRetries, i)
  {
    CacheSetExactly(calls, candidates, maxRetries, i);
  }

  /** Until a call exhausts its candidates, an unset cache stays unset, so the first one that does asks. */
  lemma {:induction false} UnsetUntilExhausted(calls: seq<Completion>, candidates: seq<string>, maxRetries: nat, i: nat,
                                               k: nat)
    requires i <= k < |calls| && !CacheSet(calls, candidates, maxRetries, i)
    requires Exhausts(calls, candidates, maxRetries, k)
    ensures exists j: nat :: i <= j <= k && Asks(calls, candidates, maxRetries, j)
    decreases k - i
  {
    if Exhausts(calls, candidates, maxRetries, i) {
      assert Asks(calls, candidates, maxRetries, i);
    } else {
      UnsetUntilExhausted(calls, candidates, maxRetries, i + 1, k);
    }
  }

  /**
   After a discovery request the same provider sends another exactly when the first one's body was not
   JSON and a later completion exhausts its candidates.
   */
  lemma DiscoveryRepeats(calls: seq<Completion>, candidates: seq<string>, maxRetries: nat, i: nat)
    requires i < |calls| && Discovers(calls, candidates, maxRetries, i)
    ensures (exists j: nat :: i < j < |calls| && Discovers(calls, candidates, maxRetries, j)) <==>
            && calls[i].models.ModelsBodyNotJson?
            && exists k: nat :: i < k < |calls| && Exhausts(calls, candidates, maxRetries, k)
  {
    AsksIsDiscovers(calls, candidates, maxRetries, i);
    if j: nat :| i < j < |calls| && Discovers(calls, candidates, maxRetries, j) {
      AsksIsDiscovers(calls, candidates, maxRetries, j);
      if CacheSet(calls, candidates, maxRetries, i + 1) {
        CacheStaysSet(calls, candidates, maxRetries, i + 1, j);
      }
      assert Exhausts(calls, candidates, maxRetries, j);
    }
    if k: nat :| i < k < |calls| && Exhausts(calls, candidates, maxRetries, k) {
      if calls[i].models.ModelsBodyNotJson? {
        UnsetUntilExhausted(calls, candidates, maxRetries, i + 1, k);
        var j: nat :| i + 1 <= j <= k && Asks(calls, candidates, maxRetries, j);
        AsksIsDiscovers(calls, candidates, maxRetries, j);
      }
    }
  }

  /** Two discovery requests do happen: both listings arrive with a body that is not JSON. */
  lemma DiscoveryTwice()
    ensures var refusing := (m: string, a: nat) => HttpStatus(404, true);
            var calls := [Completion(refusing, ModelsBodyNotJson), Completion(refusing, ModelsBodyNotJson)];
            Discovers(calls, ["gpt-4.1-mini"], 0, 0) && Discovers(calls, ["gpt-4.1-mini"], 0, 1)
  {
    var refusing := (m: string, a: nat) => HttpStatus(404, true);
    var calls := [Completion(refusing, ModelsBodyNotJson), Completion(refusing, ModelsBodyNotJson)];
    var candidates := ["gpt-4.1-mini"];
    assert Contacted(refusing, candidates, 0) == 1;
  }
}
