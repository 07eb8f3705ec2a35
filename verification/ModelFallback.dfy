/**
 Model and provider fallback of the LLM clients (backend/app/agents/llm/openai.py, database.py).

 Every HTTP exchange is answered by an oracle, so the results hold for all of them. `Fallback` says
 which requests a chat completion makes and how it ends; the methods of `OpenAIProvider` follow the
 nested loops of the source and are proved to do exactly that.
 */
module ModelFallback {
  import opened Wrappers
  import opened Sequences

  /** `blamesModel`: the error text says the model is inaccessible, missing, invalid or unsupported. */
  datatype ChatOutcome = Completed(raw: nat) | HttpStatus(code: int, blamesModel: bool) | TransportError | BodyNotJson
  /** `Listed` holds the ids that look like chat models, in the order of the response. */
  datatype ModelsOutcome = Listed(ids: seq<string>) | NoListInBody | ModelsRefused | ModelsBodyNotJson

  /** Python's `RuntimeError`, which fallbacks catch, and the `ValueError` of a JSON decoder, which they do not. */
  datatype Error = RuntimeError | ValueError

  type Chat = (string, nat) -> ChatOutcome

  datatype Request = ChatRequest(model: string, attempt: nat) | ListModels

  // ----- one model: a round of attempts -----

  predicate ShouldTryNextModel(code: int, blamesModel: bool) {
    code in {400, 403, 404} && blamesModel
  }

  predicate Transient(outcome: ChatOutcome) {
    outcome.TransportError? || (outcome.HttpStatus? && outcome.code in {429, 500, 502, 503, 504})
  }

  predicate ShouldRetry(outcome: ChatOutcome, attempt: nat, maxRetries: nat) {
    attempt < maxRetries && Transient(outcome)
  }

  /** The attempt that ends a model's round: the first that is not retried. */
  function LastAttempt(chat: Chat, model: string, maxRetries: nat, attempt: nat): (last: nat)
    requires attempt <= maxRetries
    ensures attempt <= last <= maxRetries
    ensures !ShouldRetry(chat(model, last), last, maxRetries)
    ensures forall a | attempt <= a < last :: ShouldRetry(chat(model, a), a, maxRetries)
    decreases maxRetries - attempt
  {
    if ShouldRetry(chat(model, attempt), attempt, maxRetries)
    then LastAttempt(chat, model, maxRetries, attempt + 1)
    else attempt
  }

  datatype Verdict = Answer(raw: nat) | NextModel | Abort(error: Error)

  function Settle(outcome: ChatOutcome): Verdict {
    match outcome
    case Completed(raw) => Answer(raw)
    case HttpStatus(code, blamesModel) =>
      if ShouldTryNextModel(code, blamesModel) then NextModel else Abort(RuntimeError)
    case TransportError => Abort(RuntimeError)
    case BodyNotJson => Abort(ValueError)
  }

  function VerdictOn(chat: Chat, model: string, maxRetries: nat): Verdict {
    Settle(chat(model, LastAttempt(chat, model, maxRetries, 0)))
  }

  function Attempts(model: string, count: nat): seq<Request> {
    seq(count, (a: nat) => ChatRequest(model, a))
  }

  function Round(chat: Chat, model: string, maxRetries: nat): (r: seq<Request>)
    ensures 1 <= |r| <= maxRetries + 1
  {
    Attempts(model, LastAttempt(chat, model, maxRetries, 0) + 1)
  }

  // ----- several models -----

  /** How many of `models` are contacted: up to and including the first that does not pass on. */
  function Contacted(chat: Chat, models: seq<string>, maxRetries: nat): (n: nat)
    ensures n <= |models|
    ensures forall i | 0 <= i < n - 1 :: VerdictOn(chat, models[i], maxRetries).NextModel?
    ensures n < |models| ==> n > 0 && !VerdictOn(chat, models[n - 1], maxRetries).NextModel?
    ensures n == 0 ==> models == []
  {
    if models == [] then 0
    else if !VerdictOn(chat, models[0], maxRetries).NextModel? then 1
    else 1 + Contacted(chat, models[1..], maxRetries)
  }

  function Rounds(chat: Chat, models: seq<string>, maxRetries: nat): seq<Request> {
    if models == [] then []
    else Rounds(chat, models[..|models| - 1], maxRetries) + Round(chat, models[|models| - 1], maxRetries)
  }

  function Conclusion(chat: Chat, models: seq<string>, maxRetries: nat): Verdict {
    var n := Contacted(chat, models, maxRetries);
    if n == 0 then NextModel else VerdictOn(chat, models[n - 1], maxRetries)
  }

  /** The requests of a pass over `models`. */
  function Pass(chat: Chat, models: seq<string>, maxRetries: nat): seq<Request> {
    Rounds(chat, models[..Contacted(chat, models, maxRetries)], maxRetries)
  }

  // ----- ranking what discovery finds -----

  const PRIORITIES := ["gpt-4.1-mini", "gpt-4o-mini", "gpt-4o", "gpt-4.1", "gpt-4.1-nano", "gpt-4-turbo", "gpt-4",
                       "chatgpt-4o-latest", "gpt-3.5-turbo", "o4-mini", "o3-mini", "o3", "o1"]

  function FirstIndex(priorities: seq<string>, matches: string -> bool): (i: nat)
    ensures i <= |priorities|
    ensures i < |priorities| ==> matches(priorities[i])
    ensures forall j | 0 <= j < i :: !matches(priorities[j])
  {
    if priorities == [] || matches(priorities[0]) then 0 else 1 + FirstIndex(priorities[1..], matches)
  }

  function ModelRank(priorities: seq<string>, model: string): nat {
    var exact := FirstIndex(priorities, p => p == model);
    if exact < |priorities| then exact else FirstIndex(priorities, p => p + "-" <= model)
  }

  predicate RankLeq(a: string, b: string) {
    var (ra, rb) := (ModelRank(PRIORITIES, a), ModelRank(PRIORITIES, b));
    ra < rb || (ra == rb && TextLeq(a, b))
  }

  function Same(model: string): string {
    model
  }

  function RankModels(models: seq<string>): seq<string> {
    StableSort(DedupeBy(models, Same), RankLeq)
  }

  // ----- the whole completion -----

  /** Requests made, the discovery cache left behind, and how the completion ends. */
  datatype Trace = Trace(requests: seq<Request>, cache: Option<seq<string>>, result: Result<(nat, string), Error>)

  function Untried(models: seq<string>, tried: seq<string>): (r: seq<string>)
    ensures forall m :: m in r <==> m in models && m !in tried
  {
    if models == [] then []
    else
      assert models == [models[0]] + models[1..];
      if models[0] in tried then Untried(models[1..], tried) else [models[0]] + Untried(models[1..], tried)
  }

  function Discovery(cache: Option<seq<string>>,
                     models: ModelsOutcome): (Option<seq<string>>, Result<seq<string>, Error>)
  {
    if cache.Some? then (cache, Ok(cache.value))
    else
      match models
      case Listed(ids) => (Some(RankModels(ids)), Ok(RankModels(ids)))
      case NoListInBody => (Some([]), Ok([]))
      case ModelsRefused => (Some([]), Err(RuntimeError))
      case ModelsBodyNotJson => (None, Err(ValueError))
  }

  /** What the completion returns or raises once `model` has ended the search. */
  function Returned(verdict: Verdict, model: string): Result<(nat, string), Error> {
    match verdict
    case Answer(raw) => Ok((raw, model))
    case NextModel => Err(RuntimeError)
    case Abort(error) => Err(error)
  }

  function Ending(chat: Chat, models: seq<string>, maxRetries: nat): Result<(nat, string), Error> {
    var n := Contacted(chat, models, maxRetries);
    if n == 0 then Err(RuntimeError) else Returned(VerdictOn(chat, models[n - 1], maxRetries), models[n - 1])
  }

  function Fallback(chat: Chat, models: ModelsOutcome, candidates: seq<string>, cache: Option<seq<string>>,
                    maxRetries: nat): Trace
  {
    var first := Pass(chat, candidates, maxRetries);
    if !Conclusion(chat, candidates, maxRetries).NextModel? then
      Trace(first, cache, Ending(chat, candidates, maxRetries))
    else
      var asked := first + if cache.None? then [ListModels] else [];
      match Discovery(cache, models)
      case (cache', Err(error)) => Trace(asked, cache', Err(error))
      case (cache', Ok(found)) =>
        var rest := Untried(found, candidates);
        Trace(asked + Pass(chat, rest, maxRetries), cache',
              Ending(chat, rest, maxRetries))
  }

  ghost predicate Distinct(models: seq<string>) {
    forall i, j | 0 <= i < j < |models| :: models[i] != models[j]
  }

  class OpenAIProvider {
    const model: string
    const fallbackModels: seq<string>
    const maxRetries: nat
    var discoveredModels: Option<seq<string>>
    ghost var requests: seq<Request>

    constructor (model: string, fallbackModels: seq<string>, maxRetries: int)
      ensures this.model == model && this.fallbackModels == fallbackModels
      ensures this.maxRetries == if maxRetries < 0 then 0 else maxRetries
      ensures Valid() && discoveredModels == None && requests == []
    {
      this.model, this.fallbackModels := model, fallbackModels;
      this.maxRetries := if maxRetries < 0 then 0 else maxRetries;
      discoveredModels, requests := None, [];
    }

    ghost predicate Valid()
      reads this
    {
      discoveredModels.Some? ==> Distinct(discoveredModels.value)
    }

    ghost function Candidates(): seq<string> {
      DedupeBy([model] + fallbackModels, Same)
    }

    method TryChatCompletion(chat: Chat, model: string) returns (verdict: Verdict)
      modifies this`requests
      ensures requests == old(requests) + Round(chat, model, maxRetries)
      ensures verdict == VerdictOn(chat, model, maxRetries)
    {
      for attempt := 0 to maxRetries + 1
        invariant attempt <= maxRetries
        invariant requests == old(requests) + Attempts(model, attempt)
        invariant forall a: nat | a < attempt :: ShouldRetry(chat(model, a), a, maxRetries)
      {
        requests := requests + [ChatRequest(model, attempt)];
        var outcome := chat(model, attempt);
        if ShouldRetry(outcome, attempt, maxRetries) {
          continue;
        }
        assert LastAttempt(chat, model, maxRetries, 0) == attempt;
        return Settle(outcome);
      }
      assert false;  // the last attempt is never retried, so the loop always returns
    }

    method DiscoverChatModels(models: ModelsOutcome) returns (found: Result<seq<string>, Error>)
      requires Valid()
      modifies this
      ensures Valid()
      ensures (discoveredModels, found) == Discovery(old(discoveredModels), models)
      ensures requests == old(requests) + if old(discoveredModels).None? then [ListModels] else []
    {
      if discoveredModels.Some? {
        return Ok(discoveredModels.value);
      }
      requests := requests + [ListModels];
      match models {
        case Listed(ids) =>
          discoveredModels := Some(RankModels(ids));
          RankModelsSorts(ids);
          return Ok(discoveredModels.value);
        case NoListInBody =>
          discoveredModels := Some([]);
          return Ok([]);
        case ModelsRefused =>
          discoveredModels := Some([]);
          return Err(RuntimeError);
        case ModelsBodyNotJson =>
          return Err(ValueError);
      }
    }

    /** The first loop: the configured models in order, until one answers or fails for good. */
    method TryConfigured(chat: Chat, candidates: seq<string>)
      returns (outcome: Option<Result<(nat, string), Error>>, tried: set<string>)
      modifies this`requests
      ensures requests == old(requests) + Pass(chat, candidates, maxRetries)
      ensures outcome == if Conclusion(chat, candidates, maxRetries).NextModel? then None
                         else Some(Ending(chat, candidates, maxRetries))
      ensures outcome.None? ==> forall m :: m in tried <==> m in candidates
    {
      tried := {};
      for i := 0 to |candidates|
        invariant Tried(tried, [], candidates[..i])
        invariant requests == old(requests) + Rounds(chat, candidates[..i], maxRetries)
        invariant AllPassOn(chat, candidates[..i], maxRetries)
      {
        OneMore(chat, old(requests), candidates[..i], candidates[i], maxRetries);
        assert candidates[..i + 1] == candidates[..i] + [candidates[i]];
        tried := tried + {candidates[i]};
        var verdict := TryChatCompletion(chat, candidates[i]);
        if verdict != NextModel {
          PassStops(chat, candidates, maxRetries, candidates[..i + 1]);
          return Some(Returned(verdict, candidates[i])), tried;
        }
      }
      assert candidates[..|candidates|] == candidates;
      PassExhausts(chat, candidates, maxRetries);
      outcome := None;
    }

    /** The second loop: the discovered models in rank order, skipping those already tried. */
    method TryDiscovered(chat: Chat, found: seq<string>, ghost candidates: seq<string>, triedBefore: set<string>)
      returns (result: Result<(nat, string), Error>)
      requires Distinct(found) && forall m :: m in triedBefore <==> m in candidates
      modifies this`requests
      ensures var rest := Untried(found, candidates);
              && requests == old(requests) + Pass(chat, rest, maxRetries)
              && result == Ending(chat, rest, maxRetries)
    {
      ghost var rest := Untried(found, candidates);
      ghost var done: seq<string> := [];
      var tried := triedBefore;
      for i := 0 to |found|
        invariant Tried(tried, candidates, found[..i])
        invariant done == Untried(found[..i], candidates)
        invariant requests == old(requests) + Rounds(chat, done, maxRetries)
        invariant AllPassOn(chat, done, maxRetries)
      {
        NextUntried(found, i, candidates, tried);
        if found[i] in tried {
          continue;
        }
        tried := tried + {found[i]};
        var verdict := TryChatCompletion(chat, found[i]);
        OneMore(chat, old(requests), done, found[i], maxRetries);
        done := done + [found[i]];
        if verdict != NextModel {
          PassStops(chat, rest, maxRetries, done);
          return Returned(verdict, found[i]);
        }
      }
      assert found[..|found|] == found;
      PassExhausts(chat, rest, maxRetries);
      result := Err(RuntimeError);
    }

    method ChatCompletion(chat: Chat, models: ModelsOutcome) returns (result: Result<(nat, string), Error>)
      requires Valid()
      modifies this
      ensures Valid()
      ensures var trace := Fallback(chat, models, Candidates(), old(discoveredModels), maxRetries);
              && requests == old(requests) + trace.requests
              && discoveredModels == trace.cache
              && result == trace.result
    {
      var candidates := DedupeModelList([model] + fallbackModels);
      var outcome, tried := TryConfigured(chat, candidates);
      ghost var first := Pass(chat, candidates, maxRetries);
      if outcome.Some? {
        return outcome.value;
      }
      var found := DiscoverChatModels(models);
      ghost var listing := if old(discoveredModels).None? then [ListModels] else [];
      Associate(old(requests), first, listing);
      if found.Err? {
        return Err(found.error);
      }
      result := TryDiscovered(chat, found.value, candidates, tried);
      Associate(old(requests), first + listing, Pass(chat, Untried(found.value, candidates), maxRetries));
    }
  }

  method DedupeModelList(models: seq<string>) returns (deduped: seq<string>)
    ensures deduped == DedupeBy(models, Same)
  {
    var seen: set<string> := {};
    deduped := [];
    for i := 0 to |models|
      invariant deduped == DedupeBy(models[..i], Same)
      invariant forall m :: m in seen <==> HasKey(models[..i], Same, m)
    {
      assert models[..i + 1][..i] == models[..i];
      forall m ensures HasKey(models[..i + 1], Same, m) <==> HasKey(models[..i], Same, m) || models[i] == m {
        assert models[..i + 1] == models[..i] + [models[i]];
        HasKeyAppend(models[..i], models[i], Same, m);
      }
      if models[i] in seen {
        continue;
      }
      seen := seen + {models[i]};
      deduped := deduped + [models[i]];
    }
    assert models[..|models|] == models;
  }

  /** A pass ends at the first model that does not pass on, or after all of them. */
  lemma PassEnds(chat: Chat, models: seq<string>, maxRetries: nat, n: nat)
    requires n <= |models|
    requires forall i | 0 <= i < n - 1 :: VerdictOn(chat, models[i], maxRetries).NextModel?
    requires n == |models| || (n > 0 && !VerdictOn(chat, models[n - 1], maxRetries).NextModel?)
    ensures Contacted(chat, models, maxRetries) == n
    ensures Pass(chat, models, maxRetries) == Rounds(chat, models[..n], maxRetries)
    ensures Conclusion(chat, models, maxRetries) ==
            if n == 0 then NextModel else VerdictOn(chat, models[n - 1], maxRetries)
    ensures Ending(chat, models, maxRetries) ==
            if n == 0 then Err(RuntimeError) else Returned(VerdictOn(chat, models[n - 1], maxRetries), models[n - 1])
  {
  }

  lemma {:induction false} UntriedAppend(models: seq<string>, next: string, tried: seq<string>)
    ensures Untried(models + [next], tried) == Untried(models, tried) + if next in tried then [] else [next]
  {
    if models == [] {
      assert [next][1..] == [];
    } else {
      assert (models + [next])[1..] == models[1..] + [next];
      UntriedAppend(models[1..], next, tried);
    }
  }

  lemma {:induction false} UntriedPrefix(models: seq<string>, n: nat, tried: seq<string>)
    requires n <= |models|
    ensures Untried(models[..n], tried) <= Untried(models, tried)
    decreases |models| - n
  {
    if n == |models| {
      assert models[..n] == models;
    } else {
      UntriedPrefix(models, n + 1, tried);
      assert models[..n + 1] == models[..n] + [models[n]];
      UntriedAppend(models[..n], models[n], tried);
    }
  }

  /** The tried set while discovered models are gone through. */
  ghost predicate Tried(tried: set<string>, candidates: seq<string>, gone: seq<string>) {
    forall m :: m in tried <==> m in candidates || m in gone
  }

  lemma NextUntried(found: seq<string>, i: nat, candidates: seq<string>, tried: set<string>)
    requires Distinct(found) && i < |found| && Tried(tried, candidates, found[..i])
    ensures found[i] in tried <==> found[i] in candidates
    ensures Tried(tried + {found[i]}, candidates, found[..i + 1])
    ensures found[i] in tried ==> Tried(tried, candidates, found[..i + 1])
    ensures Untried(found[..i + 1], candidates) ==
            Untried(found[..i], candidates) + if found[i] in tried then [] else [found[i]]
    ensures Untried(found[..i + 1], candidates) <= Untried(found, candidates)
  {
    assert found[..i + 1] == found[..i] + [found[i]];
    UntriedAppend(found[..i], found[i], candidates);
    UntriedPrefix(found, i + 1, candidates);
  }

  ghost predicate AllPassOn(chat: Chat, models: seq<string>, maxRetries: nat) {
    forall j | 0 <= j < |models| :: VerdictOn(chat, models[j], maxRetries).NextModel?
  }

  lemma PassStops(chat: Chat, models: seq<string>, maxRetries: nat, done: seq<string>)
    requires done <= models && done != [] && AllPassOn(chat, done[..|done| - 1], maxRetries)
    requires !VerdictOn(chat, done[|done| - 1], maxRetries).NextModel?
    ensures Pass(chat, models, maxRetries) == Rounds(chat, done, maxRetries)
    ensures Conclusion(chat, models, maxRetries) == VerdictOn(chat, done[|done| - 1], maxRetries)
    ensures Ending(chat, models, maxRetries) ==
              Returned(VerdictOn(chat, done[|done| - 1], maxRetries), done[|done| - 1])
  {
    forall i | 0 <= i < |done| - 1 ensures VerdictOn(chat, models[i], maxRetries).NextModel? {
      assert done[..|done| - 1][i] == models[i];
    }
    PassEnds(chat, models, maxRetries, |done|);
    assert models[..|done|] == done;
  }

  lemma Associate<T>(a: seq<T>, b: seq<T>, c: seq<T>)
    ensures a + b + c == a + (b + c)
  {
  }

  /** One more round after those of `models`. */
  lemma OneMore(chat: Chat, before: seq<Request>, models: seq<string>, next: string, maxRetries: nat)
    ensures before + Rounds(chat, models, maxRetries) + Round(chat, next, maxRetries) ==
            before + Rounds(chat, models + [next], maxRetries)
    ensures (models + [next])[..|models|] == models
    ensures AllPassOn(chat, models, maxRetries) && VerdictOn(chat, next, maxRetries).NextModel? ==>
              AllPassOn(chat, models + [next], maxRetries)
  {
    assert (models + [next])[..|models|] == models;
    Associate(before, Rounds(chat, models, maxRetries), Round(chat, next, maxRetries));
  }

  lemma PassExhausts(chat: Chat, models: seq<string>, maxRetries: nat)
    requires AllPassOn(chat, models, maxRetries)
    ensures Pass(chat, models, maxRetries) == Rounds(chat, models, maxRetries)
    ensures Conclusion(chat, models, maxRetries).NextModel?
    ensures Ending(chat, models, maxRetries) == Err(RuntimeError)
  {
    PassEnds(chat, models, maxRetries, |models|);
    assert models[..|models|] == models;
  }

  // ----- ranking -----

  lemma RankLeqIsPreorder()
    ensures TotalPreorder(RankLeq)
  {
    forall a, b ensures RankLeq(a, b) || RankLeq(b, a) {
      TextLeqTotal(a, b);
    }
    forall a, b, c | RankLeq(a, b) && RankLeq(b, c) ensures RankLeq(a, c) {
      if TextLeq(a, b) && TextLeq(b, c) {
        TextLeqTransitive(a, b, c);
      }
    }
  }

  /** Ranking keeps each model once and orders by (priority, name). */
  lemma RankModelsSorts(models: seq<string>)
    ensures SortedBy(RankModels(models), RankLeq)
    ensures Distinct(RankModels(models))
    ensures forall m :: m in RankModels(models) <==> m in models
  {
    var deduped := DedupeBy(models, Same);
    RankLeqIsPreorder();
    StableSortSorts(deduped, RankLeq);
    DedupeKeys(models, Same);
    forall m ensures m in RankModels(models) <==> m in models {
      assert m in multiset(RankModels(models)) <==> m in multiset(deduped);
      assert HasKey(models, Same, m) <==> HasKey(deduped, Same, m);
    }
    DistinctIsMultiset(deduped);
    DistinctIsMultiset(RankModels(models));
  }

  lemma {:induction false} DistinctIsMultiset(s: seq<string>)
    ensures Distinct(s) <==> forall m :: multiset(s)[m] <= 1
  {
    if s != [] {
      var init, last := s[..|s| - 1], s[|s| - 1];
      assert s == init + [last];
      DistinctIsMultiset(init);
      if last in init {
        var i :| 0 <= i < |init| && init[i] == last;
        assert s[i] == s[|s| - 1];
        assert multiset(s)[last] >= 2;
      } else {
        assert multiset(init)[last] == 0;
        forall m ensures multiset(s)[m] == multiset(init)[m] + if m == last then 1 else 0 {
        }
      }
    }
  }
}
