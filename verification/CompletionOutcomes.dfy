/**
 What a chat completion does with each HTTP outcome, said of the requests it makes and of its result alone.

 `Order` lists the models it may contact and `ChatOnly` its chat requests, in the order they are made.
 */
module CompletionOutcomes {
  import opened Wrappers
  import opened Sequences
  import opened ModelFallback
  import opened CompletionSearch

  /** The error text of a 400, 403 or 404 says that the model is the problem. */
  predicate BlamesModel(outcome: ChatOutcome) {
    outcome.HttpStatus? && outcome.code in {400, 403, 404} && outcome.blamesModel
  }

  predicate MayPass(outcome: ChatOutcome) {
    outcome.TransportError? || (outcome.HttpStatus? && outcome.code in {429, 500, 502, 503, 504})
  }

  /** One completion: its oracles, its models, and the cache and retries it starts with. */
  datatype Run = Run(chat: Chat, models: ModelsOutcome, candidates: seq<string>, cache: Option<seq<string>>,
                     maxRetries: nat)
  {
    function Order(): seq<string> {
      CompletionSearch.Order(models, candidates, cache)
    }

    function Chats(): seq<Request> {
      ChatOnly(Fallback(chat, models, candidates, cache, maxRetries).requests)
    }

    function Result(): Result<(nat, string), Error> {
      Fallback(chat, models, candidates, cache, maxRetries).result
    }

    ghost predicate Valid() {
      Distinct(candidates) && (cache.Some? ==> Distinct(cache.value))
    }

    /** The last request made to a model. */
    predicate LastOn(model: string, attempt: nat) {
      ChatRequest(model, attempt) in Chats() && ChatRequest(model, attempt + 1) !in Chats()
    }
  }

  function Last(run: Run, model: string): nat {
    LastAttempt(run.chat, model, run.maxRetries, 0)
  }

  /** How many models the completion contacts. */
  function Reach(run: Run): nat {
    Contacted(run.chat, run.Order(), run.maxRetries)
  }

  lemma {:induction false} RoundsHold(run: Run, models: seq<string>, model: string, attempt: nat)
    ensures ChatRequest(model, attempt) in Rounds(run.chat, models, run.maxRetries) <==>
            model in models && attempt <= Last(run, model)
  {
    if models != [] {
      var (init, last) := (models[..|models| - 1], models[|models| - 1]);
      assert models == init + [last];
      RoundsHold(run, init, model, attempt);
      RoundHolds(run, last, model, attempt);
    }
  }

  lemma RoundHolds(run: Run, last: string, model: string, attempt: nat)
    ensures ChatRequest(model, attempt) in Round(run.chat, last, run.maxRetries) <==>
            model == last && attempt <= Last(run, model)
  {
    var round := Round(run.chat, last, run.maxRetries);
    if model == last && attempt <= Last(run, model) {
      assert round[attempt] == ChatRequest(model, attempt);
    }
  }

  lemma ChatsAreRounds(run: Run)
    ensures run.Chats() == Rounds(run.chat, run.Order()[..Reach(run)], run.maxRetries)
  {
    CompletionIsOneSearch(run.chat, run.models, run.candidates, run.cache, run.maxRetries);
  }

  /** Which requests are made. */
  lemma Requested(run: Run, model: string, attempt: nat)
    ensures ChatRequest(model, attempt) in run.Chats() <==>
            model in run.Order()[..Reach(run)] && attempt <= Last(run, model)
  {
    ChatsAreRounds(run);
    RoundsHold(run, run.Order()[..Reach(run)], model, attempt);
  }

  /** A request is repeated exactly while retries are left and the outcome may pass. */
  lemma Retried(run: Run, model: string, attempt: nat)
    ensures ChatRequest(model, attempt + 1) in run.Chats() <==>
            && ChatRequest(model, attempt) in run.Chats() && attempt < run.maxRetries
            && MayPass(run.chat(model, attempt))
  {
    Requested(run, model, attempt);
    Requested(run, model, attempt + 1);
    BeforeLast(run, model, attempt);
  }

  lemma BeforeLast(run: Run, model: string, attempt: nat)
    ensures attempt + 1 <= Last(run, model) <==>
            attempt <= Last(run, model) && attempt < run.maxRetries && MayPass(run.chat(model, attempt))
  {
    var last := Last(run, model);
    assert attempt < last ==> ShouldRetry(run.chat(model, attempt), attempt, run.maxRetries);
    assert !ShouldRetry(run.chat(model, last), last, run.maxRetries);
  }

  lemma LastRequest(run: Run, model: string, attempt: nat)
    ensures run.LastOn(model, attempt) <==> model in run.Order()[..Reach(run)] && attempt == Last(run, model)
  {
    Requested(run, model, attempt);
    Requested(run, model, attempt + 1);
  }

  lemma PassesOn(run: Run, model: string)
    ensures VerdictOn(run.chat, model, run.maxRetries).NextModel? <==> BlamesModel(run.chat(model, Last(run, model)))
  {
  }

  /** The last request made to `model` blames it. */
  ghost predicate BlamedLast(run: Run, model: string) {
    exists a :: run.LastOn(model, a) && BlamesModel(run.chat(model, a))
  }

  lemma BlamedPassesOn(run: Run, model: string)
    ensures BlamedLast(run, model) <==>
            model in run.Order()[..Reach(run)] && VerdictOn(run.chat, model, run.maxRetries).NextModel?
  {
    PassesOn(run, model);
    LastRequest(run, model, Last(run, model));
    forall a | run.LastOn(model, a) ensures a == Last(run, model) {
      LastRequest(run, model, a);
    }
  }

  /**
   The models are contacted in order, each next one exactly when the last outcome of the one before it blames
   that model.
   */
  lemma NextModelContacted(run: Run, i: nat)
    requires run.Valid() && i + 1 < |run.Order()|
    ensures ChatRequest(run.Order()[i + 1], 0) in run.Chats() <==>
            BlamedLast(run, run.Order()[i])
  {
    var order := run.Order();
    OrderDistinct(run.models, run.candidates, run.cache);
    Requested(run, order[i + 1], 0);
    InPrefix(order, Reach(run), i);
    InPrefix(order, Reach(run), i + 1);
    BlamedPassesOn(run, order[i]);
  }

  lemma InPrefix(order: seq<string>, n: nat, i: nat)
    requires Distinct(order) && n <= |order| && i < |order|
    ensures order[i] in order[..n] <==> i < n
  {
    if i < n {
      assert order[..n][i] == order[i];
    }
  }

  /** The first model of the order is always contacted. */
  lemma FirstModelContacted(run: Run)
    requires run.Order() != []
    ensures ChatRequest(run.Order()[0], 0) in run.Chats()
  {
    Requested(run, run.Order()[0], 0);
    assert run.Order()[..Reach(run)][0] == run.Order()[0];
  }

  /** Once the last model's round has begun, only its attempts follow. */
  lemma LastRound(run: Run, models: seq<string>, i: nat)
    requires models != [] && Distinct(models)
    ensures var rounds := Rounds(run.chat, models, run.maxRetries);
            var before := |Rounds(run.chat, models[..|models| - 1], run.maxRetries)|;
            && before + Last(run, models[|models| - 1]) + 1 == |rounds|
            && (i < |rounds| && rounds[i].ChatRequest? && rounds[i].model == models[|models| - 1] ==> before <= i)
            && (before <= i < |rounds| ==> rounds[i] == ChatRequest(models[|models| - 1], i - before))
  {
    var (init, last) := (models[..|models| - 1], models[|models| - 1]);
    RoundsAreChats(run.chat, init, run.maxRetries);
    forall k | 0 <= k < |init| ensures init[k] != last {
      assert init[k] == models[k];
    }
  }

  /** Two requests to different models are not both of the last round. */
  lemma NotBothLast(run: Run, models: seq<string>, i: nat, j: nat)
    requires Distinct(models) && i < j < |Rounds(run.chat, models, run.maxRetries)|
    ensures var rounds := Rounds(run.chat, models, run.maxRetries);
            && rounds[i].ChatRequest? && rounds[j].ChatRequest? && models != []
            && (rounds[i].model != rounds[j].model ==> rounds[i].model in models[..|models| - 1])
  {
    RoundsAreChats(run.chat, models, run.maxRetries);
    LastRound(run, models, i);
    LastRound(run, models, j);
    assert models == models[..|models| - 1] + [models[|models| - 1]];
  }

  lemma EarlierModel(run: Run, i: nat, j: nat)
    requires run.Valid() && i < j < |run.Chats()|
    ensures run.Chats()[i].ChatRequest? && run.Chats()[j].ChatRequest?
    ensures run.Chats()[i].model != run.Chats()[j].model ==>
              Reach(run) > 0 && run.Chats()[i].model in run.Order()[..Reach(run) - 1]
  {
    ChatsAreRounds(run);
    ReachedDistinct(run);
    NotBothLast(run, run.Order()[..Reach(run)], i, j);
    assert run.Order()[..Reach(run)][..Reach(run) - 1] == run.Order()[..Reach(run) - 1];
  }

  lemma ReachedDistinct(run: Run)
    requires run.Valid()
    ensures Distinct(run.Order()[..Reach(run)])
  {
    OrderDistinct(run.models, run.candidates, run.cache);
  }

  lemma PassedBefore(run: Run, model: string)
    requires Reach(run) > 0 && model in run.Order()[..Reach(run) - 1]
    ensures BlamedLast(run, model)
  {
    var k :| 0 <= k < Reach(run) - 1 && run.Order()[k] == model;
    assert run.Order()[..Reach(run)][k] == model;
    BlamedPassesOn(run, model);
  }

  /** No model is contacted after another one unless the last outcome of that one blames it. */
  lemma OthersOnlyAfterBlame(run: Run, i: nat, j: nat)
    requires run.Valid() && i < j < |run.Chats()|
    ensures run.Chats()[i].ChatRequest? && run.Chats()[j].ChatRequest?
    ensures run.Chats()[i].model != run.Chats()[j].model ==> BlamedLast(run, run.Chats()[i].model)
  {
    EarlierModel(run, i, j);
    if run.Chats()[i].model != run.Chats()[j].model {
      PassedBefore(run, run.Chats()[i].model);
    }
  }

  lemma LastChat(run: Run)
    requires run.Valid() && run.Order() != []
    ensures Reach(run) > 0 && run.Chats() != []
    ensures var model := run.Order()[Reach(run) - 1];
            run.Chats()[|run.Chats()| - 1] == ChatRequest(model, Last(run, model))
  {
    var reached := run.Order()[..Reach(run)];
    ChatsAreRounds(run);
    ReachedDistinct(run);
    assert |Rounds(run.chat, reached, run.maxRetries)| > 0;
    LastRound(run, reached, |Rounds(run.chat, reached, run.maxRetries)| - 1);
    assert reached[|reached| - 1] == run.Order()[Reach(run) - 1];
  }

  lemma ResultOfVerdict(run: Run)
    requires run.Order() != []
    ensures Reach(run) > 0
    ensures var model := run.Order()[Reach(run) - 1];
            var verdict := VerdictOn(run.chat, model, run.maxRetries);
            run.Result() == if verdict.NextModel? && run.cache.None? && run.models.ModelsBodyNotJson?
                            then Err(ValueError) else Returned(verdict, model)
  {
    CompletionIsOneSearch(run.chat, run.models, run.candidates, run.cache, run.maxRetries);
    EndsAtReach(run);
    ListingFails(run);
  }

  lemma EndsAtReach(run: Run)
    requires run.Order() != []
    ensures Reach(run) > 0
    ensures var model := run.Order()[Reach(run) - 1];
            var verdict := VerdictOn(run.chat, model, run.maxRetries);
            && Conclusion(run.chat, run.Order(), run.maxRetries) == verdict
            && Ending(run.chat, run.Order(), run.maxRetries) == Returned(verdict, model)
  {
  }

  lemma ListingFails(run: Run)
    ensures var found := Discovery(run.cache, run.models).1;
            && (found.Err? ==>
                  found.error == if run.cache.None? && run.models.ModelsBodyNotJson? then ValueError else RuntimeError)
            && (run.cache.None? && run.models.ModelsBodyNotJson? ==> found.Err?)
  {
  }

  /** How a completion ends with each outcome of its last chat request. */
  ghost predicate EndsWith(run: Run, model: string, outcome: ChatOutcome) {
    match outcome
    case Completed(raw) => run.Result() == Ok((raw, model))
    case BodyNotJson => run.Result() == Err(ValueError)
    case TransportError => run.Result() == Err(RuntimeError)
    case HttpStatus(_, _) =>
      var unreadable := BlamesModel(outcome) && run.cache.None? && run.models.ModelsBodyNotJson?;
      run.Result() == Err(if unreadable then ValueError else RuntimeError)
  }

  lemma ResultByLastOutcome(run: Run)
    requires run.Valid() && run.Order() != []
    ensures run.Chats() != [] && run.Chats()[|run.Chats()| - 1].ChatRequest?
    ensures var last := run.Chats()[|run.Chats()| - 1];
            EndsWith(run, last.model, run.chat(last.model, last.attempt))
  {
    LastChat(run);
    ResultOfVerdict(run);
  }

  /** The models that may be contacted: the configured ones and those cached or listed. */
  lemma MayContact(run: Run, model: string)
    ensures model in run.Order() <==>
            || model in run.candidates
            || (if run.cache.Some? then model in run.cache.value
                else run.models.Listed? && model in run.models.ids)
  {
    if run.cache.None? && run.models.Listed? {
      RankModelsSorts(run.models.ids);
    }
  }

  lemma ListingIsAsked(run: Run)
    ensures ListModels in Fallback(run.chat, run.models, run.candidates, run.cache, run.maxRetries).requests <==>
            run.cache.None? && Conclusion(run.chat, run.candidates, run.maxRetries).NextModel?
  {
    var found := Discovery(run.cache, run.models).1;
    RoundsAreChats(run.chat, run.candidates[..Contacted(run.chat, run.candidates, run.maxRetries)], run.maxRetries);
    if found.Ok? {
      var rest := Untried(found.value, run.candidates);
      RoundsAreChats(run.chat, rest[..Contacted(run.chat, rest, run.maxRetries)], run.maxRetries);
    }
  }

  lemma AllBlamed(run: Run)
    ensures Conclusion(run.chat, run.candidates, run.maxRetries).NextModel? <==>
            forall m <- run.candidates :: BlamedLast(run, m)
  {
    var candidates := run.candidates;
    if Conclusion(run.chat, candidates, run.maxRetries).NextModel? {
      forall i | 0 <= i < |candidates| ensures BlamedLast(run, candidates[i]) {
        assert run.Order()[i] == candidates[i];
        Exhausted(run);
        assert run.Order()[..Reach(run)][i] == candidates[i];
        BlamedPassesOn(run, candidates[i]);
      }
    } else {
      var decisive := candidates[Contacted(run.chat, candidates, run.maxRetries) - 1];
      BlamedPassesOn(run, decisive);
    }
  }

  lemma Exhausted(run: Run)
    requires Conclusion(run.chat, run.candidates, run.maxRetries).NextModel?
    ensures forall i | 0 <= i < |run.candidates| ::
              VerdictOn(run.chat, run.candidates[i], run.maxRetries).NextModel?
    ensures Reach(run) >= |run.candidates|
  {
    var order := run.Order();
    assert Contacted(run.chat, run.candidates, run.maxRetries) == |run.candidates|;
    assert forall i | 0 <= i < |run.candidates| :: order[i] == run.candidates[i];
  }

  /** The models are listed exactly when the cache is empty and every configured model is to blame. */
  lemma ListingRequested(run: Run)
    ensures ListModels in Fallback(run.chat, run.models, run.candidates, run.cache, run.maxRetries).requests <==>
            run.cache.None? && forall m <- run.candidates :: BlamedLast(run, m)
  {
    ListingIsAsked(run);
    AllBlamed(run);
  }

  /** What a completion leaves in the cache: what the listing found, nothing when it was refused, and else as it was. */
  lemma CacheAfter(run: Run)
    ensures var after := Fallback(run.chat, run.models, run.candidates, run.cache, run.maxRetries).cache;
            var listed := run.cache.None? && forall m <- run.candidates :: BlamedLast(run, m);
            if !listed || run.models.ModelsBodyNotJson? then after == run.cache
            else if run.models.Listed? then after == Some(RankModels(run.models.ids))
            else after == Some([])
  {
    AllBlamed(run);
  }

  predicate PrefixOf(prefix: string, text: string) {
    |prefix| <= |text| && text[..|prefix|] == prefix
  }

  /** A model ranks where the table names it, else where it is a dated variant of a table entry, else last. */
  lemma RankMeans(priorities: seq<string>, model: string, i: nat)
    requires i < |priorities|
    ensures priorities[i] == model && (forall j | 0 <= j < i :: priorities[j] != model) ==>
              ModelRank(priorities, model) == i
    ensures && model !in priorities && PrefixOf(priorities[i] + "-", model)
            && (forall j | 0 <= j < i :: !PrefixOf(priorities[j] + "-", model)) ==>
              ModelRank(priorities, model) == i
    ensures model !in priorities && (forall p <- priorities :: !PrefixOf(p + "-", model)) ==>
              ModelRank(priorities, model) == |priorities|
  {
    assert forall p <- priorities :: PrefixOf(p + "-", model) <==> p + "-" <= model;
  }

  /** Discovered models are tried by rank in this table, and by name within a rank. */
  lemma DiscoveredInOrder(ids: seq<string>, i: nat, j: nat)
    requires i < j < |RankModels(ids)|
    ensures var table := ["gpt-4.1-mini", "gpt-4o-mini", "gpt-4o", "gpt-4.1", "gpt-4.1-nano", "gpt-4-turbo", "gpt-4",
                          "chatgpt-4o-latest", "gpt-3.5-turbo", "o4-mini", "o3-mini", "o3", "o1"];
            var (earlier, later) := (ModelRank(table, RankModels(ids)[i]), ModelRank(table, RankModels(ids)[j]));
            earlier < later || (earlier == later && TextLeq(RankModels(ids)[i], RankModels(ids)[j]))
  {
    RankModelsSorts(ids);
  }

  /** Without a candidate and without a discovered model nothing is asked and nothing returned. */
  lemma NothingToAsk(run: Run)
    requires run.Order() == []
    ensures run.Chats() == [] && run.Result().Err?
  {
    ChatsAreRounds(run);
    CompletionIsOneSearch(run.chat, run.models, run.candidates, run.cache, run.maxRetries);
  }
}
