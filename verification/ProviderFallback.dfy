/** Falling back across LLM providers (backend/app/agents/llm/database.py). */
module ProviderFallback {
  import opened Wrappers
  import opened ModelFallback

  datatype Reply = Replied(value: nat) | Raised(error: Error, message: string)
  datatype Named = Named(name: string, reply: Reply)

  /** OpenAI, Gemini, Groq, Grok: those that are configured, in this order. */
  method ConfiguredProviders(openai: Option<Reply>, gemini: Option<Reply>, groq: Option<Reply>, grok: Option<Reply>)
    returns (providers: seq<Named>)
    ensures forall name, reply :: Named(name, reply) in providers <==>
              || (name == "openai" && openai == Some(reply)) || (name == "gemini" && gemini == Some(reply))
              || (name == "groq" && groq == Some(reply)) || (name == "grok" && grok == Some(reply))
    ensures forall i, j | 0 <= i < j < |providers| :: Precedence(providers[i].name) < Precedence(providers[j].name)
  {
    providers := [];
    if openai.Some? {
      providers := providers + [Named("openai", openai.value)];
    }
    if gemini.Some? {
      providers := providers + [Named("gemini", gemini.value)];
    }
    if groq.Some? {
      providers := providers + [Named("groq", groq.value)];
    }
    if grok.Some? {
      providers := providers + [Named("grok", grok.value)];
    }
  }

  function Precedence(name: string): nat {
    if name == "openai" then 0 else if name == "gemini" then 1 else if name == "groq" then 2 else 3
  }

  /**
   The first provider that replies wins; a `RuntimeError` passes on to the next provider, any other
   error escapes at once; when all pass on, the failures name every provider in order.
   */
  method WithFallback(providers: seq<Named>)
    returns (result: Result<nat, Error>, asked: nat, failures: seq<(string, string)>)
    ensures asked <= |providers| && |failures| <= asked
    ensures forall i | 0 <= i < |failures| ::
              && providers[i].reply.Raised? && providers[i].reply.error == RuntimeError
              && failures[i] == (providers[i].name, providers[i].reply.message)
    ensures |failures| == asked ==> asked == |providers| && result == Err(RuntimeError)
    ensures |failures| < asked ==>
              && |failures| == asked - 1
              && match providers[asked - 1].reply
                 case Replied(value) => result == Ok(value)
                 case Raised(error, _) => error != RuntimeError && result == Err(error)
  {
    failures := [];
    for i := 0 to |providers|
      invariant |failures| == i
      invariant forall j | 0 <= j < i ::
                  && providers[j].reply.Raised? && providers[j].reply.error == RuntimeError
                  && failures[j] == (providers[j].name, providers[j].reply.message)
    {
      match providers[i].reply {
        case Replied(value) =>
          return Ok(value), i + 1, failures;
        case Raised(error, message) =>
          if error != RuntimeError {
            return Err(error), i + 1, failures;
          }
          failures := failures + [(providers[i].name, message)];
      }
    }
    return Err(RuntimeError), |providers|, failures;
  }
}
