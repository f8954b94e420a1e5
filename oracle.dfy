/**
 * The language model behind GenerateLLMResponse, as an oracle that answers
 * from a script: the k-th call receives the k-th scripted response, and every
 * prompt asked is recorded. A call past the end of the script stands for the
 * client's error, whose text the source returns in place of a response.
 * Prompts carry what they show the model (who asks, about what, and the
 * transcript), not their wording.
 */
module Oracle {
  import opened Wrappers
  import opened Core
  import opened AiTypes

  datatype Prompt =
    | PaperPrompt(agent: Agent, paper: ResearchPaper, discussion: string)
    | LoanPrompt(agent: Agent, loan: string, discussion: string)
    | DiscussionPrompt(persona: string, topic: string)
    | SelectionPrompt(agentName: string, traits: string, transactions: string)

  /** The text returned when the client fails (err.Error()); the model leaves it unspecified beyond this constant. */
  const Unavailable := "error: language model unavailable"

  /** The response the k-th call from now receives. */
  function Response(script: seq<string>, k: nat): string {
    if k < |script| then script[k] else Unavailable
  }

  /** The script left after `n` calls. */
  function Drop(script: seq<string>, n: nat): (rest: seq<string>)
    ensures |rest| == if n <= |script| then |script| - n else 0
  {
    if n <= |script| then script[n..] else []
  }

  lemma ResponseAfterDrop(script: seq<string>, n: nat, k: nat)
    ensures Response(Drop(script, n), k) == Response(script, n + k)
  {
  }

  lemma DropDrop(script: seq<string>, a: nat, b: nat)
    ensures Drop(Drop(script, a), b) == Drop(script, a + b)
  {
  }

  /** The state deliberation works on: the files, the oracle's remaining script and the prompts asked. */
  datatype Env = Env(files: map<string, string>, script: seq<string>, asked: seq<Prompt>)

  class Llm {
    var script: seq<string>
    var asked: seq<Prompt>

    constructor (script: seq<string>)
      ensures this.script == script && asked == []
    {
      this.script := script;
      asked := [];
    }

    /** GenerateLLMResponse: one call, answered by the next scripted response. */
    method Generate(prompt: Prompt) returns (response: string)
      modifies this
      ensures response == Response(old(script), 0)
      ensures script == Drop(old(script), 1)
      ensures asked == old(asked) + [prompt]
    {
      response := Response(script, 0);
      script := Drop(script, 1);
      asked := asked + [prompt];
    }

    /** queryLLM: one call whose failure is reported as an error (None) rather than as text. */
    method Query(prompt: Prompt) returns (response: Option<string>)
      modifies this
      ensures |old(script)| == 0 <==> response.None?
      ensures response.Some? ==> response.value == old(script)[0]
      ensures script == Drop(old(script), 1)
      ensures asked == old(asked) + [prompt]
    {
      if |script| == 0 {
        response := None;
      } else {
        response := Some(script[0]);
      }
      script := Drop(script, 1);
      asked := asked + [prompt];
    }
  }
}
