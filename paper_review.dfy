/**
 * ai/paper_review.go: the three-round paper deliberation. Each round reads the
 * chain's transcript, asks the reviewer, and appends one round line; a fourth,
 * unlogged call gives the verdict returned. PaperRound and PaperDeliberation
 * state the effect of one round and of the whole deliberation on the files,
 * the oracle's script and the prompts asked; the methods are proved against
 * them, and the lemmas below state what that effect guarantees in closed form.
 */
module PaperReviewing {
  import opened Wrappers
  import opened Text
  import opened Core
  import opened AiTypes
  import opened Oracle
  import opened RoundLog
  import opened TranscriptStore
  import DiscussionWatcher

  /** The number of logged rounds. */
  const PaperRounds: nat := 3

  /** What GetPaperReview returns when the model answers `response`. */
  function PaperVerdict(agent: Agent, response: string, decode: string -> Option<PaperReview>): PaperReview {
    if agent.isValidator then decode(response).GetOr(ZeroPaperReview) else ZeroPaperReview
  }

  /** The oracle calls `rounds` calls of GetPaperReview make: one each for a validator, none otherwise. */
  function Calls(agent: Agent, rounds: nat): nat {
    if agent.isValidator then rounds else 0
  }

  /** The prompt GetPaperReview records: the one asked, if the agent is a validator. */
  function Asks(agent: Agent, prompt: Prompt): seq<Prompt> {
    if agent.isValidator then [prompt] else []
  }

  /** One logged round: read the transcript, ask about the paper, append the round line. */
  function PaperRound(s: Env, agent: Agent, paper: ResearchPaper, chainID: string,
                      decode: string -> Option<PaperReview>, round: int): Env
  {
    var path := TranscriptPath(chainID);
    var seen := ContentOf(s.files, path);
    var v := PaperVerdict(agent, Response(s.script, 0), decode);
    Env(s.files[path := seen + FormatRoundLine(round, v.approval, agent.name, v.summary) + "\n"],
        Drop(s.script, Calls(agent, 1)),
        s.asked + Asks(agent, PaperPrompt(agent, paper, seen)))
  }

  /** The state after rounds 0 .. n-1. */
  function PaperRoundsFrom(env: Env, agent: Agent, paper: ResearchPaper, chainID: string,
                           decode: string -> Option<PaperReview>, n: nat): Env
  {
    if n == 0 then env
    else PaperRound(PaperRoundsFrom(env, agent, paper, chainID, decode, n - 1), agent, paper, chainID, decode, n - 1)
  }

  /** GetMultiRoundReview: the logged rounds, then one more read and the verdict call. */
  function PaperDeliberation(env: Env, agent: Agent, paper: ResearchPaper, chainID: string,
                             decode: string -> Option<PaperReview>): (PaperReview, Env)
  {
    var s := PaperRoundsFrom(env, agent, paper, chainID, decode, PaperRounds);
    var path := TranscriptPath(chainID);
    var seen := ContentOf(s.files, path);
    (PaperVerdict(agent, Response(s.script, 0), decode),
     Env(s.files[path := seen], Drop(s.script, Calls(agent, 1)), s.asked + Asks(agent, PaperPrompt(agent, paper, seen))))
  }

  /**
   * GetPaperReview: a non-validator gets the zero review without a call;
   * otherwise one call, and the decoded reply or the zero review when it does not parse.
   */
  method GetPaperReview(agent: Agent, paper: ResearchPaper, previous: string, llm: Llm,
                        decode: string -> Option<PaperReview>) returns (review: PaperReview)
    modifies llm
    ensures review == PaperVerdict(agent, Response(old(llm.script), 0), decode)
    ensures llm.script == Drop(old(llm.script), Calls(agent, 1))
    ensures llm.asked == old(llm.asked) + Asks(agent, PaperPrompt(agent, paper, previous))
  {
    if !agent.isValidator {
      return ZeroPaperReview;
    }
    var response := llm.Generate(PaperPrompt(agent, paper, previous));
    match decode(response)
    case None =>
      review := ZeroPaperReview;
    case Some(r) =>
      review := r;
  }

  /** GetMultiRoundReview: three logged rounds, then the unlogged verdict. */
  method GetMultiRoundReview(agent: Agent, paper: ResearchPaper, chainID: string, store: Store, llm: Llm,
                             decode: string -> Option<PaperReview>) returns (review: PaperReview)
    modifies store, llm
    ensures (review, Env(store.files, llm.script, llm.asked))
         == PaperDeliberation(Env(old(store.files), old(llm.script), old(llm.asked)), agent, paper, chainID, decode)
  {
    ghost var env := Env(store.files, llm.script, llm.asked);
    ghost var path := TranscriptPath(chainID);
    var round := 0;
    while round < 3
      invariant 0 <= round <= 3
      invariant Env(store.files, llm.script, llm.asked) == PaperRoundsFrom(env, agent, paper, chainID, decode, round)
    {
      ghost var before := store.files;
      var previous := store.GetDiscussionLog(chainID);
      var r := GetPaperReview(agent, paper, previous, llm, decode);
      var msg := FormatRoundLine(round, r.approval, agent.name, r.summary);
      store.AppendDiscussionLog(chainID, msg);
      OverwriteFile(before, path, previous, previous + msg + "\n");
      round := round + 1;
    }
    var previous := store.GetDiscussionLog(chainID);
    review := GetPaperReview(agent, paper, previous, llm, decode);
  }

  // ------------------------------------------------------ the closed form

  /** The verdicts of `n` successive GetPaperReview calls answered from `script`. */
  function PaperVerdicts(agent: Agent, script: seq<string>, decode: string -> Option<PaperReview>, n: nat): (v: seq<PaperReview>)
    ensures |v| == n
    ensures forall k :: 0 <= k < n ==> v[k] == PaperVerdict(agent, Response(script, k), decode)
  {
    if n == 0 then [] else PaperVerdicts(agent, script, decode, n - 1) + [PaperVerdict(agent, Response(script, n - 1), decode)]
  }

  /** What the verdicts contribute to their round lines. */
  function Entries(verdicts: seq<PaperReview>): (entries: seq<RoundEntry>)
    ensures |entries| == |verdicts|
    ensures forall i :: 0 <= i < |verdicts| ==> entries[i] == RoundEntry(verdicts[i].approval, verdicts[i].summary)
  {
    if verdicts == [] then []
    else
      var last := verdicts[|verdicts| - 1];
      Entries(verdicts[..|verdicts| - 1]) + [RoundEntry(last.approval, last.summary)]
  }

  /** The round entries a deliberation starting from `script` writes. */
  function PaperEntries(agent: Agent, script: seq<string>, decode: string -> Option<PaperReview>): (entries: seq<RoundEntry>)
    ensures |entries| == PaperRounds
  {
    Entries(PaperVerdicts(agent, script, decode, PaperRounds))
  }

  /** The prompts of the first `n` calls: call r shows the transcript `t0` plus the lines of rounds 0..r-1. */
  function PaperPrompts(agent: Agent, paper: ResearchPaper, t0: string, entries: seq<RoundEntry>, n: nat): (prompts: seq<Prompt>)
    requires n <= |entries| + 1
    ensures |prompts| == n
  {
    if n == 0 then []
    else PaperPrompts(agent, paper, t0, entries, n - 1) + [PaperPrompt(agent, paper, t0 + RoundLines(agent.name, entries[..n - 1], 0))]
  }

  /** The state after rounds 0 .. n-1, in closed form. */
  function PaperRoundsClosed(env: Env, agent: Agent, paper: ResearchPaper, chainID: string,
                             decode: string -> Option<PaperReview>, n: nat): Env
    requires n <= PaperRounds
  {
    var path := TranscriptPath(chainID);
    var entries := PaperEntries(agent, env.script, decode);
    Env(ClosedFiles(env.files, path, agent.name, entries, n),
        Drop(env.script, Calls(agent, n)),
        env.asked + PaperPrompts(agent, paper, ContentOf(env.files, path), entries, Calls(agent, n)))
  }

  /** Round k is answered by the k-th scripted response, whether or not earlier rounds called. */
  lemma RoundVerdict(agent: Agent, script: seq<string>, decode: string -> Option<PaperReview>, k: nat)
    requires k < PaperRounds
    ensures PaperVerdict(agent, Response(Drop(script, Calls(agent, k)), 0), decode)
         == PaperVerdict(agent, Response(script, k), decode)
    ensures PaperEntries(agent, script, decode)[k]
         == RoundEntry(PaperVerdict(agent, Response(script, k), decode).approval,
                       PaperVerdict(agent, Response(script, k), decode).summary)
  {
    ResponseAfterDrop(script, Calls(agent, k), 0);
  }

  /** One more GetPaperReview call extends the prompts asked by the one showing the earlier rounds' lines. */
  lemma PromptsStep(asked: seq<Prompt>, agent: Agent, paper: ResearchPaper, t0: string, entries: seq<RoundEntry>, n: nat)
    requires n <= |entries|
    ensures asked + PaperPrompts(agent, paper, t0, entries, Calls(agent, n))
                  + Asks(agent, PaperPrompt(agent, paper, t0 + RoundLines(agent.name, entries[..n], 0)))
         == asked + PaperPrompts(agent, paper, t0, entries, Calls(agent, n + 1))
  {
    if agent.isValidator {
      AppendAssoc(asked, PaperPrompts(agent, paper, t0, entries, n),
                  [PaperPrompt(agent, paper, t0 + RoundLines(agent.name, entries[..n], 0))]);
    }
  }

  /** One more round takes the closed form for n rounds to the closed form for n + 1. */
  lemma ClosedRoundStep(env: Env, agent: Agent, paper: ResearchPaper, chainID: string,
                        decode: string -> Option<PaperReview>, n: nat)
    requires n < PaperRounds
    ensures PaperRound(PaperRoundsClosed(env, agent, paper, chainID, decode, n), agent, paper, chainID, decode, n)
         == PaperRoundsClosed(env, agent, paper, chainID, decode, n + 1)
  {
    var path := TranscriptPath(chainID);
    var t0 := ContentOf(env.files, path);
    var entries := PaperEntries(agent, env.script, decode);
    var v := PaperVerdict(agent, Response(env.script, n), decode);
    ClosedFilesContent(env.files, path, agent.name, entries, n);
    RoundVerdict(agent, env.script, decode, n);
    ClosedFilesStep(env.files, path, agent.name, entries, n, v.approval, v.summary);
    DropDrop(env.script, Calls(agent, n), Calls(agent, 1));
    PromptsStep(env.asked, agent, paper, t0, entries, n);
  }

  /** The rounds, step by step, agree with the closed form. */
  lemma {:induction false} PaperRoundsClosedForm(env: Env, agent: Agent, paper: ResearchPaper, chainID: string,
                                                 decode: string -> Option<PaperReview>, n: nat)
    requires n <= PaperRounds
    ensures PaperRoundsFrom(env, agent, paper, chainID, decode, n) == PaperRoundsClosed(env, agent, paper, chainID, decode, n)
  {
    if n > 0 {
      PaperRoundsClosedForm(env, agent, paper, chainID, decode, n - 1);
      ClosedRoundStep(env, agent, paper, chainID, decode, n - 1);
    }
  }

  /**
   * The whole deliberation in closed form: the transcript gains the three
   * round lines, the script loses the calls made, the prompts asked are the
   * ones PaperPrompts lists, and the verdict answers the call after the rounds.
   */
  lemma PaperDeliberationClosedForm(env: Env, agent: Agent, paper: ResearchPaper, chainID: string,
                                    decode: string -> Option<PaperReview>)
    ensures var path := TranscriptPath(chainID);
            var t0 := ContentOf(env.files, path);
            var entries := PaperEntries(agent, env.script, decode);
            PaperDeliberation(env, agent, paper, chainID, decode)
            == (PaperVerdict(agent, Response(env.script, Calls(agent, PaperRounds)), decode),
                Env(env.files[path := t0 + RoundLines(agent.name, entries, 0)],
                    Drop(env.script, Calls(agent, PaperRounds + 1)),
                    env.asked + PaperPrompts(agent, paper, t0, entries, Calls(agent, PaperRounds + 1))))
  {
    var path := TranscriptPath(chainID);
    var t0 := ContentOf(env.files, path);
    var entries := PaperEntries(agent, env.script, decode);
    var final := t0 + RoundLines(agent.name, entries, 0);
    PaperRoundsClosedForm(env, agent, paper, chainID, decode, PaperRounds);
    ClosedFilesContent(env.files, path, agent.name, entries, PaperRounds);
    assert entries[..PaperRounds] == entries;
    OverwriteFile(env.files, path, final, final);
    ResponseAfterDrop(env.script, Calls(agent, PaperRounds), 0);
    DropDrop(env.script, Calls(agent, PaperRounds), Calls(agent, 1));
    PromptsStep(env.asked, agent, paper, t0, entries, PaperRounds);
  }

  // ---------------------------------------------------------- properties

  /** The transcript after a deliberation: what it held, then the lines of rounds 0, 1 and 2, in that order. */
  lemma PaperTranscript(env: Env, agent: Agent, paper: ResearchPaper, chainID: string, decode: string -> Option<PaperReview>)
    ensures var path := TranscriptPath(chainID);
            var v0 := PaperVerdict(agent, Response(env.script, 0), decode);
            var v1 := PaperVerdict(agent, Response(env.script, 1), decode);
            var v2 := PaperVerdict(agent, Response(env.script, 2), decode);
            var after := PaperDeliberation(env, agent, paper, chainID, decode).1;
            after.files == env.files[path := ContentOf(env.files, path)
              + (FormatRoundLine(0, v0.approval, agent.name, v0.summary) + "\n"
                 + FormatRoundLine(1, v1.approval, agent.name, v1.summary) + "\n"
                 + FormatRoundLine(2, v2.approval, agent.name, v2.summary) + "\n")]
  {
    PaperDeliberationClosedForm(env, agent, paper, chainID, decode);
    PaperEntryLines(agent, env.script, decode);
  }

  /** The round lines of the entries: one per round, in round order, each with its verdict. */
  lemma PaperEntryLines(agent: Agent, script: seq<string>, decode: string -> Option<PaperReview>)
    ensures var v0 := PaperVerdict(agent, Response(script, 0), decode);
            var v1 := PaperVerdict(agent, Response(script, 1), decode);
            var v2 := PaperVerdict(agent, Response(script, 2), decode);
            RoundLines(agent.name, PaperEntries(agent, script, decode), 0)
            == FormatRoundLine(0, v0.approval, agent.name, v0.summary) + "\n"
               + FormatRoundLine(1, v1.approval, agent.name, v1.summary) + "\n"
               + FormatRoundLine(2, v2.approval, agent.name, v2.summary) + "\n"
  {
    var entries := PaperEntries(agent, script, decode);
    RoundVerdict(agent, script, decode, 0);
    RoundVerdict(agent, script, decode, 1);
    RoundVerdict(agent, script, decode, 2);
    var v0 := PaperVerdict(agent, Response(script, 0), decode);
    var v1 := PaperVerdict(agent, Response(script, 1), decode);
    var v2 := PaperVerdict(agent, Response(script, 2), decode);
    var e0, e1, e2 := RoundEntry(v0.approval, v0.summary), RoundEntry(v1.approval, v1.summary), RoundEntry(v2.approval, v2.summary);
    assert entries == [e0, e1, e2];
    RoundLinesOfThree(agent.name, e0, e1, e2);
  }

  /**
   * A validator's deliberation asks four times, round r's prompt showing the
   * transcript as it was plus the lines of rounds 0..r-1 (PaperPrompts); the
   * final prompt shows the transcript the deliberation leaves, so its own
   * verdict is never appended. The verdict decodes the fourth response, and
   * four responses are used up.
   */
  lemma PaperValidatorDeliberation(env: Env, agent: Agent, paper: ResearchPaper, chainID: string,
                                   decode: string -> Option<PaperReview>)
    requires agent.isValidator
    ensures var path := TranscriptPath(chainID);
            var t0 := ContentOf(env.files, path);
            var entries := PaperEntries(agent, env.script, decode);
            var (review, after) := PaperDeliberation(env, agent, paper, chainID, decode);
            review == decode(Response(env.script, PaperRounds)).GetOr(ZeroPaperReview)
            && after.script == Drop(env.script, PaperRounds + 1)
            && after.asked == env.asked + PaperPrompts(agent, paper, t0, entries, PaperRounds + 1)
            && |after.asked| == |env.asked| + PaperRounds + 1
            && after.asked[|env.asked| + PaperRounds] == PaperPrompt(agent, paper, after.files[path])
  {
    var path := TranscriptPath(chainID);
    var entries := PaperEntries(agent, env.script, decode);
    PaperDeliberationClosedForm(env, agent, paper, chainID, decode);
    assert entries[..PaperRounds] == entries;
  }

  /**
   * A non-validator's deliberation asks nothing and returns the zero review,
   * yet still appends three `(false)` lines with an empty summary, which the
   * tailer never broadcasts when the agent's name has no '|' and no newline.
   */
  lemma PaperNonValidator(env: Env, agent: Agent, paper: ResearchPaper, chainID: string,
                          decode: string -> Option<PaperReview>, now: int)
    requires !agent.isValidator
    requires '|' !in agent.name && '\n' !in agent.name
    ensures var path := TranscriptPath(chainID);
            var t0 := ContentOf(env.files, path);
            var (review, after) := PaperDeliberation(env, agent, paper, chainID, decode);
            var appended := FormatRoundLine(0, false, agent.name, "") + "\n"
              + FormatRoundLine(1, false, agent.name, "") + "\n"
              + FormatRoundLine(2, false, agent.name, "") + "\n";
            review == ZeroPaperReview
            && after.script == env.script && after.asked == env.asked
            && after.files == env.files[path := t0 + appended]
            && DiscussionWatcher.ProcessText(appended, now) == []
  {
    var entries := PaperEntries(agent, env.script, decode);
    var z := RoundEntry(false, "");
    assert entries == [z, z, z];
    PaperDeliberationClosedForm(env, agent, paper, chainID, decode);
    RoundLinesOfThree(agent.name, z, z, z);
    DiscussionWatcher.ZeroRoundLinesIgnored(agent.name, entries, 0, now);
  }

  /**
   * Writer and tailer agree: the lines a deliberation appends are broadcast as
   * one vote per round with a non-empty summary, carrying rounds 0, 1, 2 in
   * order, the verdict's approval, the agent's name and the trimmed summary.
   */
  lemma PaperRoundsBroadcast(env: Env, agent: Agent, paper: ResearchPaper, chainID: string,
                             decode: string -> Option<PaperReview>, now: int)
    requires agent.name != [] && '|' !in agent.name && '\n' !in agent.name
    requires forall k :: 0 <= k < PaperRounds ==> '\n' !in PaperVerdict(agent, Response(env.script, k), decode).summary
    ensures var path := TranscriptPath(chainID);
            var t0 := ContentOf(env.files, path);
            var after := PaperDeliberation(env, agent, paper, chainID, decode).1;
            path in after.files && |t0| <= |after.files[path]|
            && DiscussionWatcher.ProcessText(after.files[path][|t0|..], now)
               == DiscussionWatcher.ExpectedVotes(agent.name, PaperEntries(agent, env.script, decode), 0, now)
  {
    var path := TranscriptPath(chainID);
    var t0 := ContentOf(env.files, path);
    var entries := PaperEntries(agent, env.script, decode);
    var text := RoundLines(agent.name, entries, 0);
    PaperDeliberationClosedForm(env, agent, paper, chainID, decode);
    assert (t0 + text)[|t0|..] == text;
    DiscussionWatcher.RoundLinesRoundTrip(agent.name, entries, 0, now);
  }
}
