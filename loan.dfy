/**
 * ai/loan.go: the four-round loan deliberation. Each round reads the chain's
 * transcript, asks the banker, and appends one round line; a fifth, unlogged
 * call gives the verdict returned. LoanRound and LoanDeliberation
 * state the effect of one round and of the whole deliberation on the files,
 * the oracle's script and the prompts asked; the methods are proved against
 * them, and the lemmas below state what that effect guarantees in closed form.
 */
module LoanReviewing {
  import opened Wrappers
  import opened Text
  import opened Core
  import opened AiTypes
  import opened Oracle
  import opened RoundLog
  import opened TranscriptStore
  import DiscussionWatcher

  /** The number of logged rounds. */
  const LoanRounds: nat := 4

  /** What GetLoanReview returns when the model answers `response`. */
  function LoanVerdict(agent: Agent, response: string, decode: string -> Option<LoanReview>): LoanReview {
    if agent.isValidator then decode(response).GetOr(ZeroLoanReview) else ZeroLoanReview
  }

  /** The oracle calls `rounds` calls of GetLoanReview make: one each for a validator, none otherwise. */
  function Calls(agent: Agent, rounds: nat): nat {
    if agent.isValidator then rounds else 0
  }

  /** The prompt GetLoanReview records: the one asked, if the agent is a validator. */
  function Asks(agent: Agent, prompt: Prompt): seq<Prompt> {
    if agent.isValidator then [prompt] else []
  }

  /** One logged round: read the transcript, ask about the loan request, append the round line. */
  function LoanRound(s: Env, agent: Agent, loan: string, chainID: string,
                      decode: string -> Option<LoanReview>, round: int): Env
  {
    var path := TranscriptPath(chainID);
    var seen := ContentOf(s.files, path);
    var v := LoanVerdict(agent, Response(s.script, 0), decode);
    Env(s.files[path := seen + FormatRoundLine(round, v.approval, agent.name, v.summary) + "\n"],
        Drop(s.script, Calls(agent, 1)),
        s.asked + Asks(agent, LoanPrompt(agent, loan, seen)))
  }

  /** The state after rounds 0 .. n-1. */
  function LoanRoundsFrom(env: Env, agent: Agent, loan: string, chainID: string,
                           decode: string -> Option<LoanReview>, n: nat): Env
  {
    if n == 0 then env
    else LoanRound(LoanRoundsFrom(env, agent, loan, chainID, decode, n - 1), agent, loan, chainID, decode, n - 1)
  }

  /** GetMultiRoundLoanReview: the logged rounds, then one more read and the verdict call. */
  function LoanDeliberation(env: Env, agent: Agent, loan: string, chainID: string,
                             decode: string -> Option<LoanReview>): (LoanReview, Env)
  {
    var s := LoanRoundsFrom(env, agent, loan, chainID, decode, LoanRounds);
    var path := TranscriptPath(chainID);
    var seen := ContentOf(s.files, path);
    (LoanVerdict(agent, Response(s.script, 0), decode),
     Env(s.files[path := seen], Drop(s.script, Calls(agent, 1)), s.asked + Asks(agent, LoanPrompt(agent, loan, seen))))
  }

  /**
   * GetLoanReview: a non-validator gets the zero review without a call;
   * otherwise one call, and the decoded reply or the zero review when it does not parse.
   */
  method GetLoanReview(agent: Agent, loan: string, previous: string, llm: Llm,
                        decode: string -> Option<LoanReview>) returns (review: LoanReview)
    modifies llm
    ensures review == LoanVerdict(agent, Response(old(llm.script), 0), decode)
    ensures llm.script == Drop(old(llm.script), Calls(agent, 1))
    ensures llm.asked == old(llm.asked) + Asks(agent, LoanPrompt(agent, loan, previous))
  {
    if !agent.isValidator {
      return ZeroLoanReview;
    }
    var response := llm.Generate(LoanPrompt(agent, loan, previous));
    match decode(response)
    case None =>
      review := ZeroLoanReview;
    case Some(r) =>
      review := r;
  }

  /** GetMultiRoundLoanReview: four logged rounds, then the unlogged verdict. */
  method GetMultiRoundLoanReview(agent: Agent, loan: string, chainID: string, store: Store, llm: Llm,
                             decode: string -> Option<LoanReview>) returns (review: LoanReview)
    modifies store, llm
    ensures (review, Env(store.files, llm.script, llm.asked))
         == LoanDeliberation(Env(old(store.files), old(llm.script), old(llm.asked)), agent, loan, chainID, decode)
  {
    ghost var env := Env(store.files, llm.script, llm.asked);
    ghost var path := TranscriptPath(chainID);
    var round := 0;
    while round < 4
      invariant 0 <= round <= 4
      invariant Env(store.files, llm.script, llm.asked) == LoanRoundsFrom(env, agent, loan, chainID, decode, round)
    {
      ghost var before := store.files;
      var previous := store.GetDiscussionLog(chainID);
      var r := GetLoanReview(agent, loan, previous, llm, decode);
      var msg := FormatRoundLine(round, r.approval, agent.name, r.summary);
      store.AppendDiscussionLog(chainID, msg);
      OverwriteFile(before, path, previous, previous + msg + "\n");
      round := round + 1;
    }
    var previous := store.GetDiscussionLog(chainID);
    review := GetLoanReview(agent, loan, previous, llm, decode);
  }

  // ------------------------------------------------------ the closed form

  /** The verdicts of `n` successive GetLoanReview calls answered from `script`. */
  function LoanVerdicts(agent: Agent, script: seq<string>, decode: string -> Option<LoanReview>, n: nat): (v: seq<LoanReview>)
    ensures |v| == n
    ensures forall k :: 0 <= k < n ==> v[k] == LoanVerdict(agent, Response(script, k), decode)
  {
    if n == 0 then [] else LoanVerdicts(agent, script, decode, n - 1) + [LoanVerdict(agent, Response(script, n - 1), decode)]
  }

  /** What the verdicts contribute to their round lines. */
  function Entries(verdicts: seq<LoanReview>): (entries: seq<RoundEntry>)
    ensures |entries| == |verdicts|
    ensures forall i :: 0 <= i < |verdicts| ==> entries[i] == RoundEntry(verdicts[i].approval, verdicts[i].summary)
  {
    if verdicts == [] then []
    else
      var last := verdicts[|verdicts| - 1];
      Entries(verdicts[..|verdicts| - 1]) + [RoundEntry(last.approval, last.summary)]
  }

  /** The round entries a deliberation starting from `script` writes. */
  function LoanEntries(agent: Agent, script: seq<string>, decode: string -> Option<LoanReview>): (entries: seq<RoundEntry>)
    ensures |entries| == LoanRounds
  {
    Entries(LoanVerdicts(agent, script, decode, LoanRounds))
  }

  /** The prompts of the first `n` calls: call r shows the transcript `t0` plus the lines of rounds 0..r-1. */
  function LoanPrompts(agent: Agent, loan: string, t0: string, entries: seq<RoundEntry>, n: nat): (prompts: seq<Prompt>)
    requires n <= |entries| + 1
    ensures |prompts| == n
  {
    if n == 0 then []
    else LoanPrompts(agent, loan, t0, entries, n - 1) + [LoanPrompt(agent, loan, t0 + RoundLines(agent.name, entries[..n - 1], 0))]
  }

  /** The state after rounds 0 .. n-1, in closed form. */
  function LoanRoundsClosed(env: Env, agent: Agent, loan: string, chainID: string,
                             decode: string -> Option<LoanReview>, n: nat): Env
    requires n <= LoanRounds
  {
    var path := TranscriptPath(chainID);
    var entries := LoanEntries(agent, env.script, decode);
    Env(ClosedFiles(env.files, path, agent.name, entries, n),
        Drop(env.script, Calls(agent, n)),
        env.asked + LoanPrompts(agent, loan, ContentOf(env.files, path), entries, Calls(agent, n)))
  }

  /** Round k is answered by the k-th scripted response, whether or not earlier rounds called. */
  lemma RoundVerdict(agent: Agent, script: seq<string>, decode: string -> Option<LoanReview>, k: nat)
    requires k < LoanRounds
    ensures LoanVerdict(agent, Response(Drop(script, Calls(agent, k)), 0), decode)
         == LoanVerdict(agent, Response(script, k), decode)
    ensures LoanEntries(agent, script, decode)[k]
         == RoundEntry(LoanVerdict(agent, Response(script, k), decode).approval,
                       LoanVerdict(agent, Response(script, k), decode).summary)
  {
    ResponseAfterDrop(script, Calls(agent, k), 0);
  }

  /** One more GetLoanReview call extends the prompts asked by the one showing the earlier rounds' lines. */
  lemma PromptsStep(asked: seq<Prompt>, agent: Agent, loan: string, t0: string, entries: seq<RoundEntry>, n: nat)
    requires n <= |entries|
    ensures asked + LoanPrompts(agent, loan, t0, entries, Calls(agent, n))
                  + Asks(agent, LoanPrompt(agent, loan, t0 + RoundLines(agent.name, entries[..n], 0)))
         == asked + LoanPrompts(agent, loan, t0, entries, Calls(agent, n + 1))
  {
    if agent.isValidator {
      AppendAssoc(asked, LoanPrompts(agent, loan, t0, entries, n),
                  [LoanPrompt(agent, loan, t0 + RoundLines(agent.name, entries[..n], 0))]);
    }
  }

  /** One more round takes the closed form for n rounds to the closed form for n + 1. */
  lemma ClosedRoundStep(env: Env, agent: Agent, loan: string, chainID: string,
                        decode: string -> Option<LoanReview>, n: nat)
    requires n < LoanRounds
    ensures LoanRound(LoanRoundsClosed(env, agent, loan, chainID, decode, n), agent, loan, chainID, decode, n)
         == LoanRoundsClosed(env, agent, loan, chainID, decode, n + 1)
  {
    var path := TranscriptPath(chainID);
    var t0 := ContentOf(env.files, path);
    var entries := LoanEntries(agent, env.script, decode);
    var v := LoanVerdict(agent, Response(env.script, n), decode);
    ClosedFilesContent(env.files, path, agent.name, entries, n);
    RoundVerdict(agent, env.script, decode, n);
    ClosedFilesStep(env.files, path, agent.name, entries, n, v.approval, v.summary);
    DropDrop(env.script, Calls(agent, n), Calls(agent, 1));
    PromptsStep(env.asked, agent, loan, t0, entries, n);
  }

  /** The rounds, step by step, agree with the closed form. */
  lemma {:induction false} LoanRoundsClosedForm(env: Env, agent: Agent, loan: string, chainID: string,
                                                 decode: string -> Option<LoanReview>, n: nat)
    requires n <= LoanRounds
    ensures LoanRoundsFrom(env, agent, loan, chainID, decode, n) == LoanRoundsClosed(env, agent, loan, chainID, decode, n)
  {
    if n > 0 {
      LoanRoundsClosedForm(env, agent, loan, chainID, decode, n - 1);
      ClosedRoundStep(env, agent, loan, chainID, decode, n - 1);
    }
  }

  /**
   * The whole deliberation in closed form: the transcript gains the four
   * round lines, the script loses the calls made, the prompts asked are the
   * ones LoanPrompts lists, and the verdict answers the call after the rounds.
   */
  lemma LoanDeliberationClosedForm(env: Env, agent: Agent, loan: string, chainID: string,
                                    decode: string -> Option<LoanReview>)
    ensures var path := TranscriptPath(chainID);
            var t0 := ContentOf(env.files, path);
            var entries := LoanEntries(agent, env.script, decode);
            LoanDeliberation(env, agent, loan, chainID, decode)
            == (LoanVerdict(agent, Response(env.script, Calls(agent, LoanRounds)), decode),
                Env(env.files[path := t0 + RoundLines(agent.name, entries, 0)],
                    Drop(env.script, Calls(agent, LoanRounds + 1)),
                    env.asked + LoanPrompts(agent, loan, t0, entries, Calls(agent, LoanRounds + 1))))
  {
    var path := TranscriptPath(chainID);
    var t0 := ContentOf(env.files, path);
    var entries := LoanEntries(agent, env.script, decode);
    var final := t0 + RoundLines(agent.name, entries, 0);
    LoanRoundsClosedForm(env, agent, loan, chainID, decode, LoanRounds);
    ClosedFilesContent(env.files, path, agent.name, entries, LoanRounds);
    assert entries[..LoanRounds] == entries;
    OverwriteFile(env.files, path, final, final);
    ResponseAfterDrop(env.script, Calls(agent, LoanRounds), 0);
    DropDrop(env.script, Calls(agent, LoanRounds), Calls(agent, 1));
    PromptsStep(env.asked, agent, loan, t0, entries, LoanRounds);
  }

  // ---------------------------------------------------------- properties

  /** The transcript after a deliberation: what it held, then the lines of rounds 0, 1, 2 and 3, in that order. */
  lemma LoanTranscript(env: Env, agent: Agent, loan: string, chainID: string, decode: string -> Option<LoanReview>)
    ensures var path := TranscriptPath(chainID);
            var v0 := LoanVerdict(agent, Response(env.script, 0), decode);
            var v1 := LoanVerdict(agent, Response(env.script, 1), decode);
            var v2 := LoanVerdict(agent, Response(env.script, 2), decode);
            var v3 := LoanVerdict(agent, Response(env.script, 3), decode);
            var after := LoanDeliberation(env, agent, loan, chainID, decode).1;
            after.files == env.files[path := ContentOf(env.files, path)
              + (FormatRoundLine(0, v0.approval, agent.name, v0.summary) + "\n"
                 + FormatRoundLine(1, v1.approval, agent.name, v1.summary) + "\n"
                 + FormatRoundLine(2, v2.approval, agent.name, v2.summary) + "\n"
                 + FormatRoundLine(3, v3.approval, agent.name, v3.summary) + "\n")]
  {
    LoanDeliberationClosedForm(env, agent, loan, chainID, decode);
    LoanEntryLines(agent, env.script, decode);
  }

  /** The round lines of the entries: one per round, in round order, each with its verdict. */
  lemma LoanEntryLines(agent: Agent, script: seq<string>, decode: string -> Option<LoanReview>)
    ensures var v0 := LoanVerdict(agent, Response(script, 0), decode);
            var v1 := LoanVerdict(agent, Response(script, 1), decode);
            var v2 := LoanVerdict(agent, Response(script, 2), decode);
            var v3 := LoanVerdict(agent, Response(script, 3), decode);
            RoundLines(agent.name, LoanEntries(agent, script, decode), 0)
            == FormatRoundLine(0, v0.approval, agent.name, v0.summary) + "\n"
               + FormatRoundLine(1, v1.approval, agent.name, v1.summary) + "\n"
               + FormatRoundLine(2, v2.approval, agent.name, v2.summary) + "\n"
               + FormatRoundLine(3, v3.approval, agent.name, v3.summary) + "\n"
  {
    var entries := LoanEntries(agent, script, decode);
    RoundVerdict(agent, script, decode, 0);
    RoundVerdict(agent, script, decode, 1);
    RoundVerdict(agent, script, decode, 2);
    RoundVerdict(agent, script, decode, 3);
    var v0 := LoanVerdict(agent, Response(script, 0), decode);
    var v1 := LoanVerdict(agent, Response(script, 1), decode);
    var v2 := LoanVerdict(agent, Response(script, 2), decode);
    var v3 := LoanVerdict(agent, Response(script, 3), decode);
    var e0, e1 := RoundEntry(v0.approval, v0.summary), RoundEntry(v1.approval, v1.summary);
    var e2, e3 := RoundEntry(v2.approval, v2.summary), RoundEntry(v3.approval, v3.summary);
    assert entries == [e0, e1, e2, e3];
    RoundLinesOfFour(agent.name, e0, e1, e2, e3);
  }

  /**
   * A validator's deliberation asks five times, round r's prompt showing the
   * transcript as it was plus the lines of rounds 0..r-1 (LoanPrompts); the
   * final prompt shows the transcript the deliberation leaves, so its own
   * verdict is never appended. The verdict decodes the fifth response, and
   * five responses are used up.
   */
  lemma LoanValidatorDeliberation(env: Env, agent: Agent, loan: string, chainID: string,
                                   decode: string -> Option<LoanReview>)
    requires agent.isValidator
    ensures var path := TranscriptPath(chainID);
            var t0 := ContentOf(env.files, path);
            var entries := LoanEntries(agent, env.script, decode);
            var (review, after) := LoanDeliberation(env, agent, loan, chainID, decode);
            review == decode(Response(env.script, LoanRounds)).GetOr(ZeroLoanReview)
            && after.script == Drop(env.script, LoanRounds + 1)
            && after.asked == env.asked + LoanPrompts(agent, loan, t0, entries, LoanRounds + 1)
            && |after.asked| == |env.asked| + LoanRounds + 1
            && after.asked[|env.asked| + LoanRounds] == LoanPrompt(agent, loan, after.files[path])
  {
    var path := TranscriptPath(chainID);
    var entries := LoanEntries(agent, env.script, decode);
    LoanDeliberationClosedForm(env, agent, loan, chainID, decode);
    assert entries[..LoanRounds] == entries;
  }

  /**
   * A non-validator's deliberation asks nothing and returns the zero review,
   * yet still appends four `(false)` lines with an empty summary, which the
   * tailer never broadcasts when the agent's name has no '|' and no newline.
   */
  lemma LoanNonValidator(env: Env, agent: Agent, loan: string, chainID: string,
                          decode: string -> Option<LoanReview>, now: int)
    requires !agent.isValidator
    requires '|' !in agent.name && '\n' !in agent.name
    ensures var path := TranscriptPath(chainID);
            var t0 := ContentOf(env.files, path);
            var (review, after) := LoanDeliberation(env, agent, loan, chainID, decode);
            var appended := FormatRoundLine(0, false, agent.name, "") + "\n"
              + FormatRoundLine(1, false, agent.name, "") + "\n"
              + FormatRoundLine(2, false, agent.name, "") + "\n"
              + FormatRoundLine(3, false, agent.name, "") + "\n";
            review == ZeroLoanReview
            && after.script == env.script && after.asked == env.asked
            && after.files == env.files[path := t0 + appended]
            && DiscussionWatcher.ProcessText(appended, now) == []
  {
    var entries := LoanEntries(agent, env.script, decode);
    var z := RoundEntry(false, "");
    assert entries == [z, z, z, z];
    LoanDeliberationClosedForm(env, agent, loan, chainID, decode);
    RoundLinesOfFour(agent.name, z, z, z, z);
    DiscussionWatcher.ZeroRoundLinesIgnored(agent.name, entries, 0, now);
  }

  /**
   * Writer and tailer agree: the lines a deliberation appends are broadcast as
   * one vote per round with a non-empty summary, carrying rounds 0 to 3 in
   * order, the verdict's approval, the agent's name and the trimmed summary.
   */
  lemma LoanRoundsBroadcast(env: Env, agent: Agent, loan: string, chainID: string,
                             decode: string -> Option<LoanReview>, now: int)
    requires agent.name != [] && '|' !in agent.name && '\n' !in agent.name
    requires forall k :: 0 <= k < LoanRounds ==> '\n' !in LoanVerdict(agent, Response(env.script, k), decode).summary
    ensures var path := TranscriptPath(chainID);
            var t0 := ContentOf(env.files, path);
            var after := LoanDeliberation(env, agent, loan, chainID, decode).1;
            path in after.files && |t0| <= |after.files[path]|
            && DiscussionWatcher.ProcessText(after.files[path][|t0|..], now)
               == DiscussionWatcher.ExpectedVotes(agent.name, LoanEntries(agent, env.script, decode), 0, now)
  {
    var path := TranscriptPath(chainID);
    var t0 := ContentOf(env.files, path);
    var entries := LoanEntries(agent, env.script, decode);
    var text := RoundLines(agent.name, entries, 0);
    LoanDeliberationClosedForm(env, agent, loan, chainID, decode);
    assert (t0 + text)[|t0|..] == text;
    DiscussionWatcher.RoundLinesRoundTrip(agent.name, entries, 0, now);
  }
}
