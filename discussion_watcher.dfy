/**
 * communication/discussion_watcher.go: the transcript tailer. A hand-written
 * matcher for the line grammar
 *     \[Round (\d+)\] \((true|false)\) \|@([^|]+)\|: (.+)$
 * (unanchored at the start, as FindStringSubmatch searches), the vote built
 * from a match, and the replay-then-tail state machine over the file's length.
 * The broadcast callback is modelled by the sequence of votes it has received.
 */
module DiscussionWatcher {
  import opened Wrappers
  import opened Text
  import opened RoundLog
  import opened TranscriptStore

  /** The four capture groups of a match. */
  datatype Groups = Groups(round: string, approval: string, name: string, message: string)

  /** The vote broadcast for a matched line. */
  datatype AgentVote = AgentVote(
    validatorID: string,
    validatorName: string,
    message: string,
    timestamp: int,
    round: int,
    approval: bool)

  /** The longest prefix of `s` without '|': what the greedy `[^|]+` can take. */
  function UpToPipe(s: string): (n: string)
    ensures |n| <= |s| && n == s[..|n|] && '|' !in n
    ensures |n| < |s| ==> s[|n|] == '|'
  {
    if |s| > 0 && s[0] != '|' then [s[0]] + UpToPipe(s[1..]) else []
  }

  lemma {:induction false} UpToPipeOf(n: string, rest: string)
    requires '|' !in n
    requires |rest| > 0 && rest[0] == '|'
    ensures UpToPipe(n + rest) == n
  {
    if n != [] {
      assert (n + rest)[0] == n[0] && (n + rest)[1..] == n[1..] + rest;
      UpToPipeOf(n[1..], rest);
      assert [n[0]] + n[1..] == n;
    }
  }

  /*
   * The grammar matched at the very start of `s`, one stage per piece of the
   * pattern. Each group has only one possible extent: `\d+` stops where "]"
   * follows, `[^|]+` at the first '|', and `(.+)$` takes the rest of the text,
   * which must be non-empty and free of newlines.
   */

  function MatchHere(s: string): Option<Groups> {
    if HasPrefix(s, "[Round ") then MatchRound(s[7..]) else None
  }

  function MatchRound(a: string): Option<Groups> {
    var digits := DigitPrefix(a);
    if digits == [] then None else MatchBracket(digits, a[|digits|..])
  }

  function MatchBracket(digits: string, b: string): Option<Groups> {
    if HasPrefix(b, "] (") then MatchApproval(digits, b[3..]) else None
  }

  function MatchApproval(digits: string, c: string): Option<Groups> {
    if HasPrefix(c, "true") then MatchParen(digits, "true", c[4..])
    else if HasPrefix(c, "false") then MatchParen(digits, "false", c[5..])
    else None
  }

  function MatchParen(digits: string, approval: string, d: string): Option<Groups> {
    if HasPrefix(d, ") |@") then MatchName(digits, approval, d[4..]) else None
  }

  function MatchName(digits: string, approval: string, e: string): Option<Groups> {
    var name := UpToPipe(e);
    if name == [] then None else MatchMessage(digits, approval, name, e[|name|..])
  }

  function MatchMessage(digits: string, approval: string, name: string, f: string): Option<Groups> {
    if HasPrefix(f, "|: ") && |f| > 3 && '\n' !in f[3..] then Some(Groups(digits, approval, name, f[3..]))
    else None
  }

  /** The leftmost match: the first start position at which the grammar matches. */
  function FindMatch(s: string): Option<Groups>
    decreases |s|
  {
    match MatchHere(s)
    case Some(g) => Some(g)
    case None => if s == [] then None else FindMatch(s[1..])
  }

  /** roundRegex.FindStringSubmatch(line), keeping the groups of a match. */
  function ParseLine(line: string): Option<Groups> {
    FindMatch(line)
  }

  /** parseInt: the value fmt.Sscanf(s, "%d") scans, or 0 when the scan fails. */
  function ParseInt(s: string): (v: int)
    ensures |s| > 0 && AllDigits(s) && DecimalValue(s) <= MaxInt64 ==> v == DecimalValue(s)
    ensures |s| > 0 && AllDigits(s) && DecimalValue(s) > MaxInt64 ==> v == 0
  {
    ScanOfDigits(s);
    ScanInt(s).GetOr(0)
  }

  lemma ScanOfDigits(s: string)
    ensures |s| > 0 && AllDigits(s) && DecimalValue(s) <= MaxInt64 ==> ScanInt(s) == Some(DecimalValue(s))
    ensures |s| > 0 && AllDigits(s) && DecimalValue(s) > MaxInt64 ==> ScanInt(s) == None
  {
    if |s| > 0 && AllDigits(s) {
      assert SplitSign(s) == (false, s);
      DigitPrefixOfDigits(s, []);
      assert s + [] == s;
    }
  }

  /** processLine: the vote broadcast for `line`, if it matches; `now` is the clock value. */
  function ProcessLine(line: string, now: int): Option<AgentVote> {
    match ParseLine(line)
    case None => None
    case Some(g) =>
      Some(AgentVote(g.name, g.name, TrimSpace(g.message), now, ParseInt(g.round), g.approval == "true"))
  }

  /** What processLine broadcasts for one line of a split; empty lines are skipped. */
  function LineVote(line: string, now: int): seq<AgentVote> {
    if line == "" then []
    else match ProcessLine(line, now) case Some(v) => [v] case None => []
  }

  function LineVotes(now: int): string -> seq<AgentVote> {
    line => LineVote(line, now)
  }

  /** The outputs of `f` for each of `lines`, in order. */
  function Collect(lines: seq<string>, f: string -> seq<AgentVote>): seq<AgentVote> {
    if lines == [] then [] else Collect(lines[..|lines| - 1], f) + f(lines[|lines| - 1])
  }

  /** The votes broadcast for a chunk of file content: split at newlines, each line processed. */
  function ProcessText(text: string, now: int): seq<AgentVote> {
    Collect(Split(text, '\n'), LineVotes(now))
  }

  // ------------------------------------------------------------ the tailer

  /**
   * The file the tailer watches, as written: a constant path, whatever the
   * chain. The corrected path is WatchedPath, which the model uses.
   */
  function WatchedPathAsWritten(chainID: string): string {
    "data/discussions/mainnet.txt"
  }

  /** A tailer started for any chain but "mainnet" never reads that chain's transcript. */
  lemma WatchedPathAsWrittenMissesChain()
    ensures WatchedPathAsWritten("testnet") != TranscriptPath("testnet")
  {
    assert WatchedPathAsWritten("testnet")[17] == 'm';
    assert TranscriptPath("testnet")[17] == 't';
  }

  /** The file the tailer of `chainID` watches: that chain's transcript. */
  function WatchedPath(chainID: string): (p: string)
    ensures p == TranscriptPath(chainID)
    ensures chainID == "mainnet" ==> p == WatchedPathAsWritten(chainID)
  {
    TranscriptPath(chainID)
  }

  /** True when `text` ends on a line boundary: every line it holds is complete. */
  predicate EndsOnLineBoundary(text: string) {
    text == [] || text[|text| - 1] == '\n'
  }

  class Tailer {
    const path: string
    var lastSize: nat
    var emitted: seq<AgentVote>

    /**
     * WatchDiscussionFile up to its event loop: create the file if it is missing,
     * replay every line of its content, remember the content's length.
     */
    constructor Watch(chainID: string, store: Store, now: int)
      modifies store
      ensures path == WatchedPath(chainID)
      ensures store.files == old(store.files)[path := ContentOf(old(store.files), path)]
      ensures emitted == ProcessText(ContentOf(old(store.files), path), now)
      ensures lastSize == |ContentOf(old(store.files), path)|
    {
      path := WatchedPath(chainID);
      emitted := [];
      lastSize := 0;
      new;
      if path !in store.files {
        store.files := store.files[path := ""];
      }
      var content := store.files[path];
      Broadcast(content, now);
      lastSize := |content|;
    }

    /**
     * One write event: re-read the file; if it grew, process only the part past
     * `lastSize` and remember the new length. A failed read (the file is gone)
     * or a file that did not grow changes nothing.
     */
    method OnWrite(store: Store, now: int)
      modifies this`lastSize, this`emitted
      ensures path !in store.files || |store.files[path]| <= old(lastSize) ==>
                lastSize == old(lastSize) && emitted == old(emitted)
      ensures path in store.files && |store.files[path]| > old(lastSize) ==>
                lastSize == |store.files[path]| &&
                emitted == old(emitted) + ProcessText(store.files[path][old(lastSize)..], now)
    {
      if path in store.files {
        var content := store.files[path];
        if |content| > lastSize {
          Broadcast(content[lastSize..], now);
          lastSize := |content|;
        }
      }
    }

    /** Split `text` at newlines and hand every non-empty line to processLine. */
    method Broadcast(text: string, now: int)
      modifies this`emitted
      ensures emitted == old(emitted) + ProcessText(text, now)
    {
      var lines := Split(text, '\n');
      var i := 0;
      while i < |lines|
        invariant 0 <= i <= |lines|
        invariant emitted == old(emitted) + Collect(lines[..i], LineVotes(now))
      {
        BroadcastLine(lines[i], now);
        CollectStep(lines, i, now);
        i := i + 1;
      }
      assert lines[..i] == lines;
    }

    /** The loop body of Broadcast: an empty line is skipped, a matching one broadcast. */
    method BroadcastLine(line: string, now: int)
      modifies this`emitted
      ensures emitted == old(emitted) + LineVote(line, now)
    {
      if line != "" {
        var vote := ProcessLine(line, now);
        if vote.Some? {
          emitted := emitted + [vote.value];
        }
      }
    }
  }

  /** One more line of a split adds that line's votes. */
  lemma CollectStep(lines: seq<string>, i: nat, now: int)
    requires i < |lines|
    ensures Collect(lines[..i + 1], LineVotes(now)) == Collect(lines[..i], LineVotes(now)) + LineVote(lines[i], now)
  {
    assert lines[..i + 1][..i] == lines[..i];
  }

  /** The text AppendDiscussionLog adds for each of `lines`, in order. */
  function Appended(lines: seq<string>): string {
    if lines == [] then "" else Appended(lines[..|lines| - 1]) + (lines[|lines| - 1] + "\n")
  }

  /** What OnWrite emits when the lines are appended one at a time, with a write event after each. */
  function TailVotes(lines: seq<string>, now: int): seq<AgentVote> {
    if lines == [] then [] else TailVotes(lines[..|lines| - 1], now) + ProcessText(lines[|lines| - 1] + "\n", now)
  }

  /**
   * Replay, then tailing line by line, emits exactly the votes of processing
   * the final file once, provided the file started on a line boundary.
   */
  lemma {:induction false} TailingMatchesReplay(initial: string, lines: seq<string>, now: int)
    requires EndsOnLineBoundary(initial)
    ensures EndsOnLineBoundary(initial + Appended(lines))
    ensures ProcessText(initial, now) + TailVotes(lines, now) == ProcessText(initial + Appended(lines), now)
  {
    if lines == [] {
      assert initial + Appended(lines) == initial;
    } else {
      var init := lines[..|lines| - 1];
      var line := lines[|lines| - 1] + "\n";
      var before := initial + Appended(init);
      TailingMatchesReplay(initial, init, now);
      assert Appended(lines) == Appended(init) + line;
      AppendAssoc(initial, Appended(init), line);
      AppendAssoc(ProcessText(initial, now), TailVotes(init, now), ProcessText(line, now));
      ReplayThenTail(before, line, now);
    }
  }

  // ---------------------------------------------------------- properties

  lemma {:induction false} CollectAppend(x: seq<string>, y: seq<string>, f: string -> seq<AgentVote>)
    ensures Collect(x + y, f) == Collect(x, f) + Collect(y, f)
  {
    if y == [] {
      assert x + y == x;
    } else {
      var y' := y[..|y| - 1];
      assert (x + y)[..|x + y| - 1] == x + y';
      assert (x + y)[|x + y| - 1] == y[|y| - 1];
      CollectAppend(x, y', f);
    }
  }

  /** Splitting `seen + appended` where `seen` ends on a line boundary processes the two parts apart. */
  lemma CollectSplitAtBoundary(seen: string, appended: string, f: string -> seq<AgentVote>)
    requires EndsOnLineBoundary(seen)
    requires f("") == []
    ensures Collect(Split(seen, '\n'), f) + Collect(Split(appended, '\n'), f)
         == Collect(Split(seen + appended, '\n'), f)
  {
    assert Split([], '\n') == [""];
    assert Collect([""], f) == Collect([], f) + f("");
    if seen == [] {
      assert seen + appended == appended;
    } else {
      var body := seen[..|seen| - 1];
      assert seen == body + ['\n'] + [];
      assert seen + appended == body + ['\n'] + appended;
      SplitAtSeparator(body, '\n', []);
      SplitAtSeparator(body, '\n', appended);
      CollectAppend(Split(body, '\n'), [""], f);
      CollectAppend(Split(body, '\n'), Split(appended, '\n'), f);
    }
  }

  /**
   * Replay, then incremental tailing: when the content already processed ends
   * on a line boundary, processing it and then the appended part emits the same
   * votes, in the same order, as processing the whole file once.
   */
  lemma ReplayThenTail(seen: string, appended: string, now: int)
    requires EndsOnLineBoundary(seen)
    ensures ProcessText(seen, now) + ProcessText(appended, now) == ProcessText(seen + appended, now)
  {
    assert LineVotes(now)("") == [];
    CollectSplitAtBoundary(seen, appended, LineVotes(now));
  }

  /** processLine broadcasts at most once per line, and only for a matching line. */
  lemma ProcessLineMatches(line: string, now: int)
    ensures ProcessLine(line, now).Some? <==> ParseLine(line).Some?
    ensures ProcessLine(line, now).Some? ==>
              var g := ParseLine(line).value;
              var v := ProcessLine(line, now).value;
              v.validatorID == g.name && v.validatorName == g.name && v.message == TrimSpace(g.message)
              && v.round == ParseInt(g.round) && (v.approval <==> g.approval == "true") && v.timestamp == now
  {
  }

  // Each stage of the matcher hands the rest of a line FormatRoundLine wrote to the next stage.

  lemma HereOf(rest: string)
    ensures MatchHere("[Round " + rest) == MatchRound(rest)
  {
    assert ("[Round " + rest)[..7] == "[Round ";
    assert ("[Round " + rest)[7..] == rest;
  }

  lemma RoundOf(digits: string, rest: string)
    requires digits != [] && AllDigits(digits)
    requires |rest| > 0 && !IsDigit(rest[0])
    ensures MatchRound(digits + rest) == MatchBracket(digits, rest)
  {
    DigitPrefixOfDigits(digits, rest);
    assert (digits + rest)[|digits|..] == rest;
  }

  lemma BracketOf(digits: string, rest: string)
    ensures MatchBracket(digits, "] (" + rest) == MatchApproval(digits, rest)
  {
    assert ("] (" + rest)[..3] == "] (";
    assert ("] (" + rest)[3..] == rest;
  }

  lemma ApprovalOf(digits: string, approval: bool, rest: string)
    ensures MatchApproval(digits, BoolToString(approval) + rest) == MatchParen(digits, BoolToString(approval), rest)
  {
    var c := BoolToString(approval) + rest;
    if approval {
      assert c[..4] == "true";
      assert c[4..] == rest;
    } else {
      assert c[0] == 'f';
      assert c[..5] == "false";
      assert c[5..] == rest;
    }
  }

  lemma ParenOf(digits: string, approval: string, rest: string)
    ensures MatchParen(digits, approval, ") |@" + rest) == MatchName(digits, approval, rest)
  {
    assert (") |@" + rest)[..4] == ") |@";
    assert (") |@" + rest)[4..] == rest;
  }

  lemma NameOf(digits: string, approval: string, name: string, rest: string)
    requires name != [] && '|' !in name
    requires |rest| > 0 && rest[0] == '|'
    ensures MatchName(digits, approval, name + rest) == MatchMessage(digits, approval, name, rest)
  {
    UpToPipeOf(name, rest);
    assert (name + rest)[|name|..] == rest;
  }

  lemma MessageOf(digits: string, approval: string, name: string, message: string)
    ensures MatchMessage(digits, approval, name, "|: " + message)
         == if message != [] && '\n' !in message then Some(Groups(digits, approval, name, message)) else None
  {
    assert ("|: " + message)[..3] == "|: ";
    assert ("|: " + message)[3..] == message;
  }

  /**
   * At its own start, a line a review round wrote matches exactly when its
   * summary is non-empty and has no newline, and the groups are what was written.
   */
  lemma MatchHereRoundLine(round: int, approval: bool, name: string, summary: string)
    requires round >= 0
    requires name != [] && '|' !in name
    ensures MatchHere(FormatRoundLine(round, approval, name, summary))
         == if summary != [] && '\n' !in summary
            then Some(Groups(IntToString(round), BoolToString(approval), name, summary))
            else None
  {
    var digits := IntToString(round);
    var b := BoolToString(approval);
    var f := "|: " + summary;
    var e := name + f;
    var d := ") |@" + e;
    var c := b + d;
    var bb := "] (" + c;
    var a := digits + bb;
    assert FormatRoundLine(round, approval, name, summary) == "[Round " + a;
    assert AllDigits(digits);
    HereOf(a);
    RoundOf(digits, bb);
    BracketOf(digits, c);
    ApprovalOf(digits, approval, d);
    ParenOf(digits, b, e);
    NameOf(digits, b, name, f);
    MessageOf(digits, b, name, summary);
  }

  /** A line a review round wrote with a summary on one line parses to exactly what was written. */
  lemma ParseRoundLine(round: int, approval: bool, name: string, summary: string)
    requires round >= 0
    requires name != [] && '|' !in name
    requires summary != [] && '\n' !in summary
    ensures ParseLine(FormatRoundLine(round, approval, name, summary))
         == Some(Groups(IntToString(round), BoolToString(approval), name, summary))
  {
    MatchHereRoundLine(round, approval, name, summary);
  }

  /** Such a line broadcasts the round, approval and name that were written, and the trimmed summary. */
  lemma ProcessRoundLine(round: int, approval: bool, name: string, summary: string, now: int)
    requires 0 <= round <= MaxInt64
    requires name != [] && '|' !in name
    requires summary != [] && '\n' !in summary
    ensures ProcessLine(FormatRoundLine(round, approval, name, summary), now)
         == Some(AgentVote(name, name, TrimSpace(summary), now, round, approval))
  {
    ParseRoundLine(round, approval, name, summary);
    ScanIntOfIntToString(round);
  }

  /** Two '|' of which the second is followed by at least three more characters. */
  ghost predicate ClosablePair(s: string, i: int, j: int) {
    0 <= i < j && j + 3 < |s| && s[i] == '|' && s[j] == '|'
  }

  lemma ShiftPair(s: string, k: nat, i: int, j: int)
    requires k <= |s| && ClosablePair(s[k..], i, j)
    ensures ClosablePair(s, i + k, j + k)
  {
    assert s[k..][i] == s[i + k] && s[k..][j] == s[j + k];
  }

  /** A match of `\) \|@([^|]+)\|: (.+)` holds the '|' after "@" and the one closing the name. */
  lemma ParenPipes(digits: string, approval: string, d: string)
    requires MatchParen(digits, approval, d).Some?
    ensures ClosablePair(d, 2, 4 + |UpToPipe(d[4..])|)
  {
    var e := d[4..];
    var name := UpToPipe(e);
    var f := e[|name|..];
    assert d[..4] == ") |@";
    assert d[2] == d[..4][2];
    assert MatchName(digits, approval, e).Some?;
    assert MatchMessage(digits, approval, name, f).Some?;
    assert f[..3] == "|: ";
    assert d[4 + |name|] == e[|name|] == f[0] == f[..3][0];
  }

  /** Every match needs two such '|'. */
  lemma MatchHerePipes(s: string)
    requires MatchHere(s).Some?
    ensures exists i, j :: ClosablePair(s, i, j)
  {
    var a := s[7..];
    var digits := DigitPrefix(a);
    var b := a[|digits|..];
    var c := b[3..];
    var approval := if HasPrefix(c, "true") then "true" else "false";
    var d := c[|approval|..];
    var k := 7 + |digits| + 3 + |approval|;
    assert s[k..] == d;
    ParenPipes(digits, approval, d);
    ShiftPair(s, k, 2, 4 + |UpToPipe(d[4..])|);
  }

  lemma {:induction false} FindMatchNeedsPipes(s: string)
    requires forall i, j :: !ClosablePair(s, i, j)
    ensures FindMatch(s) == None
    decreases |s|
  {
    if MatchHere(s).Some? {
      MatchHerePipes(s);
    }
    if s != [] {
      var t := s[1..];
      forall i, j ensures !ClosablePair(t, i, j) {
        if 0 <= i < j < |t| {
          assert t[i] == s[i + 1] && t[j] == s[j + 1];
        }
        assert !ClosablePair(s, i + 1, j + 1);
      }
      FindMatchNeedsPipes(t);
    }
  }

  /**
   * The line a zero-value verdict produces, `... |@Name|: ` with an empty
   * summary, matches nowhere when the name has no '|', so it is never
   * broadcast (PipeInNameBroadcastsZeroVerdict shows a name with '|' for
   * which it is).
   */
  lemma ZeroRoundLineIgnored(round: int, approval: bool, name: string, now: int)
    requires round >= 0
    requires '|' !in name
    ensures ParseLine(FormatRoundLine(round, approval, name, "")) == None
    ensures ProcessLine(FormatRoundLine(round, approval, name, ""), now) == None
  {
    var digits := IntToString(round);
    var prefix := "[Round " + digits + "] (" + BoolToString(approval) + ") ";
    var rest := "|@" + name + "|: ";
    var s := FormatRoundLine(round, approval, name, "");
    var q := |prefix|;
    assert s == prefix + rest;
    assert AllDigits(digits);
    assert '|' !in digits;
    assert '|' !in prefix;
    forall k | 0 <= k < q ensures s[k] != '|' {
      assert s[k] == prefix[k];
    }
    assert s[q + 1] == rest[1] == '@';
    forall k | q + 2 <= k < q + 2 + |name| ensures s[k] != '|' {
      assert s[k] == rest[k - q] == name[k - q - 2];
    }
    assert |s| == q + 2 + |name| + 3;
    FindMatchNeedsPipes(s);
  }

  lemma SplitOfLine(line: string)
    requires '\n' !in line
    ensures Split(line + "\n", '\n') == [line, ""]
  {
    assert line + "\n" == line + ['\n'] + [];
    SplitAtSeparator(line, '\n', []);
    SplitWithoutSeparator(line, '\n');
  }

  /** A line without newline, followed by one, is processed as that single line. */
  lemma CollectOfLine(line: string, f: string -> seq<AgentVote>)
    requires '\n' !in line
    requires f("") == []
    ensures Collect(Split(line + "\n", '\n'), f) == f(line)
  {
    SplitOfLine(line);
    assert [line, ""][..1] == [line];
    assert [line][..0] == [];
    assert Collect([line], f) == Collect([], f) + f(line);
    assert Collect([line, ""], f) == Collect([line], f) + f("");
  }

  lemma ProcessTextOfLine(line: string, now: int)
    requires '\n' !in line
    ensures ProcessText(line + "\n", now) == LineVote(line, now)
  {
    assert LineVotes(now)("") == [];
    CollectOfLine(line, LineVotes(now));
  }

  lemma RoundLineOneLine(round: int, approval: bool, name: string, summary: string)
    requires round >= 0
    requires '\n' !in name && '\n' !in summary
    ensures '\n' !in FormatRoundLine(round, approval, name, summary)
    ensures FormatRoundLine(round, approval, name, summary) != ""
  {
    assert AllDigits(IntToString(round));
    assert '\n' !in IntToString(round);
    assert FormatRoundLine(round, approval, name, summary)[0] == '[';
  }

  /** What the tailer broadcasts for the lines a run of review rounds appended. */
  function ExpectedVotes(name: string, entries: seq<RoundEntry>, first: int, now: int): seq<AgentVote> {
    if entries == [] then []
    else
      var e := entries[|entries| - 1];
      ExpectedVotes(name, entries[..|entries| - 1], first, now)
      + (if e.summary == "" then []
         else [AgentVote(name, name, TrimSpace(e.summary), now, first + |entries| - 1, e.approval)])
  }

  /** A complete line appended after complete lines adds that line's votes. */
  lemma ProcessOneMoreLine(earlier: string, line: string, now: int)
    requires EndsOnLineBoundary(earlier)
    requires '\n' !in line
    ensures ProcessText(earlier + (line + "\n"), now) == ProcessText(earlier, now) + LineVote(line, now)
  {
    ReplayThenTail(earlier, line + "\n", now);
    ProcessTextOfLine(line, now);
  }

  /** What the line of one round broadcasts: nothing for an empty summary, else its vote. */
  lemma RoundLineVote(round: int, approval: bool, name: string, summary: string, now: int)
    requires 0 <= round <= MaxInt64
    requires name != [] && '|' !in name
    requires '\n' !in summary
    ensures LineVote(FormatRoundLine(round, approval, name, summary), now)
         == if summary == "" then [] else [AgentVote(name, name, TrimSpace(summary), now, round, approval)]
  {
    assert FormatRoundLine(round, approval, name, summary)[0] == '[';
    if summary == "" {
      ZeroRoundLineIgnored(round, approval, name, now);
    } else {
      ProcessRoundLine(round, approval, name, summary, now);
    }
  }

  /** The line of one more round, appended after complete lines, adds that round's vote if any. */
  lemma RoundLineAppended(earlier: string, round: int, approval: bool, name: string, summary: string, now: int)
    requires EndsOnLineBoundary(earlier)
    requires 0 <= round <= MaxInt64
    requires name != [] && '|' !in name && '\n' !in name
    requires '\n' !in summary
    ensures ProcessText(earlier + (FormatRoundLine(round, approval, name, summary) + "\n"), now)
         == ProcessText(earlier, now)
            + if summary == "" then [] else [AgentVote(name, name, TrimSpace(summary), now, round, approval)]
  {
    RoundLineOneLine(round, approval, name, summary);
    RoundLineVote(round, approval, name, summary, now);
    ProcessOneMoreLine(earlier, FormatRoundLine(round, approval, name, summary), now);
  }

  /**
   * The name conditions of the lemmas above are needed: a zero verdict written
   * for an agent named "a|: z" parses with "a" as the name and "z|: " as the
   * message, and is broadcast.
   */
  lemma PipeInNameBroadcastsZeroVerdict(now: int)
    ensures FormatRoundLine(0, false, "a|: z", "") == FormatRoundLine(0, false, "a", "z|: ")
    ensures ParseLine(FormatRoundLine(0, false, "a|: z", "")) == Some(Groups("0", "false", "a", "z|: "))
    ensures ProcessLine(FormatRoundLine(0, false, "a|: z", ""), now) == Some(AgentVote("a", "a", "z|:", now, 0, false))
  {
    var line := FormatRoundLine(0, false, "a|: z", "");
    assert line == FormatRoundLine(0, false, "a", "z|: ");
    ParseRoundLine(0, false, "a", "z|: ");
    assert IntToString(0) == "0";
    TrimSpaceOfPipeSuffix();
  }

  /** The message the watcher broadcasts for that line, trimmed. */
  lemma TrimSpaceOfPipeSuffix()
    ensures TrimSpace("z|: ") == "z|:"
  {
    var s := "z|: ";
    assert !IsGoSpace(s[0]);
    assert TrimLeft(s, IsGoSpace) == s;
    assert IsGoSpace(s[3]) && s[..3] == "z|:";
    assert TrimRight(s, IsGoSpace) == TrimRight("z|:", IsGoSpace);
    assert !IsGoSpace("z|:"[2]);
  }

  /** The lines of rounds whose verdict is the zero value are never broadcast, for a name without '|' or newline. */
  lemma {:induction false} ZeroRoundLinesIgnored(name: string, entries: seq<RoundEntry>, first: nat, now: int)
    requires '|' !in name && '\n' !in name
    requires forall i :: 0 <= i < |entries| ==> entries[i].summary == ""
    ensures ProcessText(RoundLines(name, entries, first), now) == []
    decreases |entries|
  {
    if entries == [] {
      ProcessTextEmpty(now);
    } else {
      ZeroRoundLinesIgnored(name, entries[..|entries| - 1], first, now);
      ZeroRoundStep(name, entries, first, now);
    }
  }

  /** The induction step of ZeroRoundLinesIgnored. */
  lemma ZeroRoundStep(name: string, entries: seq<RoundEntry>, first: nat, now: int)
    requires entries != []
    requires '|' !in name && '\n' !in name
    requires entries[|entries| - 1].summary == ""
    requires ProcessText(RoundLines(name, entries[..|entries| - 1], first), now) == []
    ensures ProcessText(RoundLines(name, entries, first), now) == []
  {
    var init := entries[..|entries| - 1];
    var e := entries[|entries| - 1];
    var round := first + |entries| - 1;
    var earlier := RoundLines(name, init, first);
    var line := FormatRoundLine(round, e.approval, name, "");
    assert RoundLines(name, entries, first) == earlier + (line + "\n");
    RoundLineOneLine(round, e.approval, name, "");
    ZeroRoundLineIgnored(round, e.approval, name, now);
    RoundLinesShape(name, init, first);
    ProcessOneMoreLine(earlier, line, now);
  }

  lemma ProcessTextEmpty(now: int)
    ensures ProcessText("", now) == []
  {
    assert Split("", '\n') == [""];
    assert [""][..0] == [];
    assert Collect([""], LineVotes(now)) == Collect([], LineVotes(now)) + LineVotes(now)("");
  }

  lemma ExpectedVotesSnoc(name: string, entries: seq<RoundEntry>, first: int, now: int)
    requires entries != []
    ensures ExpectedVotes(name, entries, first, now)
            == ExpectedVotes(name, entries[..|entries| - 1], first, now)
               + (if entries[|entries| - 1].summary == "" then []
                  else [AgentVote(name, name, TrimSpace(entries[|entries| - 1].summary), now, first + |entries| - 1,
                                  entries[|entries| - 1].approval)])
  {
  }

  /**
   * Writer and tailer agree: the text a run of review rounds appends to the
   * transcript is broadcast as one vote per round, in round order, carrying the
   * round index, the approval, the agent's name and the trimmed summary; the
   * rounds with an empty summary (the zero verdict) are skipped.
   */
  lemma {:induction false} RoundLinesRoundTrip(name: string, entries: seq<RoundEntry>, first: nat, now: int)
    requires name != [] && '|' !in name && '\n' !in name
    requires first + |entries| <= MaxInt64
    requires forall i :: 0 <= i < |entries| ==> '\n' !in entries[i].summary
    ensures ProcessText(RoundLines(name, entries, first), now) == ExpectedVotes(name, entries, first, now)
    decreases |entries|
  {
    if entries == [] {
      ProcessTextEmpty(now);
    } else {
      RoundLinesRoundTrip(name, entries[..|entries| - 1], first, now);
      RoundTripStep(name, entries, first, now);
    }
  }

  /** The induction step of RoundLinesRoundTrip: one more round on top of the earlier ones. */
  lemma RoundTripStep(name: string, entries: seq<RoundEntry>, first: nat, now: int)
    requires entries != []
    requires name != [] && '|' !in name && '\n' !in name
    requires first + |entries| <= MaxInt64
    requires '\n' !in entries[|entries| - 1].summary
    requires ProcessText(RoundLines(name, entries[..|entries| - 1], first), now)
          == ExpectedVotes(name, entries[..|entries| - 1], first, now)
    ensures ProcessText(RoundLines(name, entries, first), now) == ExpectedVotes(name, entries, first, now)
  {
    var init := entries[..|entries| - 1];
    var e := entries[|entries| - 1];
    var round := first + |init|;
    var vote := if e.summary == "" then [] else [AgentVote(name, name, TrimSpace(e.summary), now, round, e.approval)];
    var earlier := RoundLines(name, init, first);
    var line := FormatRoundLine(round, e.approval, name, e.summary);
    assert RoundLines(name, entries, first) == earlier + (line + "\n") by {
      assert round == first + |entries| - 1;
    }
    assert ProcessText(earlier + (line + "\n"), now) == ProcessText(earlier, now) + vote by {
      RoundLinesShape(name, init, first);
      RoundLineAppended(earlier, round, e.approval, name, e.summary, now);
    }
    assert ExpectedVotes(name, entries, first, now) == ExpectedVotes(name, init, first, now) + vote by {
      ExpectedVotesSnoc(name, entries, first, now);
    }
  }
}
