/**
 * The transcript line the multi-round reviews write (ai/paper_review.go and
 * ai/loan.go share one format) and the text a run of rounds appends.
 */
module RoundLog {
  import opened Text
  import opened TranscriptStore

  /** What one round contributes to the transcript: the verdict's disposition and summary. */
  datatype RoundEntry = RoundEntry(approval: bool, summary: string)

  /** fmt.Sprintf("[Round %d] (%v) |@%s|: %s", round, approval, name, summary). */
  function FormatRoundLine(round: int, approval: bool, name: string, summary: string): string {
    "[Round " + IntToString(round) + "] (" + BoolToString(approval) + ") |@" + name + "|: " + summary
  }

  /**
   * The text rounds `first`, `first + 1`, ... append, round by round, each line
   * followed by a newline: the last round's line comes last.
   */
  function RoundLines(name: string, entries: seq<RoundEntry>, first: int): string {
    if entries == [] then ""
    else
      var last := entries[|entries| - 1];
      RoundLines(name, entries[..|entries| - 1], first)
      + (FormatRoundLine(first + |entries| - 1, last.approval, name, last.summary) + "\n")
  }

  /** The prefix of entries through round `k` writes the prefix before it, then round k's line. */
  lemma RoundLinesStep(name: string, entries: seq<RoundEntry>, k: nat, first: int, approval: bool, summary: string)
    requires k < |entries| && entries[k] == RoundEntry(approval, summary)
    ensures RoundLines(name, entries[..k + 1], first)
         == RoundLines(name, entries[..k], first) + (FormatRoundLine(first + k, approval, name, summary) + "\n")
  {
    assert entries[..k + 1][..k] == entries[..k];
    assert entries[..k + 1][k] == entries[k];
  }

  /** Appending round k's line to a text ending in the lines of the rounds before it. */
  lemma RoundLinesAppend(t0: string, name: string, entries: seq<RoundEntry>, k: nat, approval: bool, summary: string)
    requires k < |entries| && entries[k] == RoundEntry(approval, summary)
    ensures t0 + RoundLines(name, entries[..k], 0) + FormatRoundLine(k, approval, name, summary) + "\n"
         == t0 + RoundLines(name, entries[..k + 1], 0)
  {
    RoundLinesStep(name, entries, k, 0, approval, summary);
    AppendLine(t0, RoundLines(name, entries[..k], 0), FormatRoundLine(k, approval, name, summary),
               RoundLines(name, entries[..k + 1], 0));
  }

  /** Round lines are empty exactly when there are no rounds, and otherwise end with a newline. */
  lemma RoundLinesShape(name: string, entries: seq<RoundEntry>, first: int)
    ensures RoundLines(name, entries, first) == [] <==> entries == []
    ensures RoundLines(name, entries, first) != [] ==> RoundLines(name, entries, first)[|RoundLines(name, entries, first)| - 1] == '\n'
  {
    if entries != [] {
      var last := entries[|entries| - 1];
      var tail := FormatRoundLine(first + |entries| - 1, last.approval, name, last.summary) + "\n";
      assert tail[|tail| - 1] == '\n';
    }
  }

  /** The files after the first `n` rounds appended their lines to the file at `path`. */
  function ClosedFiles(files: map<string, string>, path: string, name: string, entries: seq<RoundEntry>, n: nat): map<string, string>
    requires n <= |entries|
  {
    if n == 0 then files else files[path := ContentOf(files, path) + RoundLines(name, entries[..n], 0)]
  }

  lemma ClosedFilesContent(files: map<string, string>, path: string, name: string, entries: seq<RoundEntry>, n: nat)
    requires n <= |entries|
    ensures ContentOf(ClosedFiles(files, path, name, entries, n), path) == ContentOf(files, path) + RoundLines(name, entries[..n], 0)
  {
    if n == 0 {
      assert entries[..0] == [];
    }
  }

  /** Appending round n's line to the file takes the files after n rounds to the files after n + 1. */
  lemma ClosedFilesStep(files: map<string, string>, path: string, name: string, entries: seq<RoundEntry>, n: nat,
                        approval: bool, summary: string)
    requires n < |entries| && entries[n] == RoundEntry(approval, summary)
    ensures var f := ClosedFiles(files, path, name, entries, n);
            f[path := ContentOf(f, path) + FormatRoundLine(n, approval, name, summary) + "\n"]
            == ClosedFiles(files, path, name, entries, n + 1)
  {
    var t0 := ContentOf(files, path);
    var f := ClosedFiles(files, path, name, entries, n);
    var next := t0 + RoundLines(name, entries[..n + 1], 0);
    ClosedFilesContent(files, path, name, entries, n);
    RoundLinesAppend(t0, name, entries, n, approval, summary);
    if n > 0 {
      OverwriteFile(files, path, t0 + RoundLines(name, entries[..n], 0), next);
    }
  }

  /** The lines of three rounds numbered from 0, spelled out. */
  lemma RoundLinesOfThree(name: string, a: RoundEntry, b: RoundEntry, c: RoundEntry)
    ensures RoundLines(name, [a, b, c], 0)
         == FormatRoundLine(0, a.approval, name, a.summary) + "\n"
            + FormatRoundLine(1, b.approval, name, b.summary) + "\n"
            + FormatRoundLine(2, c.approval, name, c.summary) + "\n"
  {
    var l0 := FormatRoundLine(0, a.approval, name, a.summary) + "\n";
    var f1 := FormatRoundLine(1, b.approval, name, b.summary);
    var f2 := FormatRoundLine(2, c.approval, name, c.summary);
    assert [a, b, c][..2] == [a, b];
    assert [a, b][..1] == [a];
    assert [a][..0] == [];
    assert RoundLines(name, [a], 0) == l0;
    assert RoundLines(name, [a, b], 0) == l0 + (f1 + "\n");
    assert RoundLines(name, [a, b, c], 0) == l0 + (f1 + "\n") + (f2 + "\n");
    AppendAssoc(l0, f1, "\n");
    AppendAssoc(l0 + (f1 + "\n"), f2, "\n");
  }

  /** The lines of four rounds numbered from 0, spelled out. */
  lemma RoundLinesOfFour(name: string, a: RoundEntry, b: RoundEntry, c: RoundEntry, d: RoundEntry)
    ensures RoundLines(name, [a, b, c, d], 0)
         == FormatRoundLine(0, a.approval, name, a.summary) + "\n"
            + FormatRoundLine(1, b.approval, name, b.summary) + "\n"
            + FormatRoundLine(2, c.approval, name, c.summary) + "\n"
            + FormatRoundLine(3, d.approval, name, d.summary) + "\n"
  {
    var f3 := FormatRoundLine(3, d.approval, name, d.summary);
    assert [a, b, c, d][..3] == [a, b, c];
    RoundLinesOfThree(name, a, b, c);
    assert RoundLines(name, [a, b, c, d], 0) == RoundLines(name, [a, b, c], 0) + (f3 + "\n");
    AppendAssoc(RoundLines(name, [a, b, c], 0), f3, "\n");
  }
}
