/**
 * The per-chain files of utils/helpers.go: the append-only deliberation
 * transcript, the round counter and the human-readable discussion log. The
 * filesystem is a map from path to content; creating the directories and the
 * I/O errors the source logs and ignores are not modelled.
 */
module TranscriptStore {
  import opened Text

  function TranscriptPath(chainID: string): string {
    "data/discussions/" + chainID + ".txt"
  }

  function RoundPath(chainID: string): (p: string)
    ensures p != TranscriptPath(chainID)
  {
    "data/discussions/" + chainID + "_round.txt"
  }

  function LogPath(chainID: string): (p: string)
    ensures p != TranscriptPath(chainID) && p != RoundPath(chainID)
  {
    assert ("logs/discussions_" + chainID + ".log")[0] == 'l';
    assert TranscriptPath(chainID)[0] == 'd' && RoundPath(chainID)[0] == 'd';
    "logs/discussions_" + chainID + ".log"
  }

  /**
   * The two per-chain paths are distinct for one chain, but not across chains:
   * the transcript of a chain named `c + "_round"` is the counter file of `c`.
   */
  lemma TranscriptOfRoundSuffixedChainIsCounter(c: string)
    ensures TranscriptPath(c + "_round") == RoundPath(c)
  {
    assert "data/discussions/" + (c + "_round") + ".txt" == "data/discussions/" + c + "_round.txt";
  }

  /** What reading `path` yields: its content, or "" when the file does not exist yet. */
  function ContentOf(files: map<string, string>, path: string): string {
    if path in files then files[path] else ""
  }

  /** The counter GetCurrentRound reports: 1 for a missing file, else Atoi of its content. */
  function StoredRound(files: map<string, string>, chainID: string): (r: int)
    ensures IsInt64(r)
  {
    if RoundPath(chainID) in files then Atoi(files[RoundPath(chainID)]) else 1
  }

  /**
   * A counter file strconv.Atoi rejects (a trailing newline, a space, no digit)
   * reads as round 0, unless its leading digits pass 2^64 - 1: then it reads as
   * the int64 bound of its sign.
   */
  lemma StoredRoundUnparsable(files: map<string, string>, chainID: string)
    requires RoundPath(chainID) in files
    requires var body := SplitSign(files[RoundPath(chainID)]).1; |body| == 0 || !AllDigits(body)
    ensures var (neg, body) := SplitSign(files[RoundPath(chainID)]);
            StoredRound(files, chainID) == if DecimalValue(DigitPrefix(body)) > MaxUint64
                                           then (if neg then MinInt64 else MaxInt64) else 0
  {
    var content := files[RoundPath(chainID)];
    if DecimalValue(DigitPrefix(SplitSign(content).1)) > MaxUint64 {
      AtoiRangeError(content);
    } else {
      AtoiSyntaxError(content);
    }
  }

  /** A counter file holding a run of digits reads as its value, clamped to int64. */
  lemma StoredRoundOfDigits(files: map<string, string>, chainID: string, d: string)
    requires |d| > 0 && AllDigits(d)
    ensures RoundPath(chainID) !in files ==> StoredRound(files, chainID) == 1
    ensures StoredRound(files[RoundPath(chainID) := d], chainID) == ClampInt64(DecimalValue(d))
    ensures StoredRound(files[RoundPath(chainID) := "-" + d], chainID) == ClampInt64(-(DecimalValue(d) as int))
  {
    AtoiDigits(d);
  }

  /** A second write to a path replaces the first. */
  lemma OverwriteTwice(files: map<string, string>, path: string, first: string, second: string)
    ensures files[path := first][path := second] == files[path := second]
  {
  }

  /** The text IncrementRound writes reads back as the next round; after a missing counter it is "2". */
  lemma NextRoundText(files: map<string, string>, chainID: string)
    ensures var next := Wrap64(StoredRound(files, chainID) + 1);
            Atoi(IntToString(next)) == next
            && (RoundPath(chainID) !in files ==> IntToString(next) == "2")
  {
    var next := Wrap64(StoredRound(files, chainID) + 1);
    AtoiOfIntToString(next);
    if RoundPath(chainID) !in files {
      assert next == 2;
      assert NatToDigits(2) == [DigitChar(2)];
    }
  }

  /** The role LogDiscussion writes. */
  function Role(isProposer: bool): (role: string)
    ensures role == "Proposer" <==> isProposer
  {
    if isProposer then "Proposer" else "Validator"
  }

  /** One entry of logs/discussions_<chain>.log; `timestamp` is the formatted wall-clock time. */
  function LogEntry(timestamp: string, agentName: string, role: string, message: string): string {
    "[" + timestamp + "] " + agentName + " (" + role + "): " + message + "\n"
  }

  /** The files after LogDiscussion: one entry appended to the chain's log. */
  function WithLogEntry(files: map<string, string>, agentName: string, message: string, chainID: string,
                        isProposer: bool, timestamp: string): (after: map<string, string>)
    ensures forall path :: path != LogPath(chainID) ==> ContentOf(after, path) == ContentOf(files, path)
    ensures HasPrefix(ContentOf(after, LogPath(chainID)), ContentOf(files, LogPath(chainID)))
    ensures ContentOf(after, LogPath(chainID))
         == ContentOf(files, LogPath(chainID)) + LogEntry(timestamp, agentName, Role(isProposer), message)
  {
    var before := ContentOf(files, LogPath(chainID));
    var entry := LogEntry(timestamp, agentName, Role(isProposer), message);
    assert (before + entry)[..|before|] == before;
    files[LogPath(chainID) := before + entry]
  }

  class Store {
    var files: map<string, string>

    constructor (files: map<string, string>)
      ensures this.files == files
    {
      this.files := files;
    }

    /** GetDiscussionLog: the whole transcript; a missing file is created empty. */
    method GetDiscussionLog(chainID: string) returns (content: string)
      modifies this
      ensures content == ContentOf(old(files), TranscriptPath(chainID))
      ensures files == old(files)[TranscriptPath(chainID) := content]
    {
      var path := TranscriptPath(chainID);
      if path in files {
        content := files[path];
      } else {
        files := files[path := ""];
        content := "";
      }
    }

    /** AppendDiscussionLog: opens for append (creating the file) and writes the line and a newline. */
    method AppendDiscussionLog(chainID: string, message: string)
      modifies this
      ensures files == old(files)[TranscriptPath(chainID) :=
                                  ContentOf(old(files), TranscriptPath(chainID)) + message + "\n"]
    {
      var path := TranscriptPath(chainID);
      files := files[path := ContentOf(files, path) + message + "\n"];
    }

    /** GetCurrentRound: a missing counter is created holding "1". */
    method GetCurrentRound(chainID: string) returns (round: int)
      modifies this
      ensures round == StoredRound(old(files), chainID)
      ensures RoundPath(chainID) !in old(files) ==> round == 1 && files == old(files)[RoundPath(chainID) := "1"]
      ensures RoundPath(chainID) in old(files) ==> files == old(files)
    {
      var path := RoundPath(chainID);
      if path in files {
        round := Atoi(files[path]);
      } else {
        files := files[path := "1"];
        round := 1;
      }
    }

    /** IncrementRound: writes the current counter plus one, with Go's 64-bit wrap-around. */
    method IncrementRound(chainID: string)
      modifies this
      ensures files == old(files)[RoundPath(chainID) := IntToString(Wrap64(StoredRound(old(files), chainID) + 1))]
      ensures RoundPath(chainID) !in old(files) ==> files[RoundPath(chainID)] == "2"
      ensures Atoi(files[RoundPath(chainID)]) == Wrap64(StoredRound(old(files), chainID) + 1)
    {
      ghost var before := files;
      var current := GetCurrentRound(chainID);
      var text := IntToString(Wrap64(current + 1));
      NextRoundText(before, chainID);
      OverwriteTwice(before, RoundPath(chainID), "1", text);
      files := files[RoundPath(chainID) := text];
    }

    /** LogDiscussion: appends one entry to logs/discussions_<chain>.log. */
    method LogDiscussion(agentName: string, message: string, chainID: string, isProposer: bool, timestamp: string)
      modifies this
      ensures files == WithLogEntry(old(files), agentName, message, chainID, isProposer, timestamp)
    {
      var path := LogPath(chainID);
      files := files[path := ContentOf(files, path) + LogEntry(timestamp, agentName, Role(isProposer), message)];
    }
  }

  /** Writing a file twice leaves the second content. */
  lemma OverwriteFile(files: map<string, string>, path: string, first: string, second: string)
    ensures files[path := first][path := second] == files[path := second]
  {
  }

  /** Appending to the transcript leaves the counter and the log file of every chain whose paths differ untouched. */
  lemma AppendKeepsOtherFiles(files: map<string, string>, chainID: string, message: string, path: string)
    requires path != TranscriptPath(chainID)
    ensures ContentOf(files[TranscriptPath(chainID) := ContentOf(files, TranscriptPath(chainID)) + message + "\n"], path)
         == ContentOf(files, path)
  {
  }
}
