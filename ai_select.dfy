/**
 * ai/ai.go: a producer personality choosing the transactions of its next
 * block. The model is shown the pending transactions, one numbered line each,
 * and answers with a comma-separated list of indexes; when the model cannot be
 * reached, a random prefix of a shuffle is taken instead. The shuffle's draws
 * (rand.Shuffle's and rand.Intn's) are parameters.
 */
module Selection {
  import opened Wrappers
  import opened Text
  import opened Core
  import opened Oracle

  /** A producer personality; SelectTransactions reads its name and traits. */
  datatype Personality = Personality(
    name: string,
    traits: seq<string>,
    style: string,
    memePreferences: seq<string>,
    apiKey: string)

  // -------------------------------------------------------------- formatting

  /** The line formatTransactions writes for transaction `i`: "<i>: <From> (Fee: <Fee>)". */
  function TxLine(i: int, tx: Transaction): string {
    IntToString(i) + ": " + tx.from + " (Fee: " + IntToString(tx.fee) + ")"
  }

  /** One line per transaction, in index order. */
  function TxLines(txs: seq<Transaction>): seq<string> {
    seq(|txs|, i requires 0 <= i < |txs| => TxLine(i, txs[i]))
  }

  /** formatTransactions: the lines accumulated in a loop, then joined by "\n". */
  method FormatTransactions(txs: seq<Transaction>) returns (text: string)
    ensures text == Join(TxLines(txs), "\n")
  {
    var result: seq<string> := [];
    var i := 0;
    while i < |txs|
      invariant 0 <= i <= |txs|
      invariant |result| == i
      invariant forall k :: 0 <= k < i ==> result[k] == TxLine(k, txs[k])
    {
      result := result + [TxLine(i, txs[i])];
      i := i + 1;
    }
    assert result == TxLines(txs);
    text := Join(result, "\n");
  }

  /** The characters "%d" writes are digits and a leading minus, never a separator. */
  lemma IntToStringHasNo(n: int, c: char)
    requires !IsDigit(c) && c != '-'
    ensures c !in IntToString(n)
  {
  }

  /**
   * The listing reads back line by line: when no sender holds a newline,
   * splitting the text at "\n" gives exactly one line per transaction.
   */
  lemma FormatTransactionsLines(txs: seq<Transaction>)
    requires |txs| > 0
    requires forall i :: 0 <= i < |txs| ==> '\n' !in txs[i].from
    ensures Split(Join(TxLines(txs), "\n"), '\n') == TxLines(txs)
  {
    var lines := TxLines(txs);
    forall i | 0 <= i < |lines|
      ensures '\n' !in lines[i]
    {
      IntToStringHasNo(i, '\n');
      IntToStringHasNo(txs[i].fee, '\n');
    }
    SplitOfJoin(lines, '\n');
  }

  /** formatBlock: "Height: <h>, Transactions: <n>, Previous Hash: <p>". */
  function FormatBlock(block: Block): (text: string)
    ensures HasPrefix(text, "Height: " + IntToString(block.height) + ", Transactions: ")
  {
    "Height: " + IntToString(block.height) + ", Transactions: " + IntToString(|block.txs|)
    + ", Previous Hash: " + block.prevHash
  }

  /** The block summary sees only the height, the number of transactions and the previous hash. */
  lemma FormatBlockSeesOnly(a: Block, b: Block)
    requires a.height == b.height && |a.txs| == |b.txs| && a.prevHash == b.prevHash
    ensures FormatBlock(a) == FormatBlock(b)
  {
  }

  // ----------------------------------------------------------- index parsing

  /** What fmt.Sscanf(part, "%d") reports when no operand is passed: zero items and a "too few operands" error. */
  datatype ScanReport = ScanReport(count: int, failed: bool)

  function SscanfWithoutOperand(part: string): ScanReport {
    ScanReport(0, true)
  }

  /**
   * parseIndexes as written: the scan has no operand to store into, so it
   * fails on every part and no index is ever kept, whatever the response.
   */
  method ParseIndexesAsWritten(response: string, max: int) returns (indexes: seq<int>)
    ensures indexes == []
  {
    indexes := [];
    var parts := Split(response, ',');
    var i := 0;
    while i < |parts|
      invariant 0 <= i <= |parts|
      invariant indexes == []
    {
      var part := TrimSpace(parts[i]);
      var report := SscanfWithoutOperand(part);
      if !report.failed && report.count >= 0 && report.count < max {
        indexes := indexes + [report.count];
      }
      i := i + 1;
    }
  }

  /** The index one comma-separated part names, when it scans as an int in [0, max). */
  function PartIndex(part: string, max: int): Option<int> {
    match ScanInt(TrimSpace(part))
    case Some(n) => if 0 <= n < max then Some(n) else None
    case None => None
  }

  /** The index a part contributes: none, or the one it names. */
  function Kept(part: string, max: int): seq<int> {
    match PartIndex(part, max) case Some(n) => [n] case None => []
  }

  /** The outputs of `f` on the elements, concatenated in order. */
  function Collect<T, U>(xs: seq<T>, f: T -> seq<U>): seq<U> {
    if xs == [] then [] else Collect(xs[..|xs| - 1], f) + f(xs[|xs| - 1])
  }

  lemma CollectStep<T, U>(xs: seq<T>, i: nat, f: T -> seq<U>)
    requires i < |xs|
    ensures Collect(xs[..i + 1], f) == Collect(xs[..i], f) + f(xs[i])
  {
    assert xs[..i + 1][..i] == xs[..i];
  }

  lemma {:induction false} CollectAppend<T, U>(p: seq<T>, q: seq<T>, f: T -> seq<U>)
    ensures Collect(p + q, f) == Collect(p, f) + Collect(q, f)
    decreases |q|
  {
    if q == [] {
      assert p + q == p;
    } else {
      var q', last := q[..|q| - 1], q[|q| - 1];
      var pq := p + q;
      assert pq[..|pq| - 1] == p + q' && pq[|pq| - 1] == last;
      CollectAppend(p, q', f);
      AppendAssoc(Collect(p, f), Collect(q', f), f(last));
    }
  }

  /** Kept for a fixed bound, as a function of the part. */
  function KeptBelow(max: int): string -> seq<int> {
    part => Kept(part, max)
  }

  /** Every index kept lies in [0, max). */
  lemma {:induction false} KeptInRange(parts: seq<string>, max: int)
    ensures forall k :: 0 <= k < |Collect(parts, KeptBelow(max))| ==> 0 <= Collect(parts, KeptBelow(max))[k] < max
  {
    if parts != [] {
      KeptInRange(parts[..|parts| - 1], max);
    }
  }

  /** The intended parseIndexes on the parts: what each part names, in the order of the parts. */
  function IndexesOf(parts: seq<string>, max: int): (indexes: seq<int>)
    ensures forall k :: 0 <= k < |indexes| ==> 0 <= indexes[k] < max
  {
    KeptInRange(parts, max);
    Collect(parts, KeptBelow(max))
  }

  /** parseIndexes with the scanned value stored, as evidently intended. */
  method ParseIndexes(response: string, max: int) returns (indexes: seq<int>)
    ensures indexes == IndexesOf(Split(response, ','), max)
  {
    indexes := [];
    var parts := Split(response, ',');
    var i := 0;
    while i < |parts|
      invariant 0 <= i <= |parts|
      invariant indexes == IndexesOf(parts[..i], max)
    {
      CollectStep(parts, i, KeptBelow(max));
      var part := TrimSpace(parts[i]);
      var scanned := ScanInt(part);
      if scanned.Some? && 0 <= scanned.value < max {
        indexes := indexes + [scanned.value];
      }
      i := i + 1;
    }
    assert parts[..|parts|] == parts;
  }

  /** Indexes of parts written one after the other come out one after the other. */
  lemma IndexesOfAppend(p: seq<string>, q: seq<string>, max: int)
    ensures IndexesOf(p + q, max) == IndexesOf(p, max) + IndexesOf(q, max)
  {
    CollectAppend(p, q, KeptBelow(max));
  }

  /** The decimal texts of some indexes. */
  function IndexTexts(indexes: seq<int>): (texts: seq<string>)
    ensures |texts| == |indexes|
    ensures forall k :: 0 <= k < |indexes| ==> texts[k] == IntToString(indexes[k])
  {
    if indexes == [] then [] else IndexTexts(indexes[..|indexes| - 1]) + [IntToString(indexes[|indexes| - 1])]
  }

  /** A part holding an in-range index, written by "%d", names that index. */
  lemma PartIndexOfIntToString(n: int, max: int)
    requires 0 <= n < max <= MaxInt64
    ensures PartIndex(IntToString(n), max) == Some(n)
  {
    var s := IntToString(n);
    assert s == NatToDigits(n);
    assert IsDigit(s[|s| - 1]);
    TrimSpaceOfUnpadded(s);
    ScanIntOfIntToString(n);
  }

  lemma {:induction false} IndexesOfTexts(indexes: seq<int>, max: int)
    requires max <= MaxInt64
    requires forall k :: 0 <= k < |indexes| ==> 0 <= indexes[k] < max
    ensures IndexesOf(IndexTexts(indexes), max) == indexes
  {
    if indexes != [] {
      var init := indexes[..|indexes| - 1];
      var texts := IndexTexts(indexes);
      assert texts[..|texts| - 1] == IndexTexts(init);
      IndexesOfTexts(init, max);
      PartIndexOfIntToString(indexes[|indexes| - 1], max);
      assert init + [indexes[|indexes| - 1]] == indexes;
    }
  }

  /**
   * The intended parser reads back a reply it was meant for: the in-range
   * indexes written as "%d" and joined by commas come back as the same list,
   * in the same order.
   */
  lemma ParseIndexesOfReply(indexes: seq<int>, max: int)
    requires |indexes| > 0 && max <= MaxInt64
    requires forall k :: 0 <= k < |indexes| ==> 0 <= indexes[k] < max
    ensures IndexesOf(Split(Join(IndexTexts(indexes), ","), ','), max) == indexes
  {
    var texts := IndexTexts(indexes);
    forall k | 0 <= k < |texts|
      ensures ',' !in texts[k]
    {
      IntToStringHasNo(indexes[k], ',');
    }
    SplitOfJoin(texts, ',');
    IndexesOfTexts(indexes, max);
  }

  /** The reply "0" to a one-transaction listing, which the source's parser drops, names transaction 0. */
  lemma ParseIndexesOfZero()
    ensures IndexesOf(Split("0", ','), 1) == [0]
  {
    ParseIndexesOfReply([0], 1);
    assert IndexTexts([0]) == ["0"];
  }

  // --------------------------------------------------------------- selection

  /** The transactions the indexes name, in the order of the indexes. */
  function Picked(txs: seq<Transaction>, indexes: seq<int>): (selected: seq<Transaction>)
    requires forall k :: 0 <= k < |indexes| ==> 0 <= indexes[k] < |txs|
    ensures |selected| == |indexes|
    ensures forall k :: 0 <= k < |indexes| ==> selected[k] == txs[indexes[k]]
  {
    if indexes == [] then [] else Picked(txs, indexes[..|indexes| - 1]) + [txs[indexes[|indexes| - 1]]]
  }

  /** `s` with the elements at `i` and `j` exchanged. */
  function Swap<T>(s: seq<T>, i: nat, j: nat): (r: seq<T>)
    requires i < |s| && j < |s|
    ensures |r| == |s|
  {
    s[i := s[j]][j := s[i]]
  }

  /**
   * The Fisher-Yates passes of rand.Shuffle from position `i` down to 1, pass
   * k exchanging k with the drawn position picks[k] mod (k + 1).
   */
  function ShuffleDown<T>(s: seq<T>, picks: seq<nat>, i: nat): (r: seq<T>)
    requires i < |s| && |picks| == |s|
    ensures |r| == |s|
    decreases i
  {
    if i == 0 then s else ShuffleDown(Swap(s, i, picks[i] % (i + 1)), picks, i - 1)
  }

  lemma SwapPermutes<T>(s: seq<T>, i: nat, j: nat)
    requires i < |s| && j < |s|
    ensures multiset(Swap(s, i, j)) == multiset(s)
  {
  }

  /** The shuffle keeps every element, each as often as before. */
  lemma {:induction false} ShufflePermutes<T>(s: seq<T>, picks: seq<nat>, i: nat)
    requires i < |s| && |picks| == |s|
    ensures multiset(ShuffleDown(s, picks, i)) == multiset(s)
    decreases i
  {
    if i > 0 {
      var j := picks[i] % (i + 1);
      SwapPermutes(s, i, j);
      ShufflePermutes(Swap(s, i, j), picks, i - 1);
    }
  }

  /**
   * randomSelection: shuffles the caller's slice in place, then keeps a
   * prefix whose length rand.Intn(len) draws, always shorter than the slice.
   */
  method RandomSelection(txs: array<Transaction>, picks: seq<nat>, cut: nat) returns (selected: seq<Transaction>)
    requires txs.Length > 0 && |picks| == txs.Length
    modifies txs
    ensures txs[..] == ShuffleDown(old(txs[..]), picks, txs.Length - 1)
    ensures multiset(txs[..]) == multiset(old(txs[..]))
    ensures selected == txs[..cut % txs.Length] && |selected| < txs.Length
  {
    var i := txs.Length - 1;
    while i > 0
      invariant 0 <= i < txs.Length
      invariant ShuffleDown(txs[..], picks, i) == ShuffleDown(old(txs[..]), picks, txs.Length - 1)
    {
      var j := picks[i] % (i + 1);
      ghost var before := txs[..];
      txs[i], txs[j] := txs[j], txs[i];
      assert txs[..] == Swap(before, i, j);
      i := i - 1;
    }
    ShufflePermutes(old(txs[..]), picks, txs.Length - 1);
    selected := txs[..cut % txs.Length];
  }

  /**
   * SelectTransactions, with the intended parser: nothing is asked for an
   * empty pool; otherwise one query shows the personality and the listing. A
   * failed query falls back to the random selection; an answer selects the
   * transactions its indexes name, in the answer's order.
   */
  method SelectTransactions(p: Personality, txs: array<Transaction>, llm: Llm, picks: seq<nat>, cut: nat)
    returns (selected: seq<Transaction>)
    requires |picks| == txs.Length
    modifies txs, llm
    ensures txs.Length == 0 ==> selected == [] && unchanged(llm)
    ensures txs.Length > 0 ==>
              llm.asked == old(llm.asked) + [SelectionPrompt(p.name, Join(p.traits, ", "), Join(TxLines(old(txs[..])), "\n"))]
              && llm.script == Drop(old(llm.script), 1)
    ensures txs.Length > 0 && |old(llm.script)| == 0 ==>
              txs[..] == ShuffleDown(old(txs[..]), picks, txs.Length - 1) && selected == txs[..cut % txs.Length]
    ensures txs.Length > 0 && |old(llm.script)| > 0 ==>
              txs[..] == old(txs[..])
              && selected == Picked(txs[..], IndexesOf(Split(old(llm.script)[0], ','), txs.Length))
  {
    if txs.Length == 0 {
      return [];
    }
    var listing := FormatTransactions(txs[..]);
    var response := llm.Query(SelectionPrompt(p.name, Join(p.traits, ", "), listing));
    if response.None? {
      selected := RandomSelection(txs, picks, cut);
      return;
    }
    var indexes := ParseIndexes(response.value, txs.Length);
    selected := PickAll(txs[..], indexes);
  }

  /** The loop of SelectTransactions appending txs[index] for each parsed index. */
  method PickAll(pool: seq<Transaction>, indexes: seq<int>) returns (selected: seq<Transaction>)
    requires forall k :: 0 <= k < |indexes| ==> 0 <= indexes[k] < |pool|
    ensures selected == Picked(pool, indexes)
  {
    selected := [];
    var k := 0;
    while k < |indexes|
      invariant 0 <= k <= |indexes|
      invariant |selected| == k
      invariant forall m :: 0 <= m < k ==> selected[m] == pool[indexes[m]]
    {
      selected := selected + [pool[indexes[k]]];
      k := k + 1;
    }
  }

  /** Every transaction a reply selects is one of the pool's, so a selection never invents a transaction. */
  lemma PickedFromPool(txs: seq<Transaction>, indexes: seq<int>)
    requires forall k :: 0 <= k < |indexes| ==> 0 <= indexes[k] < |txs|
    ensures forall k :: 0 <= k < |indexes| ==> Picked(txs, indexes)[k] in txs
  {
  }
}
