/**
 * consensus/abci/application.go: the ABCI application CometBFT drives. It keeps
 * the current validator list and a queue of pending validator updates, filters
 * and judges block proposals by having the node's own agent deliberate on each
 * transaction, and merges the queued updates at the end of every block.
 *
 * The JSON decoders are parameters (Codecs); the mutex is left out, since the
 * operations are modelled one at a time. The agent registry the source reads
 * as a global is passed in, and so are the wall-clock readings LogDiscussion
 * takes for each log entry and the UUIDs and clock readings of discussion
 * records (indexed by the transaction's position).
 */
module Abci {
  import opened Wrappers
  import opened Text
  import opened Core
  import opened AiTypes
  import opened Oracle
  import opened TranscriptStore
  import AgentRegistry
  import PaperReviewing
  import LoanReviewing
  import ValidatorDiscussion

  // ------------------------------------------------------------ validators

  /** The public key of a validator update; only ed25519 keys have bytes GetEd25519 can see. */
  datatype PublicKey = Ed25519(bytes: Bytes) | Secp256k1(bytes: Bytes)

  datatype ValidatorUpdate = ValidatorUpdate(pubKey: PublicKey, power: int)

  /** PubKey.GetEd25519(): the ed25519 bytes, nil (the empty sequence) for any other kind of key. */
  function KeyOf(v: ValidatorUpdate): Bytes {
    if v.pubKey.Ed25519? then v.pubKey.bytes else []
  }

  /** types.Ed25519ValidatorUpdate. */
  function Ed25519Update(key: Bytes, power: int): (v: ValidatorUpdate)
    ensures KeyOf(v) == key && v.power == power
  {
    ValidatorUpdate(Ed25519(key), power)
  }

  /** The power DeliverTx gives every registered validator. */
  const RegistrationPower := 1000000

  /** The length of an ed25519 public key; pubKey.Address() panics on a key of any other length. */
  const Ed25519KeySize := 32

  /** The index of the first record whose key is `key`, or |vals| when there is none. */
  function FirstMatch(vals: seq<ValidatorUpdate>, key: Bytes): (r: nat)
    ensures r <= |vals|
    ensures forall j :: 0 <= j < r ==> KeyOf(vals[j]) != key
    ensures r < |vals| ==> KeyOf(vals[r]) == key
    decreases |vals|
  {
    if vals == [] then 0
    else if KeyOf(vals[0]) == key then 0
    else 1 + FirstMatch(vals[1..], key)
  }

  /** The record stored for a key (the first one, as the merge loop finds it), if any. */
  function Lookup(vals: seq<ValidatorUpdate>, key: Bytes): Option<ValidatorUpdate> {
    var i := FirstMatch(vals, key);
    if i < |vals| then Some(vals[i]) else None
  }

  /** One pending update applied by EndBlock: it replaces the first record with its key, or is appended. */
  function ApplyUpdate(vals: seq<ValidatorUpdate>, u: ValidatorUpdate): seq<ValidatorUpdate> {
    var i := FirstMatch(vals, KeyOf(u));
    if i < |vals| then vals[i := u] else vals + [u]
  }

  /** The validator list after applying `updates` in order. */
  function Merge(vals: seq<ValidatorUpdate>, updates: seq<ValidatorUpdate>): seq<ValidatorUpdate> {
    if updates == [] then vals
    else ApplyUpdate(Merge(vals, updates[..|updates| - 1]), updates[|updates| - 1])
  }

  /** The pending queue after RegisterValidator: unchanged for a key already in the current set, else one more update. */
  function Registration(vals: seq<ValidatorUpdate>, pending: seq<ValidatorUpdate>, key: Bytes, power: int): seq<ValidatorUpdate> {
    if FirstMatch(vals, key) < |vals| then pending else pending + [Ed25519Update(key, power)]
  }

  /** The last update for a key, if any. */
  function LastUpdate(updates: seq<ValidatorUpdate>, key: Bytes): Option<ValidatorUpdate> {
    if updates == [] then None
    else if KeyOf(updates[|updates| - 1]) == key then Some(updates[|updates| - 1])
    else LastUpdate(updates[..|updates| - 1], key)
  }

  /** The keys a list holds. */
  function KeySet(vals: seq<ValidatorUpdate>): set<Bytes> {
    set i | 0 <= i < |vals| :: KeyOf(vals[i])
  }

  /** No two records share a key. */
  predicate DistinctKeys(vals: seq<ValidatorUpdate>) {
    forall i, j :: 0 <= i < j < |vals| ==> KeyOf(vals[i]) != KeyOf(vals[j])
  }

  // ------------------------------------------------------------- responses

  datatype ConsensusParams = ConsensusParams(
    blockMaxBytes: int,
    blockMaxGas: int,
    evidenceMaxAgeNumBlocks: int,
    evidenceMaxAgeDuration: int,
    evidenceMaxBytes: int,
    pubKeyTypes: seq<string>,
    appVersion: int)

  /** The consensus parameters InitChain answers with. */
  const GenesisParams := ConsensusParams(22020096, -1, 100000, 172800000000000, 1048576, ["ed25519"], 1)

  datatype InitChainResponse = InitChainResponse(validators: seq<ValidatorUpdate>, params: ConsensusParams)

  datatype Status = Accept | Reject

  /** The JSON decoders the application uses: of a raw transaction, and of the contents and replies it carries. */
  datatype Codecs = Codecs(
    transaction: Bytes -> Option<Transaction>,
    paper: string -> Option<ResearchPaper>,
    paperReview: string -> Option<PaperReview>,
    loanReview: string -> Option<LoanReview>,
    reply: string -> Option<DiscussionReply>)

  /** CheckTx: every transaction is admitted to the mempool. */
  function CheckTx(raw: Bytes): (code: int)
    ensures code == 0
  {
    0
  }

  /** How a DeliverTx call ends: with a response code, or in a panic that aborts it. */
  datatype Delivery = Answered(code: int) | Panicked

  /**
   * The outcome of DeliverTx. The data of a register_validator reaches
   * RegisterValidator as an ed25519 key, whose Address() panics unless it is
   * 32 bytes long.
   */
  function DeliverTxResult(raw: Bytes, codecs: Codecs): (r: Delivery)
    ensures r.Answered? ==> r.code == 0 || r.code == 1
    ensures r.Panicked? <==> codecs.transaction(raw).Some? && codecs.transaction(raw).value.txType == "register_validator"
                             && |codecs.transaction(raw).value.data| !in {0, Ed25519KeySize}
  {
    match codecs.transaction(raw)
    case None => Answered(1)
    case Some(tx) =>
      if tx.txType == "submit_paper" then (if codecs.paper(tx.content).None? then Answered(1) else Answered(0))
      else if tx.txType == "register_validator" then
        (if tx.data == [] then Answered(1) else if |tx.data| != Ed25519KeySize then Panicked else Answered(0))
      else Answered(0)
  }

  /** The key DeliverTx registers: the data of a decodable register_validator transaction, when it is an ed25519 key. */
  function RegisteredKey(raw: Bytes, codecs: Codecs): Option<Bytes> {
    match codecs.transaction(raw)
    case None => None
    case Some(tx) => if tx.txType == "register_validator" && |tx.data| == Ed25519KeySize then Some(tx.data) else None
  }

  /** The filter of PrepareProposal. */
  predicate Admissible(raw: Bytes, codecs: Codecs) {
    match codecs.transaction(raw)
    case None => false
    case Some(tx) =>
      if tx.txType == "submit_paper" then
        (match codecs.paper(tx.content)
         case None => false
         case Some(p) => p.title != "" && p.content != "")
      else if tx.txType == "register_validator" then true
      else if tx.txType == "discuss_transaction" || tx.txType == "loan_request" then tx.content != ""
      else false
  }

  /** The transactions PrepareProposal keeps, in their order. */
  function Admitted(txs: seq<Bytes>, codecs: Codecs): seq<Bytes> {
    if txs == [] then []
    else Admitted(txs[..|txs| - 1], codecs) + (if Admissible(txs[|txs| - 1], codecs) then [txs[|txs| - 1]] else [])
  }

  // ------------------------------------------------------ proposal review

  /** fmt's "%v" of a []string: the items separated by spaces, in brackets. */
  function GoList(items: seq<string>): string {
    "[" + Join(items, " ") + "]"
  }

  /** fmt's "%+v" of a PaperReview. */
  function PaperReviewText(r: PaperReview): string {
    "{Summary:" + r.summary + " Flaws:" + GoList(r.flaws) + " Suggestions:" + GoList(r.suggestions)
    + " IsReproducible:" + BoolToString(r.isReproducible) + " Approval:" + BoolToString(r.approval) + "}"
  }

  /** fmt's "%+v" of a LoanReview. */
  function LoanReviewText(r: LoanReview): string {
    "{Summary:" + r.summary + " RiskFactors:" + GoList(r.riskFactors) + " Terms:" + GoList(r.terms)
    + " Approval:" + BoolToString(r.approval) + "}"
  }

  /**
   * One transaction of ProcessProposal's loop: whether it makes the agent
   * reject the block, and the state after the deliberation and its log entry.
   */
  function TxStep(env: Env, agent: Agent, chainID: string, raw: Bytes, codecs: Codecs,
                  timestamp: string, id: string, now: int): (bool, Env)
  {
    match codecs.transaction(raw)
    case None => (false, env)
    case Some(tx) =>
      if tx.txType == "submit_paper" then
        match codecs.paper(tx.content)
        case None => (false, env)
        case Some(paper) =>
          var (review, e) := PaperReviewing.PaperDeliberation(env, agent, paper, chainID, codecs.paperReview);
          (!review.approval, e.(files := WithLogEntry(e.files, agent.name, PaperReviewText(review), chainID, false, timestamp)))
      else if tx.txType == "discuss_transaction" then
        var (d, e) := ValidatorDiscussion.DiscussionTurn(env, agent, tx, codecs.reply, id, now);
        (!d.support, e.(files := WithLogEntry(e.files, agent.name, d.message, chainID, false, timestamp)))
      else if tx.txType == "loan_request" then
        var (review, e) := LoanReviewing.LoanDeliberation(env, agent, tx.content, chainID, codecs.loanReview);
        (!review.approval, e.(files := WithLogEntry(e.files, agent.name, LoanReviewText(review), chainID, false, timestamp)))
      else (false, env)
  }

  /**
   * A loop that threads a state through `n` steps and remembers whether any
   * step raised its flag: the shape of ProcessProposal's loop and shouldReject.
   */
  function RunSteps<S>(s: S, step: (S, nat) -> (bool, S), n: nat): (bool, S) {
    if n == 0 then (false, s)
    else
      var (raised, e) := RunSteps(s, step, n - 1);
      var (r, e') := step(e, n - 1);
      (raised || r, e')
  }

  /**
   * Step i of ProcessProposal's loop: its deliberation on the i-th transaction,
   * logged at the clock reading stamps(i).
   */
  function ReviewStep(agent: Agent, chainID: string, txs: seq<Bytes>, codecs: Codecs,
                      stamps: nat -> string, ids: nat -> string, nows: nat -> int): (Env, nat) -> (bool, Env)
  {
    (e: Env, i: nat) => if i < |txs| then TxStep(e, agent, chainID, txs[i], codecs, stamps(i), ids(i), nows(i)) else (false, e)
  }

  /**
   * ProcessProposal: the status and the state after it. The "Validator" and
   * "Agent" entries are logged at the clock readings validatorStamp and
   * agentStamp, the entry of transaction i at stamps(i).
   */
  function Proposal(env: Env, agents: AgentRegistry.AgentTable, bindings: AgentRegistry.ValidatorTable,
                    chainID: string, selfAddr: string, txs: seq<Bytes>, codecs: Codecs,
                    validatorStamp: string, agentStamp: string, stamps: nat -> string,
                    ids: nat -> string, nows: nat -> int): (Status, Env)
  {
    var logged := env.(files := WithLogEntry(env.files, "Validator", selfAddr, chainID, false, validatorStamp));
    var (agent, found) := AgentRegistry.GetAgentByValidator(agents, bindings, chainID, selfAddr);
    if !found then (Accept, logged)
    else
      var start := logged.(files := WithLogEntry(logged.files, "Agent", agent.name, chainID, false, agentStamp));
      var (rejected, e) := RunSteps(start, ReviewStep(agent, chainID, txs, codecs, stamps, ids, nows), |txs|);
      (if rejected then Reject else Accept, e)
  }

  // ---------------------------------------------------------- application

  class Application {
    const chainID: string
    const selfValidatorAddr: string
    var discussions: map<string, map<string, bool>>
    var validators: seq<ValidatorUpdate>
    var pending: seq<ValidatorUpdate>

    /** NewApplication. */
    constructor (chainID: string, selfValidatorAddr: string)
      ensures this.chainID == chainID && this.selfValidatorAddr == selfValidatorAddr
      ensures discussions == map[] && validators == [] && pending == []
    {
      this.chainID := chainID;
      this.selfValidatorAddr := selfValidatorAddr;
      discussions := map[];
      validators := [];
      pending := [];
    }

    /** InitChain: the genesis validators become the set and are answered back with the fixed parameters. */
    method InitChain(genesis: seq<ValidatorUpdate>) returns (response: InitChainResponse)
      modifies this
      ensures validators == genesis && pending == old(pending) && discussions == old(discussions)
      ensures response == InitChainResponse(genesis, GenesisParams)
    {
      validators := genesis;
      response := InitChainResponse(validators, GenesisParams);
    }

    /**
     * RegisterValidator: panics, changing nothing, when the key is not 32 bytes
     * long (pubKey.Address() runs before the set is searched); otherwise queues
     * the update unless the current set already has the key.
     */
    method RegisterValidator(key: Bytes, power: int) returns (panicked: bool)
      modifies this
      ensures panicked <==> |key| != Ed25519KeySize
      ensures pending == if panicked then old(pending) else Registration(old(validators), old(pending), key, power)
      ensures validators == old(validators) && discussions == old(discussions)
    {
      var valUpdate := Ed25519Update(key, power);
      if |key| != Ed25519KeySize {
        return true;
      }
      panicked := false;
      var i := 0;
      while i < |validators|
        invariant 0 <= i <= |validators|
        invariant forall j :: 0 <= j < i ==> KeyOf(validators[j]) != key
      {
        if KeyOf(validators[i]) == key {
          return;
        }
        i := i + 1;
      }
      pending := pending + [valUpdate];
    }

    /** DeliverTx: dispatch on the transaction's type; only register_validator changes state. */
    method DeliverTx(raw: Bytes, codecs: Codecs) returns (result: Delivery)
      modifies this
      ensures result == DeliverTxResult(raw, codecs)
      ensures RegisteredKey(raw, codecs).Some? ==>
                pending == Registration(old(validators), old(pending), RegisteredKey(raw, codecs).value, RegistrationPower)
      ensures RegisteredKey(raw, codecs).None? ==> pending == old(pending)
      ensures validators == old(validators) && discussions == old(discussions)
    {
      var decoded := codecs.transaction(raw);
      if decoded.None? {
        return Answered(1);
      }
      var tx := decoded.value;
      if tx.txType == "submit_paper" {
        var paper := codecs.paper(tx.content);
        if paper.None? {
          return Answered(1);
        }
        return Answered(0);
      } else if tx.txType == "register_validator" {
        if |tx.data| == 0 {
          return Answered(1);
        }
        var panicked := RegisterValidator(tx.data, RegistrationPower);
        if panicked {
          return Panicked;
        }
        return Answered(0);
      } else {
        return Answered(0);
      }
    }

    /**
     * EndBlock: with updates pending, merges them into a copy of the set,
     * installs it, answers the pending list as it was and empties the queue;
     * otherwise answers no updates and changes nothing.
     */
    method EndBlock() returns (updates: seq<ValidatorUpdate>)
      modifies this
      ensures |old(pending)| == 0 ==> updates == [] && validators == old(validators) && pending == old(pending)
      ensures |old(pending)| > 0 ==>
                updates == old(pending) && pending == [] && validators == Merge(old(validators), old(pending))
      ensures discussions == old(discussions)
    {
      if |pending| == 0 {
        return [];
      }
      var newValidators := validators;
      var k := 0;
      while k < |pending|
        invariant 0 <= k <= |pending|
        invariant newValidators == Merge(validators, pending[..k])
      {
        var update := pending[k];
        assert pending[..k + 1][..k] == pending[..k];
        ghost var before := newValidators;
        var found := false;
        var i := 0;
        while i < |newValidators|
          invariant 0 <= i <= |newValidators|
          invariant newValidators == before && !found
          invariant forall j :: 0 <= j < i ==> KeyOf(newValidators[j]) != KeyOf(update)
        {
          if KeyOf(newValidators[i]) == KeyOf(update) {
            newValidators := newValidators[i := update];
            found := true;
            break;
          }
          i := i + 1;
        }
        if !found {
          newValidators := newValidators + [update];
        }
        assert newValidators == ApplyUpdate(before, update);
        k := k + 1;
      }
      assert pending[..|pending|] == pending;
      validators := newValidators;
      updates := pending;
      pending := [];
    }

    /** PrepareProposal: keeps, in order, the transactions the switch accepts and drops the rest. */
    method PrepareProposal(txs: seq<Bytes>, codecs: Codecs) returns (validTxs: seq<Bytes>)
      ensures validTxs == Admitted(txs, codecs)
    {
      validTxs := [];
      var i := 0;
      while i < |txs|
        invariant 0 <= i <= |txs|
        invariant validTxs == Admitted(txs[..i], codecs)
      {
        var tx := txs[i];
        assert txs[..i + 1][..i] == txs[..i];
        var decoded := codecs.transaction(tx);
        if decoded.Some? {
          var transaction := decoded.value;
          if transaction.txType == "submit_paper" {
            var paper := codecs.paper(transaction.content);
            if paper.Some? && paper.value.title != "" && paper.value.content != "" {
              validTxs := validTxs + [tx];
            }
          } else if transaction.txType == "register_validator" {
            validTxs := validTxs + [tx];
          } else if transaction.txType == "discuss_transaction" {
            if transaction.content != "" {
              validTxs := validTxs + [tx];
            }
          } else if transaction.txType == "loan_request" {
            if transaction.content != "" {
              validTxs := validTxs + [tx];
            }
          }
        }
        i := i + 1;
      }
      assert txs[..|txs|] == txs;
    }

    /** The body of ProcessProposal's loop for one transaction: deliberate, log the outcome, report a negative verdict. */
    method ReviewTransaction(agent: Agent, raw: Bytes, store: Store, llm: Llm, codecs: Codecs,
                             timestamp: string, id: string, now: int) returns (rejects: bool)
      modifies store, llm
      ensures (rejects, Env(store.files, llm.script, llm.asked))
           == TxStep(Env(old(store.files), old(llm.script), old(llm.asked)), agent, chainID, raw, codecs, timestamp, id, now)
    {
      rejects := false;
      var decoded := codecs.transaction(raw);
      if decoded.None? {
        return;
      }
      var transaction := decoded.value;
      if transaction.txType == "submit_paper" {
        var paper := codecs.paper(transaction.content);
        if paper.None? {
          return;
        }
        var review := PaperReviewing.GetMultiRoundReview(agent, paper.value, chainID, store, llm, codecs.paperReview);
        store.LogDiscussion(agent.name, PaperReviewText(review), chainID, false, timestamp);
        if !review.approval {
          rejects := true;
        }
      } else if transaction.txType == "discuss_transaction" {
        var discussion := ValidatorDiscussion.GetValidatorDiscussion(agent, transaction, llm, codecs.reply, id, now);
        store.LogDiscussion(agent.name, discussion.message, chainID, false, timestamp);
        if !discussion.support {
          rejects := true;
        }
      } else if transaction.txType == "loan_request" {
        var review := LoanReviewing.GetMultiRoundLoanReview(agent, transaction.content, chainID, store, llm, codecs.loanReview);
        store.LogDiscussion(agent.name, LoanReviewText(review), chainID, false, timestamp);
        if !review.approval {
          rejects := true;
        }
      }
    }

    /** ProcessProposal's loop: the agent deliberates on every transaction in turn; reports whether any verdict was negative. */
    method ReviewAll(agent: Agent, txs: seq<Bytes>, store: Store, llm: Llm, codecs: Codecs,
                     stamps: nat -> string, ids: nat -> string, nows: nat -> int) returns (shouldReject: bool)
      modifies store, llm
      ensures (shouldReject, Env(store.files, llm.script, llm.asked))
           == RunSteps(Env(old(store.files), old(llm.script), old(llm.asked)),
                       ReviewStep(agent, chainID, txs, codecs, stamps, ids, nows), |txs|)
    {
      ghost var start := Env(store.files, llm.script, llm.asked);
      ghost var step := ReviewStep(agent, chainID, txs, codecs, stamps, ids, nows);
      shouldReject := false;
      var i := 0;
      while i < |txs|
        invariant 0 <= i <= |txs|
        invariant (shouldReject, Env(store.files, llm.script, llm.asked)) == RunSteps(start, step, i)
      {
        ghost var before := Env(store.files, llm.script, llm.asked);
        ghost var raisedBefore := shouldReject;
        var rejects := ReviewTransaction(agent, txs[i], store, llm, codecs, stamps(i), ids(i), nows(i));
        ReviewStepAt(before, agent, chainID, txs, codecs, stamps, ids, nows, i);
        RunStepsExtend(start, step, i, raisedBefore, before);
        if rejects {
          shouldReject := true;
        }
        i := i + 1;
      }
    }

    /**
     * ProcessProposal: logs the node's address; without a bound agent it
     * accepts; otherwise it logs the agent's name, has it deliberate on every
     * transaction and rejects when any verdict was negative.
     */
    method ProcessProposal(txs: seq<Bytes>, registry: AgentRegistry.Registry, store: Store, llm: Llm, codecs: Codecs,
                           validatorStamp: string, agentStamp: string, stamps: nat -> string,
                           ids: nat -> string, nows: nat -> int) returns (status: Status)
      modifies store, llm
      ensures (status, Env(store.files, llm.script, llm.asked))
           == Proposal(Env(old(store.files), old(llm.script), old(llm.asked)), registry.agents, registry.validatorMap,
                       chainID, selfValidatorAddr, txs, codecs, validatorStamp, agentStamp, stamps, ids, nows)
    {
      store.LogDiscussion("Validator", selfValidatorAddr, chainID, false, validatorStamp);
      var (currentAgent, found) := AgentRegistry.GetAgentByValidator(registry.agents, registry.validatorMap, chainID, selfValidatorAddr);
      if !found {
        return Accept;
      }
      store.LogDiscussion("Agent", currentAgent.name, chainID, false, agentStamp);
      var shouldReject := ReviewAll(currentAgent, txs, store, llm, codecs, stamps, ids, nows);
      status := if shouldReject then Reject else Accept;
    }
  }

  // ---------------------------------------------------- validator set laws

  /** FirstMatch is pinned down by its contract: the index of a match with none before it. */
  lemma FirstMatchAt(vals: seq<ValidatorUpdate>, key: Bytes, i: nat)
    requires i <= |vals|
    requires forall j :: 0 <= j < i ==> KeyOf(vals[j]) != key
    requires i < |vals| ==> KeyOf(vals[i]) == key
    ensures FirstMatch(vals, key) == i
  {
  }

  /**
   * RegisterValidator consults the current set only: a key it holds leaves
   * the queue as it was, any other key is queued once more at the end.
   */
  lemma RegistrationQueues(vals: seq<ValidatorUpdate>, pending: seq<ValidatorUpdate>, key: Bytes, power: int)
    ensures (exists i :: 0 <= i < |vals| && KeyOf(vals[i]) == key) ==> Registration(vals, pending, key, power) == pending
    ensures (forall i :: 0 <= i < |vals| ==> KeyOf(vals[i]) != key) ==>
              Registration(vals, pending, key, power) == pending + [Ed25519Update(key, power)]
  {
  }

  /** Two registrations of a key the set lacks, in one block, queue it twice. */
  lemma RegisterTwiceQueuesTwice(vals: seq<ValidatorUpdate>, pending: seq<ValidatorUpdate>, key: Bytes, power: int)
    requires key !in KeySet(vals)
    ensures var u := Ed25519Update(key, power);
            Registration(vals, Registration(vals, pending, key, power), key, power) == pending + [u, u]
  {
  }

  /** The keys of a non-empty list: those of all but its last record, and the last record's. */
  lemma KeySetSnoc(s: seq<ValidatorUpdate>)
    requires s != []
    ensures KeySet(s) == KeySet(s[..|s| - 1]) + {KeyOf(s[|s| - 1])}
  {
    var init := s[..|s| - 1];
    forall k | k in KeySet(s) ensures k in KeySet(init) + {KeyOf(s[|s| - 1])} {
      var j :| 0 <= j < |s| && KeyOf(s[j]) == k;
      if j < |init| {
        assert s[j] == init[j];
      }
    }
    forall k | k in KeySet(init) ensures k in KeySet(s) {
      var j :| 0 <= j < |init| && KeyOf(init[j]) == k;
      assert s[j] == init[j];
    }
  }

  /** Applying one update keeps every slot of the list, leaves all others untouched, and keeps each slot's key. */
  lemma ApplyUpdateSlots(vals: seq<ValidatorUpdate>, u: ValidatorUpdate)
    ensures var after := ApplyUpdate(vals, u);
            |vals| <= |after| <= |vals| + 1
            && (forall i :: 0 <= i < |vals| && KeyOf(vals[i]) != KeyOf(u) ==> after[i] == vals[i])
            && (forall i :: 0 <= i < |vals| ==> KeyOf(after[i]) == KeyOf(vals[i]))
  {
  }

  /**
   * EndBlock's merge never moves a record: the merged list starts with as
   * many slots as the old one, every slot keeps its key, and a slot whose key
   * no update carries keeps its record; at most one slot per update is added.
   */
  lemma {:induction false} MergeKeepsPositions(vals: seq<ValidatorUpdate>, updates: seq<ValidatorUpdate>)
    ensures var m := Merge(vals, updates);
            |vals| <= |m| <= |vals| + |updates|
            && (forall i :: 0 <= i < |vals| ==> KeyOf(m[i]) == KeyOf(vals[i]))
            && (forall i :: 0 <= i < |vals| && KeyOf(vals[i]) !in KeySet(updates) ==> m[i] == vals[i])
    decreases |updates|
  {
    if updates != [] {
      var init, u := updates[..|updates| - 1], updates[|updates| - 1];
      MergeKeepsPositions(vals, init);
      ApplyUpdateSlots(Merge(vals, init), u);
      KeySetSnoc(updates);
    }
  }

  /** The keys after one update are the old keys plus the update's. */
  lemma ApplyUpdateKeys(vals: seq<ValidatorUpdate>, u: ValidatorUpdate)
    ensures KeySet(ApplyUpdate(vals, u)) == KeySet(vals) + {KeyOf(u)}
  {
    var after := ApplyUpdate(vals, u);
    var i := FirstMatch(vals, KeyOf(u));
    if i < |vals| {
      forall k | k in KeySet(vals) + {KeyOf(u)} ensures k in KeySet(after) {
        if k == KeyOf(u) {
          assert KeyOf(after[i]) == k;
        } else {
          var j :| 0 <= j < |vals| && KeyOf(vals[j]) == k;
          assert KeyOf(after[j]) == k;
        }
      }
      forall k | k in KeySet(after) ensures k in KeySet(vals) + {KeyOf(u)} {
        var j :| 0 <= j < |after| && KeyOf(after[j]) == k;
        if j != i {
          assert after[j] == vals[j];
        }
      }
    } else {
      forall k | k in KeySet(vals) + {KeyOf(u)} ensures k in KeySet(after) {
        if k == KeyOf(u) {
          assert KeyOf(after[|vals|]) == k;
        } else {
          var j :| 0 <= j < |vals| && KeyOf(vals[j]) == k;
          assert KeyOf(after[j]) == k;
        }
      }
      forall k | k in KeySet(after) ensures k in KeySet(vals) + {KeyOf(u)} {
        var j :| 0 <= j < |after| && KeyOf(after[j]) == k;
        if j < |vals| {
          assert after[j] == vals[j];
        }
      }
    }
  }

  /** The merged set holds exactly the old keys and the keys of the updates. */
  lemma {:induction false} MergeKeys(vals: seq<ValidatorUpdate>, updates: seq<ValidatorUpdate>)
    ensures KeySet(Merge(vals, updates)) == KeySet(vals) + KeySet(updates)
    decreases |updates|
  {
    if updates == [] {
      assert KeySet(updates) == {};
    } else {
      var init, u := updates[..|updates| - 1], updates[|updates| - 1];
      MergeKeys(vals, init);
      ApplyUpdateKeys(Merge(vals, init), u);
      KeySetSnoc(updates);
    }
  }

  /** After one update, its key finds it, and every other key finds what it found before. */
  lemma ApplyUpdateLookup(vals: seq<ValidatorUpdate>, u: ValidatorUpdate, key: Bytes)
    ensures Lookup(ApplyUpdate(vals, u), key) == if KeyOf(u) == key then Some(u) else Lookup(vals, key)
  {
    var after := ApplyUpdate(vals, u);
    var i := FirstMatch(vals, KeyOf(u));
    var f := FirstMatch(vals, key);
    if KeyOf(u) == key {
      FirstMatchAt(after, key, i);
    } else if i < |vals| {
      FirstMatchAt(after, key, f);
    } else {
      FirstMatchAt(after, key, if f < |vals| then f else |after|);
    }
  }

  /**
   * The last pending update for a key is the record EndBlock leaves for it;
   * a key no update carries finds the record it found before.
   */
  lemma {:induction false} MergeLastWins(vals: seq<ValidatorUpdate>, updates: seq<ValidatorUpdate>, key: Bytes)
    ensures Lookup(Merge(vals, updates), key)
         == if LastUpdate(updates, key).Some? then LastUpdate(updates, key) else Lookup(vals, key)
    decreases |updates|
  {
    if updates != [] {
      var init, u := updates[..|updates| - 1], updates[|updates| - 1];
      MergeLastWins(vals, init, key);
      ApplyUpdateLookup(Merge(vals, init), u, key);
    }
  }

  /** A merge never creates two records with one key where there were none. */
  lemma {:induction false} MergeKeepsKeysDistinct(vals: seq<ValidatorUpdate>, updates: seq<ValidatorUpdate>)
    requires DistinctKeys(vals)
    ensures DistinctKeys(Merge(vals, updates))
    decreases |updates|
  {
    if updates != [] {
      var init, u := updates[..|updates| - 1], updates[|updates| - 1];
      MergeKeepsKeysDistinct(vals, init);
      var m := Merge(vals, init);
      var i := FirstMatch(m, KeyOf(u));
      if i == |m| {
        forall a, b | 0 <= a < b < |m| + 1 ensures KeyOf((m + [u])[a]) != KeyOf((m + [u])[b]) {
          if b == |m| {
            assert (m + [u])[a] == m[a];
          }
        }
      }
    }
  }

  /**
   * A key the validator set lacks, once registered through DeliverTx, is held
   * with the registration power after the next EndBlock merges the pending
   * updates into the set.
   */
  lemma RegisteredThenMerged(vals: seq<ValidatorUpdate>, pending: seq<ValidatorUpdate>, key: Bytes)
    requires key !in KeySet(vals)
    ensures Lookup(Merge(vals, Registration(vals, pending, key, RegistrationPower)), key)
         == Some(Ed25519Update(key, RegistrationPower))
  {
    var queued := pending + [Ed25519Update(key, RegistrationPower)];
    assert queued[..|queued| - 1] == pending;
    MergeLastWins(vals, queued, key);
  }

  // ------------------------------------------------------- block proposals

  /** PrepareProposal's filter works transaction by transaction: it distributes over concatenation. */
  lemma {:induction false} AdmittedAppend(a: seq<Bytes>, b: seq<Bytes>, codecs: Codecs)
    ensures Admitted(a + b, codecs) == Admitted(a, codecs) + Admitted(b, codecs)
    decreases |b|
  {
    if b == [] {
      assert a + b == a;
    } else {
      var init, last := b[..|b| - 1], b[|b| - 1];
      var ab := a + b;
      assert ab[..|ab| - 1] == a + init && ab[|ab| - 1] == last;
      AdmittedAppend(a, init, codecs);
      var tail := if Admissible(last, codecs) then [last] else [];
      AppendAssoc(Admitted(a, codecs), Admitted(init, codecs), tail);
    }
  }

  /** A transaction survives PrepareProposal exactly when it was proposed and is admissible. */
  lemma {:induction false} AdmittedMembers(txs: seq<Bytes>, codecs: Codecs, raw: Bytes)
    ensures raw in Admitted(txs, codecs) <==> raw in txs && Admissible(raw, codecs)
  {
    if txs != [] {
      var init := txs[..|txs| - 1];
      AdmittedMembers(init, codecs, raw);
      assert txs == init + [txs[|txs| - 1]];
    }
  }

  /** Everything kept is admissible, so filtering a second time changes nothing. */
  lemma {:induction false} AdmittedIdempotent(txs: seq<Bytes>, codecs: Codecs)
    ensures Admitted(Admitted(txs, codecs), codecs) == Admitted(txs, codecs)
  {
    if txs != [] {
      var init, last := txs[..|txs| - 1], txs[|txs| - 1];
      AdmittedIdempotent(init, codecs);
      var tail := if Admissible(last, codecs) then [last] else [];
      AdmittedAppend(Admitted(init, codecs), tail, codecs);
      if Admissible(last, codecs) {
        assert [last][..0] == [];
      }
    }
  }

  /**
   * DeliverTx's answer for each kind of transaction: an undecodable one, and a
   * paper whose content does not decode, get code 1; a register_validator gets
   * 1 without data, 0 with a 32-byte key and panics otherwise; every other type
   * gets 0.
   */
  lemma DeliverTxCodes(raw: Bytes, codecs: Codecs)
    ensures codecs.transaction(raw).None? ==> DeliverTxResult(raw, codecs) == Answered(1)
    ensures codecs.transaction(raw).Some? ==>
              var tx := codecs.transaction(raw).value;
              (tx.txType == "submit_paper" ==>
                 DeliverTxResult(raw, codecs) == Answered(if codecs.paper(tx.content).Some? then 0 else 1))
              && (tx.txType == "register_validator" ==>
                    DeliverTxResult(raw, codecs)
                    == if tx.data == [] then Answered(1) else if |tx.data| == Ed25519KeySize then Answered(0) else Panicked)
              && (tx.txType != "submit_paper" && tx.txType != "register_validator" ==> DeliverTxResult(raw, codecs) == Answered(0))
  {
  }

  /**
   * PrepareProposal and DeliverTx disagree on the register_validator
   * transactions without a proper key: one without data is proposed, then
   * answered with code 1 when delivered, and one whose data is not 32 bytes
   * long is proposed, then panics. Undecodable bytes are neither proposed nor
   * accepted, although CheckTx admits them to the mempool.
   */
  lemma ProposedButRefused(raw: Bytes, codecs: Codecs)
    ensures Admissible(raw, codecs) && DeliverTxResult(raw, codecs) == Answered(1)
        <==> codecs.transaction(raw).Some? && codecs.transaction(raw).value.txType == "register_validator"
             && codecs.transaction(raw).value.data == []
    ensures Admissible(raw, codecs) && DeliverTxResult(raw, codecs) == Panicked
        <==> codecs.transaction(raw).Some? && codecs.transaction(raw).value.txType == "register_validator"
             && |codecs.transaction(raw).value.data| !in {0, Ed25519KeySize}
    ensures codecs.transaction(raw).None? ==>
              !Admissible(raw, codecs) && DeliverTxResult(raw, codecs) == Answered(1) && CheckTx(raw) == 0
  {
  }

  /** DeliverTx queues a key exactly for a register_validator it answers with code 0. */
  lemma RegistrationOnlyOnSuccess(raw: Bytes, codecs: Codecs)
    ensures RegisteredKey(raw, codecs).Some?
        <==> codecs.transaction(raw).Some? && codecs.transaction(raw).value.txType == "register_validator"
             && DeliverTxResult(raw, codecs) == Answered(0)
    ensures RegisteredKey(raw, codecs).Some? ==> |RegisteredKey(raw, codecs).value| == Ed25519KeySize
  {
  }

  /** An undecodable transaction, an undecodable paper and an unknown type take no part in the review. */
  lemma TxStepIgnores(env: Env, agent: Agent, chainID: string, raw: Bytes, codecs: Codecs,
                      timestamp: string, id: string, now: int)
    requires codecs.transaction(raw).None?
          || (codecs.transaction(raw).value.txType == "submit_paper" && codecs.paper(codecs.transaction(raw).value.content).None?)
          || codecs.transaction(raw).value.txType !in {"submit_paper", "discuss_transaction", "loan_request"}
    ensures TxStep(env, agent, chainID, raw, codecs, timestamp, id, now) == (false, env)
  {
  }

  /**
   * An agent that is not a validator gets zero verdicts, which count as
   * negative: any decodable paper, discussion or loan request makes it reject.
   */
  lemma NonValidatorRejects(env: Env, agent: Agent, chainID: string, raw: Bytes, codecs: Codecs,
                            timestamp: string, id: string, now: int)
    requires !agent.isValidator
    requires codecs.transaction(raw).Some?
    requires var tx := codecs.transaction(raw).value;
             (tx.txType == "submit_paper" && codecs.paper(tx.content).Some?)
             || tx.txType == "discuss_transaction" || tx.txType == "loan_request"
    ensures TxStep(env, agent, chainID, raw, codecs, timestamp, id, now).0
  {
  }

  /** One more step of the loop: the flag is or-ed with the step's and the state is the step's. */
  lemma RunStepsExtend<S>(s: S, step: (S, nat) -> (bool, S), n: nat, raised: bool, e: S)
    requires RunSteps(s, step, n) == (raised, e)
    ensures RunSteps(s, step, n + 1) == (raised || step(e, n).0, step(e, n).1)
  {
  }

  /** Step i of the fold is the deliberation on the i-th transaction. */
  lemma ReviewStepAt(e: Env, agent: Agent, chainID: string, txs: seq<Bytes>, codecs: Codecs,
                     stamps: nat -> string, ids: nat -> string, nows: nat -> int, i: nat)
    requires i < |txs|
    ensures ReviewStep(agent, chainID, txs, codecs, stamps, ids, nows)(e, i)
         == TxStep(e, agent, chainID, txs[i], codecs, stamps(i), ids(i), nows(i))
  {
  }

  /** The flag ends up raised exactly when some step, run on the state the earlier steps left, raised it. */
  lemma {:induction false} RunStepsRaisedIff<S>(s: S, step: (S, nat) -> (bool, S), n: nat)
    ensures RunSteps(s, step, n).0 <==> exists i :: 0 <= i < n && step(RunSteps(s, step, i).1, i).0
  {
    if n > 0 {
      RunStepsRaisedIff(s, step, n - 1);
    }
  }

  /**
   * ProcessProposal's verdict in closed form: REJECT exactly when an agent is
   * bound to this node and its deliberation on some transaction, in the state
   * the earlier ones left, was negative; so an unbound node and an empty block
   * are always accepted.
   */
  lemma ProposalStatus(env: Env, agents: AgentRegistry.AgentTable, bindings: AgentRegistry.ValidatorTable,
                       chainID: string, selfAddr: string, txs: seq<Bytes>, codecs: Codecs,
                       validatorStamp: string, agentStamp: string, stamps: nat -> string,
                       ids: nat -> string, nows: nat -> int)
    ensures var (agent, found) := AgentRegistry.GetAgentByValidator(agents, bindings, chainID, selfAddr);
            var start := env.(files := WithLogEntry(WithLogEntry(env.files, "Validator", selfAddr, chainID, false, validatorStamp),
                                                    "Agent", agent.name, chainID, false, agentStamp));
            var step := ReviewStep(agent, chainID, txs, codecs, stamps, ids, nows);
            Proposal(env, agents, bindings, chainID, selfAddr, txs, codecs, validatorStamp, agentStamp, stamps, ids, nows).0 == Reject
            <==> found && (exists i :: 0 <= i < |txs| &&
                             TxStep(RunSteps(start, step, i).1, agent, chainID, txs[i], codecs, stamps(i), ids(i), nows(i)).0)
    ensures txs == [] ==> Proposal(env, agents, bindings, chainID, selfAddr, txs, codecs, validatorStamp, agentStamp, stamps, ids, nows).0 == Accept
  {
    var (agent, found) := AgentRegistry.GetAgentByValidator(agents, bindings, chainID, selfAddr);
    var start := env.(files := WithLogEntry(WithLogEntry(env.files, "Validator", selfAddr, chainID, false, validatorStamp),
                                            "Agent", agent.name, chainID, false, agentStamp));
    var step := ReviewStep(agent, chainID, txs, codecs, stamps, ids, nows);
    RunStepsRaisedIff(start, step, |txs|);
  }

  lemma EndsWith(a: string, b: string)
    ensures (a + b)[|a + b| - |b|..] == b
  {
  }

  /** The logged text of a paper review ends with its verdict. */
  lemma PaperReviewTextShowsApproval(r: PaperReview)
    ensures var t := PaperReviewText(r); |t| >= 5 && (r.approval <==> t[|t| - 5..] == "true}")
  {
    var x := "{Summary:" + r.summary + " Flaws:" + GoList(r.flaws) + " Suggestions:" + GoList(r.suggestions)
             + " IsReproducible:" + BoolToString(r.isReproducible) + " Approval:";
    var tail := BoolToString(r.approval) + "}";
    assert PaperReviewText(r) == x + tail;
    EndsWith(x, tail);
    if !r.approval {
      assert (x + tail)[|x + tail| - 5..] == tail[1..];
      assert tail[1..][0] == 'a';
    }
  }

  /** The logged text of a loan review ends with its verdict. */
  lemma LoanReviewTextShowsApproval(r: LoanReview)
    ensures var t := LoanReviewText(r); |t| >= 5 && (r.approval <==> t[|t| - 5..] == "true}")
  {
    var x := "{Summary:" + r.summary + " RiskFactors:" + GoList(r.riskFactors) + " Terms:" + GoList(r.terms) + " Approval:";
    var tail := BoolToString(r.approval) + "}";
    assert LoanReviewText(r) == x + tail;
    EndsWith(x, tail);
    if !r.approval {
      assert (x + tail)[|x + tail| - 5..] == tail[1..];
      assert tail[1..][0] == 'a';
    }
  }
}
