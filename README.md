# Agentic consensus, modelled in Dafny

Agentic consensus is a blockchain whose validators are AI agents. A
CometBFT ABCI application (`consensus/abci/application.go`) admits
transactions. Before it accepts a proposed block, it has the validator's
agent deliberate on each research-paper or loan transaction:

- the agent holds several rounds of review with a language model;
- each round writes one line to a per-chain transcript file, such as
  `[Round 2] (true) |@alice|: looks sound`;
- a file watcher (`communication/discussion_watcher.go`) parses those lines
  back into votes and broadcasts them.

Around this sit:

- the agent and chain registries;
- the forum and the key-value database;
- the HTTP handler arithmetic that assigns an agent's ports;
- two pieces of the TypeScript client: the websocket service and the
  agent-creation form state.

The model keeps each part in the form the code has:

- Objects whose fields change become classes with those fields:
  - the ABCI `Application`;
  - the registries, the forum board and the database;
  - the file store behind `utils/helpers.go`;
  - the file tailer;
  - the websocket service.
- Their methods state their whole new state in terms of specification
  functions.
- Loops stay loops. Examples are the round loops of the paper and loan
  reviews, the trait loop, EndBlock's merge, PrepareProposal's filter,
  ProcessProposal's review loop and the in-place shuffle.
- Pure code becomes functions. Examples are the line format, the regular
  expression, the string conversions and the form handlers.

The whole model runs on three kinds of inputs:

- a scripted language model (`Oracle.Llm`), whose k-th call receives the
  k-th scripted reply;
- the clock, UUIDs, CRC-32 checksums and random draws, as parameters;
- a file system held as a map from path to content.

The main results:

- A paper review writes exactly three transcript lines and a loan review
  writes four. For an agent name without '|' or newline and one-line
  summaries, reading them back with the watcher's parser yields exactly the
  rounds that were written (`DiscussionWatcher.RoundLinesRoundTrip`); a name
  holding "|: " breaks this (`DiscussionWatcher.PipeInNameBroadcastsZeroVerdict`).
- The file tailer emits the same votes whether a transcript is read in one
  go or line by line as it grows (`DiscussionWatcher.TailingMatchesReplay`).
- ProcessProposal rejects a block exactly when the proposer is a known agent
  and some transaction gets a negative verdict (`Abci.ProposalStatus`).
- EndBlock's merge keeps validator keys distinct, and the last update for a
  key wins (`Abci.MergeLastWins`, `Abci.MergeKeepsKeysDistinct`).
- An agent registered through the HTTP handler makes its chain serve
  requests sent to its API port, and when no other node of the chain has
  that port it is the only node serving it (`Handlers.RegisteredAgentReachable`).
  Ports repeat every 10000 checksums (`Handlers.SharedApiPort`).

Where the code and its design notes disagree, the model follows the code:

- A review the model could not parse has the zero verdict. It counts as a
  rejection in ProcessProposal.
- Its transcript line reads `(false)`. It has an empty summary, so the
  watcher never broadcasts it, as long as the agent's name has no '|'.
- A loan deliberation runs four rounds, not three.
- `resetForm` sets the role to "producer", although the form starts with
  "validator".
- `GetAllValidatorAgentMappings` maps each agent ID to itself.
- `disconnect` does not stop the reconnect schedule.

## Model

| member | source | states |
|---|---|---|
| Text.AtoiOfIntToString | utils/helpers.go:71-101 | strconv.Atoi reads back, unchanged, every 64-bit integer that "%d" writes, so the round counter survives a write and a read. |
| Text.ScanIntOfIntToString | communication/discussion_watcher.go:132-139 | fmt.Sscanf with "%d" reads back every 64-bit integer "%d" writes. |
| Text.Atoi | utils/helpers.go:77-86 | Whatever the text, the value Atoi reports is a 64-bit integer. |
| Text.AtoiSyntaxError | utils/helpers.go:77-86 | Text that is not an optionally signed, non-empty run of digits, and whose leading digits stay within 2^64 - 1, makes strconv.Atoi fail with a syntax error, and the discarded error leaves round 0. |
| Text.AtoiDigits | utils/helpers.go:77-86 | A run of digits, bare, after '+' or after '-', reads as its signed decimal value clamped to the 64-bit range. |
| Text.AtoiRejects | utils/helpers.go:77-86 | A counter with a trailing newline, a leading space, a doubled sign, a lone sign or no text at all reads as 0. |
| Text.AtoiRangeError | utils/helpers.go:77-86 | Once the leading digits pass 2^64 - 1, strconv.Atoi stops with a range error before reading further, and the value is the 64-bit bound of the sign. |
| Text.AtoiOverflowThenJunk | utils/helpers.go:77-86 | A digit run above 2^64 - 1 followed by a non-digit reads as the largest 64-bit integer, or the smallest after '-', not as 0. |
| Text.AtoiOverflowExample | utils/helpers.go:77-86 | The counter text "99999999999999999999x" reads as the largest 64-bit integer. |
| Text.LastIndexOf | api/handlers/handlers.go:194-198 | -1 exactly when the character is absent; otherwise a position holding it with no occurrence after it. |
| Text.SplitOfJoin | ai/ai.go:157-178 | Joining parts that hold no separator and splitting the result gives back the parts. |
| Oracle.Llm.Generate | ai/ai.go:185-187 | Each call is answered by the next scripted reply; the script shrinks by one and the prompt is recorded. |
| Oracle.Llm.Query | ai/ai.go:136-155 | A call fails, reporting no text, exactly when no reply is left; otherwise it returns the next reply. |
| TranscriptStore.RoundPath | utils/helpers.go:71-101 | The round-counter file of a chain is never the transcript file of the same chain. |
| TranscriptStore.LogPath | utils/helpers.go:32-60 | The discussion log of a chain is neither its transcript nor its round-counter file. |
| TranscriptStore.TranscriptOfRoundSuffixedChainIsCounter | utils/helpers.go:71-119 | The counter file of chain c is the transcript file of chain c + "_round", so the two paths can coincide across chains. |
| TranscriptStore.StoredRound | utils/helpers.go:71-87 | Whatever the counter file holds, or when it is missing, the round read is a 64-bit integer. |
| TranscriptStore.StoredRoundUnparsable | utils/helpers.go:71-87 | A counter file that strconv.Atoi rejects reads as round 0, or as the 64-bit bound of its sign when its leading digits pass 2^64 - 1. |
| TranscriptStore.StoredRoundOfDigits | utils/helpers.go:71-87 | A missing counter reads as 1; one holding digits, with or without '-', reads as their clamped value. |
| TranscriptStore.Role | utils/helpers.go:32-60 | The role written is "Proposer" exactly for the proposer. |
| TranscriptStore.WithLogEntry | utils/helpers.go:32-60 | Logging changes only the chain's log file, which becomes its earlier content (empty when missing) followed by one entry "[time] name (role): message" and a newline. |
| TranscriptStore.Store.GetDiscussionLog | utils/helpers.go:104-119 | Returns the transcript, or "" when it is missing, in which case the file is created empty; nothing else changes. |
| TranscriptStore.Store.AppendDiscussionLog | utils/helpers.go:122-139 | The transcript becomes its old content, or "" when missing, followed by the line and a newline; no other file changes. |
| TranscriptStore.Store.GetCurrentRound | utils/helpers.go:71-87 | A missing counter reads as 1 and is created holding "1"; an existing one reads as Atoi of its content and is left alone. |
| TranscriptStore.Store.IncrementRound | utils/helpers.go:90-101 | The counter file then holds the decimal text of the current round plus one, wrapped at 64 bits; it reads back as that value. |
| TranscriptStore.NextRoundText | utils/helpers.go:90-101 | The text IncrementRound writes reads back as the incremented round, and is "2" when no counter existed. |
| TranscriptStore.Store.LogDiscussion | utils/helpers.go:32-60 | The files become those after one entry is appended to the chain's log file, and nothing else changes. |
| TranscriptStore.AppendKeepsOtherFiles | utils/helpers.go:122-139 | Appending to one chain's transcript leaves every other path untouched. |
| RoundLog.RoundLinesShape | ai/paper_review.go:33-47 | The round lines are empty exactly when there are no rounds, and otherwise end with a newline. |
| RoundLog.RoundLinesAppend | ai/paper_review.go:36-42 | Appending round k's line to text ending in the earlier rounds' lines gives text ending in the lines through round k. |
| RoundLog.ClosedFilesStep | ai/paper_review.go:36-42 | One more round's append to the transcript takes the file state after n rounds to the state after n + 1. |
| RoundLog.RoundLinesOfThree | ai/paper_review.go:36-42 | The lines of three rounds are the formatted lines for rounds 0, 1 and 2, in that order. |
| RoundLog.RoundLinesOfFour | ai/loan.go:26-32 | The lines of four rounds are the formatted lines for rounds 0 to 3, in order. |
| PaperReviewing.GetPaperReview | ai/paper_review.go:50-125 | A non-validator gets the zero review without any model call. A validator makes one call; the review is what the reply decodes to, or the zero review. |
| PaperReviewing.GetMultiRoundReview | ai/paper_review.go:33-47 | The review and the resulting deliberation state are those of three rounds followed by the final review. |
| PaperReviewing.RoundVerdict | ai/paper_review.go:36-42 | Once the earlier rounds have made their calls, the next reply is the k-th scripted one. Round k's entry is that reply's approval and summary. |
| PaperReviewing.PaperRoundsClosedForm | ai/paper_review.go:36-42 | The round loop equals its closed form: the replies are consumed in order, and the transcript gains one line per round. |
| PaperReviewing.PaperDeliberationClosedForm | ai/paper_review.go:33-47 | The whole deliberation equals its closed form: the verdicts of replies 0-2, then the final review from reply 3. |
| PaperReviewing.PaperTranscript | ai/paper_review.go:33-47 | The transcript ends up as its old content followed by exactly the three lines for rounds 0, 1 and 2. |
| PaperReviewing.PaperEntryLines | ai/paper_review.go:39-40 | Each of the three lines carries its round number, that round's approval, the agent's name and that round's summary. |
| PaperReviewing.PaperValidatorDeliberation | ai/paper_review.go:33-53 | A validator makes four calls; the final prompt shows the finished transcript, and the returned review decodes reply 3. |
| PaperReviewing.PaperNonValidator | ai/paper_review.go:33-53 | A non-validator makes no call and returns the zero review. It writes three "(false)" lines with empty summaries, which the watcher never broadcasts, for a name without '\|' or newline. |
| PaperReviewing.PaperRoundsBroadcast | communication/discussion_watcher.go:103-129 | For a non-empty name without '\|' or newline and one-line summaries, parsing the three appended lines gives back exactly the votes of the rounds written. |
| LoanReviewing.GetLoanReview | ai/loan.go:39-107 | A non-validator gets the zero review without a call. A validator makes one call; the review is what the reply decodes to, or the zero review. |
| LoanReviewing.GetMultiRoundLoanReview | ai/loan.go:23-36 | The review and the state are those of four rounds followed by the final review. |
| LoanReviewing.RoundVerdict | ai/loan.go:26-32 | Once the earlier rounds have made their calls, the next reply is the k-th one. Round k's entry is that reply's approval and summary. |
| LoanReviewing.LoanRoundsClosedForm | ai/loan.go:26-32 | The round loop equals its closed form: the replies are consumed in order, with one line per round. |
| LoanReviewing.LoanDeliberationClosedForm | ai/loan.go:23-36 | The whole deliberation equals its closed form: verdicts from replies 0-3, then the final review from reply 4. |
| LoanReviewing.LoanTranscript | ai/loan.go:23-36 | The transcript ends up as its old content followed by exactly the four lines for rounds 0-3. |
| LoanReviewing.LoanEntryLines | ai/loan.go:29-30 | Each line carries its round, approval, agent name and summary. |
| LoanReviewing.LoanValidatorDeliberation | ai/loan.go:23-42 | A validator makes five calls; the last one sees the finished transcript and decides the review. |
| LoanReviewing.LoanNonValidator | ai/loan.go:23-42 | A non-validator makes no call. It writes four "(false)" lines with empty summaries, which the watcher never broadcasts, for a name without '\|' or newline. |
| LoanReviewing.LoanRoundsBroadcast | communication/discussion_watcher.go:103-129 | For a non-empty name without '\|' or newline and one-line summaries, parsing the four appended lines gives back exactly the votes written. |
| ValidatorDiscussion.CollectTraits | ai/discussion.go:35-47 | The loop collects exactly the traits of the metadata, in iteration order. |
| ValidatorDiscussion.TraitsMembership | ai/discussion.go:35-47 | A text is a trait exactly when it is a list item, or a scalar under a key that is not api_key or endpoint. |
| ValidatorDiscussion.EntryTraitsAdmit | ai/discussion.go:37-46 | A list entry contributes all its items; a scalar contributes itself unless its key is secret. |
| ValidatorDiscussion.SecretsNeverShown | ai/discussion.go:43-45 | Metadata made only of secret scalars contributes no trait, so the persona ends right after its fixed prefix. |
| ValidatorDiscussion.TraitsAppend | ai/discussion.go:35-47 | The traits of concatenated metadata are the traits of each part, in order. |
| ValidatorDiscussion.PersonaShape | ai/discussion.go:33-48 | The persona starts with "You are <name>" and ends with the traits joined by ", ". |
| ValidatorDiscussion.GetValidatorDiscussion | ai/discussion.go:27-140 | A non-validator gets the empty record without a call. A validator makes one call, whose prompt holds the persona and the content; the record is built from the reply. |
| ValidatorDiscussion.DiscussionRecord | ai/discussion.go:121-137 | The record has round 1 exactly when the reply parsed, and then copies the discussion ID, the agent and the reply's fields. |
| ValidatorDiscussion.DiscussionTurnSupport | ai/discussion.go:27-140 | The record supports exactly when the agent is a validator and the reply parses with support. The files are untouched; a validator asks one prompt and a non-validator none. |
| Selection.FormatTransactions | ai/ai.go:157-163 | The listing is the lines "<i>: <from> (Fee: <fee>)" for every transaction, joined by newlines. |
| Selection.FormatTransactionsLines | ai/ai.go:157-163 | Splitting the listing at newlines gives back one line per transaction, in order. |
| Selection.FormatBlockSeesOnly | ai/ai.go:165-167 | Blocks that agree on height, transaction count and previous hash get the same summary. |
| Selection.ParseIndexesAsWritten | ai/ai.go:169-178 | As written, the parser returns no index for any reply. |
| Selection.IndexesOf | ai/ai.go:169-178 | Every index kept lies in [0, max). |
| Selection.IndexesOfAppend | ai/ai.go:169-178 | The indexes of parts written one after another come out one after another. |
| Selection.ParseIndexes | ai/ai.go:169-178 | The intended parser keeps, in the order of the parts, each comma-separated part that scans to an integer in [0, max). |
| Selection.ParseIndexesOfReply | ai/ai.go:169-178 | A reply listing in-range indexes in "%d" form, separated by commas, parses to exactly those indexes. |
| Selection.ParseIndexesOfZero | ai/ai.go:169-178 | The reply "0" to a one-transaction listing names transaction 0. |
| Selection.ShufflePermutes | ai/ai.go:180-183 | The shuffle keeps every transaction, as often as before. |
| Selection.RandomSelection | ai/ai.go:180-183 | The pool is shuffled in place, keeping its multiset. The selection is the first draw mod n elements, so it is shorter than the pool. |
| Selection.PickAll | ai/ai.go:105-111 | The loop picks the transactions the indexes name, in index order. |
| Selection.PickedFromPool | ai/ai.go:105-111 | Every selected transaction is one of the pool's. |
| Selection.SelectTransactions | ai/ai.go:83-112 | An empty pool gives no transactions and no call. Otherwise one query is made: a failed query falls back to the random selection, and a reply yields the transactions it names. |
| AgentRegistry.GetAgentByValidator | registry/agent_registry.go:109-123 | The agent is found exactly when the validator is bound to an ID and that agent exists in the chain; otherwise the zero agent is returned. |
| AgentRegistry.Registry.RegisterAgent | registry/agent_registry.go:74-83 | The agent is stored under its ID in its chain, the inner table being created if missing; the bindings are untouched. |
| AgentRegistry.Registry.LinkAgentToValidator | registry/agent_registry.go:86-106 | The binding is recorded, and the agent, if present, is marked as that validator. |
| AgentRegistry.Registry.GetAllAgents | registry/agent_registry.go:126-137 | Returns one entry per agent of the chain; an agent is listed exactly when it is stored, and when agents are keyed by their IDs no agent is listed twice. |
| AgentRegistry.Registry.GetAllValidatorAgentMappings | registry/agent_registry.go:140-151 | Maps each stored agent ID to that agent's ID field. |
| AgentRegistry.RegisterAgentStores | registry/agent_registry.go:74-83 | After registering, the chain holds the agent under its ID and every other entry is unchanged. |
| AgentRegistry.LinkBinds | registry/agent_registry.go:86-106 | After linking, the validator is bound to the agent ID. |
| AgentRegistry.LinkMarks | registry/agent_registry.go:86-106 | A linked agent present in the chain becomes a validator with that address. |
| AgentRegistry.RegisterLinkGet | registry/agent_registry.go:74-123 | Register, link and look up: the agent comes back, marked as that validator. |
| AgentRegistry.LinkUnknownAgentNotFound | registry/agent_registry.go:86-123 | Linking an ID that was never registered binds it, yet the lookup returns the zero agent. |
| AgentRegistry.KeyedByIdPreserved | registry/agent_registry.go:74-106 | Registering and linking keep every agent stored under its own ID. |
| AgentRegistry.MappingsAreIdentity | registry/agent_registry.go:140-151 | When agents are keyed by their ID, the validator-agent mapping maps every ID to itself. |
| ChainRegistry.GetNodeInfo | registry/chain_registry.go:100-111 | Found exactly when the node is registered, and then its info; otherwise the zero info. |
| ChainRegistry.IsValidator | registry/chain_registry.go:71-79 | True exactly when the node is registered and its ID starts with "validator". |
| ChainRegistry.Registry.RegisterNode | registry/chain_registry.go:23-31 | The node is stored under its ID in its chain, creating the chain's table if missing. |
| ChainRegistry.Registry.GetRPCPortForChain | registry/chain_registry.go:34-50 | Returns the RPC port of the chain's genesis node; an unknown chain or a chain without one gives the exact error text. |
| ChainRegistry.Registry.GetNodeByAPIPort | registry/chain_registry.go:53-68 | Finds a node of the chain whose API port has that decimal text, when there is one. |
| ChainRegistry.Registry.GetNodeInfoByChainID | registry/chain_registry.go:82-97 | A known chain gives a copy of its node table. An unknown chain gives an empty table and not-found. |
| ChainRegistry.RegisterNodeStores | registry/chain_registry.go:23-31 | After registering, the node is found under its ID and other nodes are unchanged. |
| ChainRegistry.RegisterNodeGenesis | registry/chain_registry.go:23-50 | Registering a genesis node gives the chain a genesis node. Registering an ordinary node never creates one. |
| ChainRegistry.RegisteredNodeServesItsPort | registry/chain_registry.go:23-68 | A freshly registered node is found by its API port. |
| ChainRegistry.RegisteredValidator | registry/chain_registry.go:71-79 | A registered node is a validator exactly when its ID starts with "validator". |
| Forum.WithReply | communication/forum.go:48-65 | A reply adds exactly one message, at the end, and changes nothing else of the thread. |
| Forum.Board.CreateThread | communication/forum.go:32-45 | A new empty thread is stored under its ID, replacing any earlier one. |
| Forum.Board.AddReply | communication/forum.go:48-65 | A missing thread gives "thread with id X does not exist" and no change; otherwise the message is appended. |
| Forum.Board.GetThread | communication/forum.go:68-77 | Succeeds exactly for a stored thread, and returns it; otherwise gives "thread with id X not found". |
| Forum.Board.GetAllThreads | communication/forum.go:80-89 | Lists every stored thread once. |
| Forum.RepliesInOrder | communication/forum.go:48-65 | A series of replies appears after the existing messages, in call order. |
| Forum.FreshThreadReplies | communication/forum.go:32-65 | A new thread after k replies holds exactly those k messages. |
| Forum.KeyedByThreadIDPreserved | communication/forum.go:32-65 | Creating and replying keep each thread under its own ID. |
| Database.Store.Set | core/database.go:22-37 | An encoding failure is returned and changes nothing; otherwise the key holds exactly the new encoding. |
| Database.Store.Get | core/database.go:40-48 | A missing key leaves the output alone without error; otherwise the decoder runs on the stored bytes into what the output held, and its result and error are returned. |
| Database.Store.Delete | core/database.go:51-55 | Removes exactly that key. |
| Database.SetThenGet | core/database.go:22-48 | Get after a successful Set decodes exactly the bytes Set stored, into the output's old value; when that decode yields the value set, Get returns it without error. |
| Database.SetOverwrites | core/database.go:22-48 | A second Set that encodes leaves the buffer, and what Get reads at every key, as the second Set alone would; one that fails keeps the first Set's buffer. |
| Database.DeleteOnlyKey | core/database.go:40-55 | After Delete the key reads as missing, and other keys read as before. |
| Handlers.AgentPorts | api/handlers/handlers.go:46-50 | The P2P port lies in 26656..36655; the RPC port is the next one and the API port the one after. |
| Handlers.ConflictExactly | api/handlers/handlers.go:46-55 | The genesis-port conflict fires exactly for checksums divisible by 10000. |
| Handlers.ApiPortOfHost | api/handlers/handlers.go:194-198 | The port text holds no ':', and is "" when the host has none. |
| Handlers.ApiPortOfHostWithPort | api/handlers/handlers.go:194-198 | A host "<name>:<port>" yields that port's text, whatever the name. |
| Handlers.RegisterAgent | api/handlers/handlers.go:36-110 | The agent is registered first. The answer is 200 exactly when there is no port conflict and the node launched, and then the node is registered; otherwise 500 with the nodes unchanged. |
| Handlers.CreateChainConflict | api/handlers/handlers.go:320-323 | CreateChain reports a conflict exactly when the chain already has a genesis node. |
| Handlers.RegisteredAgentReachable | api/handlers/handlers.go:93-99 | Once an agent's node is registered, some node of the chain serves a request sent to its API port; when no other node of the chain had that port, every node serving it is the agent's own, so it is the one GetNodeByAPIPort finds. |
| Handlers.SharedApiPort | api/handlers/handlers.go:46-50 | Checksums 10000 apart give the same ports, so two agents can share an API port. |
| Abci.Application.constructor | consensus/abci/application.go:29-37 | A fresh application has the chain ID and validator address, and no validators or pending updates. |
| Abci.Application.InitChain | consensus/abci/application.go:51-78 | The genesis validators become the set and are answered back with the fixed consensus parameters. |
| Abci.CheckTx | consensus/abci/application.go:86-88 | Every transaction is admitted to the mempool. |
| Abci.DeliverTxResult | consensus/abci/application.go:91-149 | DeliverTx answers with code 0 or 1, or panics exactly for a decodable register_validator whose data is neither empty nor 32 bytes long. |
| Abci.DeliverTxCodes | consensus/abci/application.go:91-149 | Code 1 for an undecodable transaction or paper and for a register_validator without data; a 32-byte key gets 0 and any other key panics; every other type gets 0. |
| Abci.Application.DeliverTx | consensus/abci/application.go:91-149 | Only a register_validator with a 32-byte key changes state, by registering it; the outcome, a code or a panic, is DeliverTxResult. |
| Abci.Application.RegisterValidator | consensus/abci/application.go:336-354 | A key that is not 32 bytes long panics and changes nothing; a key already in the set changes nothing; otherwise one ed25519 update with power 1000000 is queued. |
| Abci.Application.EndBlock | consensus/abci/application.go:157-193 | With nothing pending: no updates, no change. Otherwise: the pending updates are returned, merged into the set, and the queue emptied. |
| Abci.Application.PrepareProposal | consensus/abci/application.go:221-266 | Keeps exactly the admissible transactions, in order. |
| Abci.Application.ReviewTransaction | consensus/abci/application.go:287-327 | One loop iteration: the deliberation on that transaction and whether its verdict was negative. |
| Abci.Application.ReviewAll | consensus/abci/application.go:287-327 | The loop runs the deliberations on all transactions in order, logging transaction i's entry at its own clock reading, and ors their negative flags. |
| Abci.Application.ProcessProposal | consensus/abci/application.go:269-333 | The status and state are those of the proposal's specification, with the "Validator", the "Agent" and each transaction's log entry stamped by its own clock reading. |
| Abci.RegistrationQueues | consensus/abci/application.go:336-354 | Registering a new key appends its update; a key in the current set queues nothing. |
| Abci.RegisterTwiceQueuesTwice | consensus/abci/application.go:336-354 | Two registrations of a new key in one block queue it twice, because only the current set is checked. |
| Abci.ApplyUpdateSlots | consensus/abci/application.go:165-181 | One update replaces the first record with its key, or is appended; the other records stay in place. |
| Abci.MergeKeepsPositions | consensus/abci/application.go:165-181 | A merge keeps each record's slot and key, and leaves alone records whose key no update has. It adds at most one record per update. |
| Abci.ApplyUpdateKeys | consensus/abci/application.go:165-181 | After one update the keys are the old keys plus the update's. |
| Abci.MergeKeys | consensus/abci/application.go:165-189 | The merged set holds exactly the old keys and the updates' keys. |
| Abci.ApplyUpdateLookup | consensus/abci/application.go:165-181 | After an update its key finds it, and every other key finds what it found before. |
| Abci.MergeLastWins | consensus/abci/application.go:165-189 | After a merge each key finds the last update for it, or its old record when it had none. |
| Abci.MergeKeepsKeysDistinct | consensus/abci/application.go:165-189 | A merge keeps the keys distinct when they were. |
| Abci.RegisteredThenMerged | consensus/abci/application.go:157-354 | A key the set lacks, once registered, is found after the merge with power 1000000. |
| Abci.AdmittedAppend | consensus/abci/application.go:221-266 | The filter distributes over concatenation. |
| Abci.AdmittedMembers | consensus/abci/application.go:221-266 | A transaction survives exactly when it was proposed and is admissible. |
| Abci.AdmittedIdempotent | consensus/abci/application.go:221-266 | Filtering twice changes nothing. |
| Abci.ProposedButRefused | consensus/abci/application.go:86-354 | PrepareProposal keeps a transaction that DeliverTx refuses with code 1 exactly when it is a register_validator without data, and one on which DeliverTx panics exactly when its data has another length than 0 or 32. An undecodable transaction passes CheckTx but is dropped, and refused. |
| Abci.RegistrationOnlyOnSuccess | consensus/abci/application.go:117-130 | DeliverTx queues a key exactly for a register_validator it answers with code 0, and the key is 32 bytes long. |
| Abci.TxStepIgnores | consensus/abci/application.go:287-327 | An undecodable transaction or paper, or an unknown type, takes no part in the review. |
| Abci.NonValidatorRejects | consensus/abci/application.go:287-327 | For a non-validator agent, every reviewable paper, discussion or loan transaction counts as negative. |
| Abci.RunStepsRaisedIff | consensus/abci/application.go:285-331 | The flag is raised exactly when some step, run on the state the earlier steps left, raised it. |
| Abci.ProposalStatus | consensus/abci/application.go:269-333 | Reject exactly when the validator's agent is found and some step is negative; an empty block is accepted. |
| Abci.PaperReviewTextShowsApproval | consensus/abci/application.go:287-327 | The logged text of a paper review ends with its verdict. |
| Abci.LoanReviewTextShowsApproval | consensus/abci/application.go:287-327 | The logged text of a loan review ends with its verdict. |
| DiscussionWatcher.ParseInt | communication/discussion_watcher.go:132-139 | A digit string above the 64-bit maximum gives 0; any other digit string gives its value. |
| DiscussionWatcher.ProcessLineMatches | communication/discussion_watcher.go:103-129 | A line broadcasts at most once, and only when it matches the round pattern. |
| DiscussionWatcher.ParseRoundLine | communication/discussion_watcher.go:103-129 | A round line with a non-empty name without '\|' and a non-empty one-line summary parses to exactly the round, approval, name and summary written. |
| DiscussionWatcher.ProcessRoundLine | communication/discussion_watcher.go:103-129 | Such a line broadcasts the round, approval, name and trimmed summary written. |
| DiscussionWatcher.FindMatchNeedsPipes | communication/discussion_watcher.go:23-23 | No line matches without a '\|' followed later by another '\|' and at least three more characters. |
| DiscussionWatcher.ZeroRoundLineIgnored | communication/discussion_watcher.go:103-129 | A round line with an empty summary, for a name without '\|', is never broadcast. |
| DiscussionWatcher.PipeInNameBroadcastsZeroVerdict | communication/discussion_watcher.go:103-129 | The zero-verdict line for the name "a\|: z" parses with name "a" and message "z\|: ", and is broadcast. |
| DiscussionWatcher.ProcessTextOfLine | communication/discussion_watcher.go:45-57 | A single line followed by a newline is processed as that line alone. |
| DiscussionWatcher.ProcessOneMoreLine | communication/discussion_watcher.go:74-91 | One more complete line adds exactly that line's votes. |
| DiscussionWatcher.RoundLineVote | communication/discussion_watcher.go:103-129 | For a non-empty name without '\|' and a one-line summary, one round's line broadcasts nothing for an empty summary, and otherwise its vote. |
| DiscussionWatcher.RoundLineAppended | communication/discussion_watcher.go:74-91 | For a non-empty name without '\|' or newline and a one-line summary, one more round's line, appended after complete lines, adds that round's vote, if any. |
| DiscussionWatcher.ZeroRoundLinesIgnored | communication/discussion_watcher.go:103-129 | Round lines with zero verdicts are never broadcast, for a name without '\|' or newline. |
| DiscussionWatcher.RoundLinesRoundTrip | communication/discussion_watcher.go:103-129 | For a name without '\|' or newline and one-line summaries, parsing the lines of any run of rounds yields each round with a non-empty summary, in order. |
| DiscussionWatcher.WatchedPathAsWrittenMissesChain | communication/discussion_watcher.go:34-34 | As written, the tailer for a chain other than "mainnet" watches a file that is not that chain's transcript. |
| DiscussionWatcher.WatchedPath | communication/discussion_watcher.go:34-34 | The corrected tailer watches its chain's transcript. |
| DiscussionWatcher.Tailer.Watch | communication/discussion_watcher.go:26-66 | Starting watches its chain's transcript, creating it empty if missing. It replays the whole existing content and remembers its size. |
| DiscussionWatcher.Tailer.OnWrite | communication/discussion_watcher.go:74-91 | When the file has grown, a write event processes only the bytes past the remembered size and remembers the new size; otherwise nothing changes. |
| DiscussionWatcher.Tailer.Broadcast | communication/discussion_watcher.go:45-57 | Broadcasting a chunk emits exactly the votes its lines parse to. |
| DiscussionWatcher.Tailer.BroadcastLine | communication/discussion_watcher.go:51-56 | One line: an empty line is skipped, a matching line is broadcast once. |
| DiscussionWatcher.TailingMatchesReplay | communication/discussion_watcher.go:45-91 | Appending complete lines one write at a time emits the same votes as reading the final file in one go. |
| DiscussionWatcher.ReplayThenTail | communication/discussion_watcher.go:45-91 | A replay of the existing file, then tailing of the appended lines, emits exactly the votes of the whole final file. |
| WebSocketClient.Dispatch | client/src/services/websocket.ts:26-35 | A message that does not parse calls nothing; otherwise each callback of its type gets the payload, in set order. |
| WebSocketClient.Without | client/src/services/websocket.ts:63-65 | Removing a callback leaves exactly the other callbacks, and never lengthens the set. |
| WebSocketClient.WebSocketService.constructor | client/src/services/websocket.ts:3-7 | No socket, no subscribers and a reset counter. |
| WebSocketClient.WebSocketService.Connect | client/src/services/websocket.ts:10-15 | Nothing when the socket is open; otherwise a new connecting socket. |
| WebSocketClient.WebSocketService.OnOpen | client/src/services/websocket.ts:17-20 | The socket is open and the attempt counter is reset. |
| WebSocketClient.WebSocketService.OnMessage | client/src/services/websocket.ts:26-35 | The loop makes exactly the calls Dispatch specifies. |
| WebSocketClient.WebSocketService.OnClose | client/src/services/websocket.ts:37-42 | Below five attempts the counter grows and a reconnect is scheduled after 1000 times the counter in milliseconds; otherwise none is scheduled. |
| WebSocketClient.WebSocketService.Disconnect | client/src/services/websocket.ts:46-52 | With a socket: dropped and the counter reset; without one: no change. |
| WebSocketClient.WebSocketService.Subscribe | client/src/services/websocket.ts:55-60 | The type's set is created if missing, and the callback added unless already there. |
| WebSocketClient.WebSocketService.Unsubscribe | client/src/services/websocket.ts:63-65 | The callback leaves its type's set, when there is one. |
| WebSocketClient.TransitionsKeepValid | client/src/services/websocket.ts:3-65 | Every transition keeps the counter within 0..5 and the callback sets free of duplicates. |
| WebSocketClient.WithoutKeepsDistinct | client/src/services/websocket.ts:63-65 | Removing from a duplicate-free set keeps it duplicate-free. |
| WebSocketClient.WithoutAbsent | client/src/services/websocket.ts:63-65 | Removing an absent callback changes nothing. |
| WebSocketClient.SubscribeIdempotent | client/src/services/websocket.ts:55-60 | A second subscribe of the same callback changes nothing. |
| WebSocketClient.SubscribeDelivers | client/src/services/websocket.ts:55-60 | After subscribe the callback is in its type's set, the earlier subscribers stay, and other types are untouched. |
| WebSocketClient.UnsubscribeRemovesOnly | client/src/services/websocket.ts:63-65 | Unsubscribing removes exactly that callback from that type, and nothing else. |
| WebSocketClient.DispatchReachesSubscribers | client/src/services/websocket.ts:26-35 | A callback is called on a parsed message exactly when it is subscribed to the message's type. |
| WebSocketClient.ReconnectSchedule | client/src/services/websocket.ts:37-42 | n failures from a reset counter schedule reconnects after 1000, 2000, ... ms, at most five, and the counter ends at min(n, 5). |
| WebSocketClient.OpenResetsSchedule | client/src/services/websocket.ts:17-42 | A successful open resets the schedule, so the next close retries after 1000 ms. |
| WebSocketClient.DisconnectStillReconnects | client/src/services/websocket.ts:37-52 | After disconnect, the dropped socket's close still schedules a reconnect after 1000 ms, which opens a new socket. |
| AgentForm.ChangedOnlyField | client/src/app/agents/hooks/useAgentForm.ts:17-21 | handleChange changes the named field and nothing else. |
| AgentForm.AppendedIff | client/src/app/agents/hooks/useAgentForm.ts:24-29 | Adding changes the list exactly when the input is not all white space. It then appends the trimmed input and clears the input; otherwise nothing changes. |
| AgentForm.AddTraitRule | client/src/app/agents/hooks/useAgentForm.ts:24-29 | addTrait follows that rule for the traits and leaves the influences alone. |
| AgentForm.AddInfluenceRule | client/src/app/agents/hooks/useAgentForm.ts:37-42 | addInfluence follows that rule for the influences and leaves the traits alone. |
| AgentForm.FilterIndexDropsOne | client/src/app/agents/hooks/useAgentForm.ts:32-34 | Removing by index drops exactly that element, keeping the order; an index out of range changes nothing. |
| AgentForm.RemoveTouchesOneList | client/src/app/agents/hooks/useAgentForm.ts:32-47 | removeTrait and removeInfluence each touch only their own list. |
| AgentForm.AddThenRemoveTrait | client/src/app/agents/hooks/useAgentForm.ts:24-34 | Removing the trait just added gives back the earlier traits. |
| AgentForm.ResetDiffersFromInitial | client/src/app/agents/hooks/useAgentForm.ts:5-61 | resetForm clears everything but sets the role to "producer", so it differs from the initial state. |
| AgentForm.BuildAgentCopies | client/src/app/agents/hooks/useAgentForm.ts:64-72 | buildAgent copies the fields and current lists, ignores the pending inputs, and its ID is digits. |

## Left out

- File I/O is a map from path to content. The model leaves out directory creation, ignored write errors, and Go's file permissions and handles.
- The fsnotify watcher's event loop is left out. Each event becomes a call to `Tailer.OnWrite`, and each broadcast a value in `emitted`.
- Mutexes and goroutine concurrency are left out. Every method runs as one atomic step.
- The clock, `uuid.New`, `crc32.ChecksumIEEE` and `math/rand` are left out too. All are parameters.
- Go map iteration order is unspecified. The model picks an arbitrary remaining key, so results are proved for every order.
- Prompt wording is not modelled. The model-call prompt texts are opaque, apart from the parts the contracts mention: the persona, the content and the transcript.
- The title-casing applied to reviews is not modelled.
- Info, Query, BeginBlock, Commit and the snapshot calls are not modelled. They return fixed values and change no state.
- Abci.Application.DeliverTx, Abci.Application.RegisterValidator: the panic in `pubKey.Address()` on a key that is not 32 bytes long is modelled as the `Panicked` outcome and the `panicked` flag, which leave the state unchanged; the unwinding itself, and what CometBFT does after it, are not modelled.
- Logging through `log`/`fmt` is not modelled.
- DeliverTx's log texts are not modelled, only its codes.
- Abci.Application.ProcessProposal, Abci.Application.ReviewAll: LogDiscussion reads the clock for each entry. The model takes these readings as parameters, one for the "Validator" entry, one for the "Agent" entry and one per transaction, and does not relate them to each other (for instance, that they increase).
- DiscussionWatcher.Tailer.OnWrite, DiscussionWatcher.Tailer.Broadcast, DiscussionWatcher.Tailer.Watch: processLine reads the clock for each broadcast vote; the model uses one clock value, `now`, for every vote of one write event. `DiscussionWatcher.TailingMatchesReplay` equates the votes, timestamps included, under one `now` for every write and for the replay.
- Forum pointer aliasing is not modelled. Callers that mutate a returned thread pointer are outside the model.
- The `Application.discussions` field is kept as a map that starts empty; no modelled operation reads it or changes it, as in the code.
- The HTTP binding and JSON request decoding of the handlers are not modelled. The decoder's partial fill on error is also left out there.
- Database.Store.Get: what `json.Decoder` leaves in the value (merged into the old one on success, partly filled on an error) is the decoder parameter's result; the rules of that merge are not modelled.
- PaperReviewing.PaperNonValidator: the watcher ignoring the three zero-verdict lines is proved only for a name without '|' or newline; for a name holding "|: " it broadcasts them (`DiscussionWatcher.PipeInNameBroadcastsZeroVerdict`).
- LoanReviewing.LoanNonValidator: the same, for the four zero-verdict lines.
- DiscussionWatcher.ZeroRoundLineIgnored: proved only for a name without '|'; `DiscussionWatcher.PipeInNameBroadcastsZeroVerdict` shows a zero-verdict line that is broadcast.
- DiscussionWatcher.ZeroRoundLinesIgnored: proved only for a name without '|' or newline, for the same reason.
- Strings are sequences of code points, so lengths such as `Tailer.lastSize` count characters where Go counts bytes; the two agree on ASCII text.
- Reading the genesis key file and spawning the node process are not modelled. Both stand behind the `launched` flag of `Handlers.RegisterAgent`.
- Websocket events from a replaced, stale socket are not modelled. Neither are exceptions thrown by callbacks.
- handleChange calls for field names other than name, role, style and mood are not modelled.
- Remove calls with non-integer indexes are not modelled.
- Selection.SelectTransactions: uses the corrected parser, `Selection.ParseIndexes`. With the parser as written, every reply would fall through to an empty selection; see Findings.
- Selection.FormatBlock: its own contract states only the fixed prefix of the summary. Its partner `Selection.FormatBlockSeesOnly` states which block fields the summary depends on.
- DiscussionWatcher.Tailer.Watch: watches the corrected path, `DiscussionWatcher.WatchedPath`; see Findings.
- Agent generation, web search, block signing, the transaction pool and the peer-to-peer layer are not modelled. The CLI and the remaining client pages are also not part of this model.

## Findings

| source | as written | input that shows it | evidently intended | confidence | as-written member | corrected member |
|---|---|---|---|---|---|---|
| ai/ai.go:173 | `fmt.Sscanf(part, "%d")` passes no operand to store into, so every scan fails with "too few operands". parseIndexes therefore returns no index for any reply. | The reply "0" to a one-transaction listing: parses to [] | The scanned integer is stored, and each in-range index is kept in order; "0" parses to [0]. | high, not executed | Selection.ParseIndexesAsWritten | Selection.ParseIndexes |
| communication/discussion_watcher.go:34 | The watched file is hard-coded to data/discussions/mainnet.txt, whatever the chain ID. | chainID "testnet": that chain's transcript is data/discussions/testnet.txt, but the watcher tails mainnet.txt. | The watcher tails its own chain's transcript, the file the review rounds append to. | medium, not executed | DiscussionWatcher.WatchedPathAsWrittenMissesChain | DiscussionWatcher.WatchedPath |
