# A verified model of a Kaspa mining-pool coordinator

This project models, in Dafny, the core of a mining pool that speaks the line-based
JSON stratum protocol to miners. The model covers these parts:

- **Job/template cache** (`templates.dfy`, module `Templates`). Block templates are keyed
  by their pre-PoW hash and kept in registration order. Each has a job id for miners.
  At most `daaWindow` templates are kept: registering one more evicts the oldest, along
  with its job.
- **Stratum session layer** (`stratum.dfy`, module `Stratum`; `server.dfy`, module `Server`).
  It covers subscription, authorization and share submission, with duplicate-nonce and
  target checks. It covers the job broadcast that prunes connections that can no longer
  be written to. It covers draining the share table. It also covers the connection
  handler: buffering input, splitting it into lines, dispatching each request, and
  answering with a response, an error response, or closing the connection.
- **Wire protocol** (`protocol.dfy`, module `Protocol`). The error-code table,
  `StratumError` and its dump, and request validation.
- **Reward ledger** (`rewarding.dfy`, module `Rewarding`). Each block's work per address
  is recorded. Payment requests go on a queue that resolves one request at a time. A
  resolution consumes the oldest blocks up to the first blue one, splits the amount in
  proportion to work, and either pays each miner or credits its balance, depending on
  the payment threshold.
- **Balance store** (`database.dfy`, module `Database`).
- **Treasury's coinbase split** (`treasury.dfy`, module `Treasury`).
- **Pool's `record` handler** (`pool.dfy`, module `Pool`). It drains the shares, appends
  the winning share, and records them against the found block.

`ordered_map.dfy` gives JavaScript's insertion-ordered `Map`. `hex.dfy` gives the
hexadecimal parsing and rendering the code relies on. `wrappers.dfy` holds `Option` and
`Result`.

## How the code is modelled

Each stateful class is a Dafny `class` with the source's fields:

- `Templates.Templates`, `Stratum.Stratum`, `Server.Server`;
- `Rewarding.Rewarding`, `Database.Database`, `Pool.Pool`.

Each method states its new state as a pure function of the old state:

- `Registered`, `Subscribed`, `Authorized`, `ShareSubmitted`, `Drained`, `Announced`;
- `Handled`, `Received`, `Recorded`, `Pushed`, `Started`, `Completed`, `Determined`,
  `Settled`.

The lemmas prove the properties of those functions. The loops of the source remain
loops:

- the line loop of `onData`;
- the `reduce` of `recordContributions`;
- the two loops of `determinePayments`.

Each carries invariants that tie it to its function.

Calls into code that is not part of this model are parameters:

- the wasm library: `Address.validate`, `calculateTarget`, `PoW.checkWork`,
  `Header.finalize`;
- the node's `submitBlock` report and `getCurrentBlockColor`;
- `JSON.parse`;
- `randomBytes`;
- a socket's `readyState`;
- the captured stack trace;
- the node's timestamp estimate and the process start time.

Where the code and its written description differ, the model follows the code:

- **Rounding.** Payable amounts and credited shares are rounded with decimal.js
  `toFixed(0)`. Its default mode is half-up, which rounds ties away from zero, not toward
  zero (`Rewarding.Round`).
- **Credit.** A miner below the threshold is credited its *rounded share*, not its
  unrounded share.
- **Payment order.** Payment requests are taken from the end of the queue, so the most
  recent request is resolved first (`Rewarding.Started`).
- **Job ids.** The job-id queue in `./jobs` is not part of this model. The id its
  `deriveId` returns is an input of the registration, asked only to differ from every
  queued id. Ids expire in step with the templates, oldest first.

## Model

| member | source | states |
|---|---|---|
| Database.Lookup | src/pool/database/index.ts:22-24 | an unknown address reads as a fresh account with balance 0; a known one reads its stored account |
| Database.Credited | src/pool/database/index.ts:26-33 | `addBalance` adds `delta` to the address's balance (from 0 when absent), adds the address to the store, and leaves every other balance unchanged |
| Database.ResetToZero | src/pool/database/index.ts:26-33 | crediting the negated current balance leaves the address at exactly 0 (the reset used before a payout) |
| Database.CreditsAdd | src/pool/database/index.ts:26-33 | two credits to one address equal one credit of their sum |
| Database.NoLowerBound | src/pool/database/index.ts:29 | there is no lower bound check: a negative delta on a fresh address leaves a negative balance |
| Database.Database.GetMiner | src/pool/database/index.ts:22-24 | `getMiner` returns the stored account or the default one |
| Database.Database.AddBalance | src/pool/database/index.ts:26-33 | the read-modify-write transaction leaves the store equal to `Credited` of the old store |
| Hex.DigitValue | src/stratum/stratum.ts:104 | a character is a hexadecimal digit exactly when it is 0-9, a-f or A-F, and its value is below 16 |
| Hex.TrimEnd | src/stratum/stratum.ts:104 | trailing white space, which `BigInt` ignores, is removed: the result is a prefix, does not end in white space, and only white space was cut |
| Hex.ParseHex | src/stratum/stratum.ts:104 | `BigInt('0x' + work)` succeeds exactly when the text, less trailing white space, is a non-empty run of hexadecimal digits |
| Hex.LeHex | src/stratum/stratum.ts:26-27 | `writeBigUInt64LE(...).toString('hex')` is 16 hexadecimal digits |
| Hex.LeHexRoundTrip | src/stratum/stratum.ts:26-27 | reading the 16 digits back as little-endian bytes gives the timestamp |
| Hex.LeBytesRoundTrip | src/stratum/stratum.ts:26-27 | any value below 256^k survives the little-endian byte rendering and reading |
| OrderedMap.Put | src/templates/index.ts:57 | `Map.set` stores the value and appends the key only when it was absent (a re-set key keeps its place) |
| OrderedMap.RemoveFirst | src/templates/index.ts:61 | deleting the first entry drops exactly the oldest key and its value |
| OrderedMap.RemoveFirsts | src/pool/rewarding.ts:74-75 | deleting the first `n` entries one at a time leaves exactly the keys after the `n`-th, in their order |
| OrderedMap.RemoveFirstsKeep | src/pool/rewarding.ts:74-75 | deleting the first entries leaves the remaining values untouched |
| OrderedMap.Values | src/stratum/stratum.ts:120 | `Array.from(map.values())` lists the values in key order |
| OrderedMap.SizeIsKeyCount | src/pool/rewarding.ts:40 | `Map.size` is the number of keys |
| Protocol.Code | src/stratum/protocol.ts:17-24 | every error name has a code from 20 to 25, and the reverse mapping gives the name back |
| Protocol.NameOfCode | src/stratum/protocol.ts:17-24 | the enumeration's reverse mapping is defined exactly on 20..25 |
| Protocol.CodeRoundTrip | src/stratum/protocol.ts:17-24 | each code in the table names exactly one error whose code it is |
| Protocol.NewStratumError | src/stratum/protocol.ts:26-36 | `new StratumError(name)` carries the name's code, the name as message, and the captured stack |
| Protocol.ToDump | src/stratum/protocol.ts:38-44 | `toDump()` is `[code, message, stack ?? null]` |
| Protocol.DumpOfNamedError | src/stratum/protocol.ts:26-44 | the dump of a named error is its code, its text, and the stack |
| Protocol.ValidateRequest | src/stratum/protocol.ts:74-79 | a value is a request exactly when it is an object with a numeric `id`, a string `method` and an array `params`; `null` throws |
| Protocol.ParseMessage | src/stratum/protocol.ts:81-90 | a line yields a message exactly when it parses as JSON and validates, and then it is the parsed value |
| Templates.HashOf | src/templates/index.ts:24-26 | a job id resolves exactly when it is queued, to its queued hash |
| Templates.PowOf | src/templates/index.ts:28-30 | a hash resolves exactly when its template is cached, to that template's verifier |
| Templates.Registered | src/templates/index.ts:54-65 | a known pre-PoW hash changes nothing and announces nothing. A new one is announced with the id `deriveId` gives, the hash and the block's timestamp. The hash is appended to the templates and the id to the job queue, and on overflow the oldest of each is dropped. The new id names the new hash, other templates and jobs are unchanged, and the bound is kept |
| Templates.RegisteredResolves | src/templates/index.ts:54-65 | a new template that survives its registration is reachable through its announced id: the id resolves to its hash and the hash to its verifier |
| Templates.RegisteredCoherent | src/templates/index.ts:55-63 | with a fresh id, registration keeps templates and jobs in step: the same number, in the same order, every job naming its template |
| Templates.Inserted | src/templates/index.ts:57-58 | the window right after `templates.set` and `deriveId`: the new template stored last under its hash with its verifier, and the id queued last against the hash |
| Templates.CoherentInserted | src/templates/index.ts:57-58 | storing a new template and queuing a fresh id for it keeps them in step |
| Templates.CoherentEvicted | src/templates/index.ts:60-63 | deleting the oldest template and expiring the oldest job keeps them in step |
| Templates.EvictsOldest | src/templates/index.ts:60-63 | on overflow, the oldest template and the oldest job both stop resolving, whatever their timestamps; the queue is the old one less its first id plus the new id, and the new template and its id resolve |
| Templates.EvictedTemplates | src/templates/index.ts:57-61 | on overflow, the oldest hash no longer has a verifier and the new hash has one |
| Templates.EvictedJobs | src/templates/index.ts:58-62 | on overflow, the job queue loses its oldest id and gains the new id, which resolves to the new hash |
| Templates.JobsResolve | src/templates/index.ts:24-30 | every job id that resolves leads to a cached verifier |
| Templates.AlwaysBounded | src/templates/index.ts:55-63 | after any run of registrations with fresh, distinct ids, the cache and the job queue hold at most `daaWindow` entries and stay in step |
| Templates.Submitted | src/templates/index.ts:32-46 | submitting sets the template's nonce and touches nothing else. It succeeds exactly when the node accepts the block, and then returns the finalized header hash |
| Templates.Templates.GetHash | src/templates/index.ts:24-26 | `getHash` is `HashOf` on the current state |
| Templates.Templates.GetPoW | src/templates/index.ts:28-30 | `getPoW` is `PowOf` on the current state |
| Templates.Templates.DeriveId | src/templates/index.ts:58 | the id the queue derives is returned and queued last against its hash; the rest of the queue is unchanged |
| Templates.Templates.ExpireNext | src/templates/index.ts:62 | the oldest job is expired |
| Templates.Templates.Register | src/templates/index.ts:54-65 | the listener's in-place `set`, `deriveId`, `delete` and `expireNext` leave the state and announcement `Registered` describes, and keep templates and jobs in step and bounded |
| Templates.Templates.Submit | src/templates/index.ts:32-46 | the in-place nonce update and result are those of `Submitted` |
| Stratum.BeforeDot | src/stratum/stratum.ts:62 | `identity.split('.')[0]` is the longest dot-free prefix of the identity |
| Stratum.WorkerName | src/stratum/stratum.ts:62 | a worker name exists exactly when the identity has a dot |
| Stratum.Subscribed | src/stratum/stratum.ts:54-59 | a second subscription throws 'Already subscribed' and changes nothing; otherwise the connection is appended to the subscribers and nothing else changes |
| Stratum.Authorized | src/stratum/stratum.ts:61-78 | an invalid address throws 'Invalid address' and changes nothing. Otherwise the address's set becomes its old set (or none) plus the connection, other addresses' sets are unchanged, the connection's workers gain the pair (address, name) at the end, every other connection and field is unchanged, and the extranonce and difficulty events are sent |
| Stratum.AuthorizeTwice | src/stratum/stratum.ts:65-74 | a repeated authorization leaves the address's set as it was, but adds a second copy of the worker pair (a fresh array each time) |
| Stratum.LiveHash | src/stratum/stratum.ts:100-102 | the job a share names: a string id that the queue resolves to a hash whose template is still cached, and nothing otherwise (`job-not-found`) |
| Stratum.NonceOf | src/stratum/stratum.ts:104 | the share's nonce is `BigInt('0x' + work)` for a string `work`: the value of its hex digits after the trailing-space trim, and nothing when they do not parse |
| Stratum.ShareSubmitted | src/stratum/stratum.ts:98-117 | an unknown job throws job-not-found; a nonce that does not parse fails as a SyntaxError; a recorded nonce throws duplicate-share; a target above the connection's threshold throws low-difficulty-share; these change nothing. A share that is not a block is recorded under its nonce with the address and difficulty, nothing else changing. A block is submitted with the nonce written into its header, and reported with the winning contribution (unrecorded) when the node accepts it, or fails with the node's message. The generic `unknown` error is never thrown |
| Stratum.SameNonceTwice | src/stratum/stratum.ts:105-115 | a nonce once recorded is refused as a duplicate on any later submission for a known job |
| Stratum.TargetBoundaryAccepted | src/stratum/stratum.ts:107-108 | a share exactly at the connection's target is accepted (the comparison is strict) |
| Stratum.Drained | src/stratum/stratum.ts:119-124 | `dump` returns the recorded contributions in insertion order and leaves the table empty |
| Stratum.DrainTwice | src/stratum/stratum.ts:119-124 | a second dump returns nothing, and every nonce may be submitted again afterwards |
| Stratum.NotifyOf | src/stratum/stratum.ts:25-31 | the notify payload is the hash followed by the 16-digit little-endian rendering of the timestamp, which reads back as the timestamp |
| Stratum.Unsubscribed | src/stratum/stratum.ts:49 | deleting a subscriber keeps exactly the other subscribers |
| Stratum.UnsubscribedDistinct | src/stratum/stratum.ts:49 | the subscribers stay a set after a deletion |
| Stratum.Pruned | src/stratum/stratum.ts:40-47 | the worker loop only removes the connection from its addresses' sets, dropping emptied sets. Addresses of other workers are untouched. When it completes, no pruned address lists the connection |
| Stratum.PrunedStep | src/stratum/stratum.ts:40-47 | one iteration of the worker loop, and the rest of the loop from there |
| Stratum.Announced | src/stratum/stratum.ts:25-52 | `announce` is the `mining.notify` event for the job, then the subscriber loop over the current subscribers in subscription order, with the connections written to, the exception that stops it if any, and the state it leaves |
| Stratum.Writable | src/stratum/stratum.ts:35-38 | the subscribers with `readyState === 1`, in subscription order: the connections the job is written to |
| Stratum.Broadcast | src/stratum/stratum.ts:35-51 | the subscriber loop leaves connections and contributions as they were |
| Stratum.BroadcastConsistent | src/stratum/stratum.ts:35-51 | the loop keeps subscribers distinct and registered, and every miner set non-empty and backed by an authorized worker, even when it stops on a crash |
| Stratum.ShrunkConsistent | src/stratum/stratum.ts:40-47 | shrinking miner sets without emptying them keeps the session state consistent |
| Stratum.UnsubscribedConsistent | src/stratum/stratum.ts:49 | deleting a subscriber keeps the session state consistent |
| Stratum.PruneSucceeds | src/stratum/stratum.ts:40-47 | when every worker's address is listed (and not repeated), the worker loop does not crash |
| Stratum.PruneKeepsOthers | src/stratum/stratum.ts:40-47 | pruning one connection never removes another connection from an address |
| Stratum.PrunableAfterPrune | src/stratum/stratum.ts:35-51 | pruning one connection keeps the remaining ones prunable |
| Stratum.BroadcastCompletes | src/stratum/stratum.ts:35-51 | when no dead subscriber has two workers under one address, the loop finishes: the job is written to exactly the writable subscribers, in order; exactly the dead ones are unsubscribed; and each dead one has left the set of every address of its workers |
| Stratum.BroadcastFinishes | src/stratum/stratum.ts:35-51 | the sending and unsubscribing half of `BroadcastCompletes`, proved by induction over the subscribers |
| Stratum.BroadcastPrunes | src/stratum/stratum.ts:40-47 | the pruning half: each dead subscriber is in no remaining set of its workers' addresses |
| Stratum.BroadcastShrinks | src/stratum/stratum.ts:40-46 | a broadcast only removes addresses and set members: every remaining address was there before, with a subset of its old set |
| Stratum.BroadcastKeeps | src/stratum/stratum.ts:35-51 | a connection that is not a dead pending subscriber stays in every set it was in, even when the loop crashes |
| Stratum.AnnounceCompletes | src/stratum/stratum.ts:25-52 | `announce` on a consistent state whose dead subscribers can be pruned throws nothing, sends the job to exactly the writable subscribers, and they are exactly the subscribers left |
| Stratum.AnnouncePrunes | src/stratum/stratum.ts:35-51 | after such an `announce`, no dead subscriber is in any address set; every other connection is still in every set it was in; and no address is left with an empty set |
| Stratum.WritableMembers | src/stratum/stratum.ts:37-38 | the written connections are exactly the subscribers whose socket is open |
| Stratum.DuplicateAddressCrashes | src/stratum/stratum.ts:40-47 | a closed connection with two workers of one address makes the loop throw a TypeError at the second worker (`this.miners.get(address)!` is undefined), after the address was dropped and while the subscriber remains |
| Stratum.WithBuffer | src/stratum/index.ts:41-70 | replacing a connection's input buffer sets exactly that connection's `cachedBytes`: its other fields, every other connection, and the subscribers, address sets and contributions are unchanged, and the state stays consistent |
| Stratum.Stratum.Subscribe | src/stratum/stratum.ts:54-59 | in-place update and outcome as `Subscribed` |
| Stratum.Stratum.Authorize | src/stratum/stratum.ts:61-78 | in-place update and outcome as `Authorized` |
| Stratum.Stratum.Submit | src/stratum/stratum.ts:98-117 | in-place update of shares and templates and outcome as `ShareSubmitted` |
| Stratum.Stratum.Dump | src/stratum/stratum.ts:119-124 | returns and clears as `Drained` |
| Stratum.Stratum.Buffer | src/stratum/index.ts:70 | the buffer update of `WithBuffer` |
| Stratum.Stratum.OnTemplate | src/stratum/stratum.ts:22 | a registered template is announced to the subscribers; a known one changes nothing |
| Stratum.Stratum.Announce | src/stratum/stratum.ts:25-52 | the in-place loop over subscribers leaves the state `Announced` describes |
| Stratum.Stratum.Prune | src/stratum/stratum.ts:40-47 | the in-place worker loop leaves the miners `Pruned` describes and nothing else changes |
| Server.Split | src/stratum/index.ts:42 | `split('\n')` yields at least one piece and no piece holds a line feed |
| Server.SplitRoundTrip | src/stratum/index.ts:41-44 | the complete lines, each with its line feed, followed by the last piece, give back the input |
| Server.SplitUnterminated | src/stratum/index.ts:42 | input without a line feed is a single piece |
| Server.Rejected | src/stratum/index.ts:50-63 | a `StratumError` is answered with `false` and its dump, keeping the connection. Any other `Error` ends the connection with `false`, code 20 and the error's own message |
| Server.Param | src/stratum/index.ts:85-89 | `request.params[i]`: the i-th parameter, or `undefined` (here `JNull`) past the end of the array |
| Server.Handled | src/stratum/index.ts:77-94 | one request dispatches on its method to the three handlers below, or is answered `true` for any other method; it keeps the connections, the session state's consistency and the template window's coherence |
| Server.SubmitHandled | src/stratum/index.ts:84-85 | `mining.submit` keeps the connections, consistency and coherence, and answers the request once: `true`, or `false` with the error dump; a non-string identity fails as a `TypeError` |
| Server.AuthorizeHandled | src/stratum/index.ts:86-87 | `mining.authorize` keeps the connections and consistency, leaves the window alone, and answers once with `true` or the error |
| Server.SubscribeHandled | src/stratum/index.ts:88-90 | `mining.subscribe` keeps the connections and consistency, leaves the window alone, and answers once with `[true, 'EthereumStratum/1.0.0']` or the error |
| Server.SubmitActions | src/stratum/index.ts:48-64 | a submission's outcome is written as its answer, after the `block` event when a block was found; the answer is the last action and the only one that replies or closes |
| Server.AuthorizeActions | src/stratum/index.ts:48-64 | an authorization's notifications are written before its answer, which is the only reply and closes exactly when it carries code 20 |
| Server.SubscribeActions | src/stratum/index.ts:48-64 | a subscription is answered with the protocol pair, or with the error, once |
| Server.HandledAnsweredOnce | src/stratum/index.ts:48-94 | every request is answered once, by its last action, echoing its id, with `true` (the pair for a subscription) or `false` and the dump; the connection closes exactly when the dump carries code 20 |
| Server.HandledAnswers | src/stratum/index.ts:48-94 | every request is answered with its own id. The result is `true`, or `[true, 'EthereumStratum/1.0.0']` for a subscription, when nothing was thrown, and `false` when something was |
| Server.HandledCloses | src/stratum/index.ts:57-63 | a request ends the connection exactly when its answer carries error code 20 |
| Server.HandledAnswersLast | src/stratum/index.ts:48-64 | only the last action of a handled request writes a response or ends the connection; the events before it are notifications or the block report |
| Server.UnknownMethodIgnored | src/stratum/index.ts:84-93 | a method other than the three known ones is answered `true` and changes nothing |
| Server.Sends | src/stratum/stratum.ts:80-96 | each event is written to the connection in order |
| Server.Dispatched | src/stratum/index.ts:44-68 | the line loop keeps the connections, consistency and coherence |
| Server.Step | src/stratum/index.ts:45-67 | a line that does not parse as a request ends the connection and changes nothing |
| Server.UnparseableContinues | src/stratum/index.ts:65-67 | after ending the connection for a bad line, the loop still dispatches the lines after it |
| Server.Received | src/stratum/index.ts:40-75 | receiving data keeps the connections, consistency and coherence |
| Server.Utf16Length | src/stratum/index.ts:72 | `string.length` counts UTF-16 code units: between one and two per character |
| Server.Utf16LengthPlanes | src/stratum/index.ts:72 | the count equals the number of characters exactly when none lies beyond the Basic Multilingual Plane |
| Server.ReceivedFrames | src/stratum/index.ts:41-74 | the buffer plus the data are exactly the dispatched lines, each with a line feed, then the new buffer, which holds no line feed and is stored on the connection. The actions are those of the complete lines in arrival order, then an end of the connection exactly when the buffer exceeds 512 UTF-16 code units |
| Server.PartialLineBuffered | src/stratum/index.ts:41-74 | data that completes no line and keeps the buffer within 512 UTF-16 code units is only buffered: no action, the window unchanged |
| Server.Server.OnConnect | src/stratum/index.ts:32-38 | a new connection starts with the configured difficulty, no workers and an empty buffer |
| Server.Server.OnMessage | src/stratum/index.ts:77-94 | the handler's in-place updates and actions are those of `Handled` |
| Server.Server.OnData | src/stratum/index.ts:40-75 | the handler's buffering, line loop and closing are those of `Received` |
| Server.Server.Dispatch | src/stratum/index.ts:44-68 | the `while` loop over the complete lines gives the actions and state of `Dispatched` |
| Rewarding.Added | src/pool/rewarding.ts:31-32 | one `miners.set(address, current + difficulty)`: the address's work, 0 when absent, raised by the amount, appended to the map when new |
| Rewarding.AddedWork | src/pool/rewarding.ts:31-32 | adding work to an address raises that address's work by it and leaves the others |
| Rewarding.AddedKeys | src/pool/rewarding.ts:31-32 | adding work lists the address |
| Rewarding.AddedTotal | src/pool/rewarding.ts:31-34 | adding work raises the total by it |
| Rewarding.AddedMeaning | src/pool/rewarding.ts:31-34 | adding work to an address: its work and the total rise by it, it is listed, and other addresses keep their work |
| Rewarding.Aggregate | src/pool/rewarding.ts:29-35 | the `reduce`'s map: each contribution in order adds its difficulty to its address's work |
| Rewarding.TotalWork | src/pool/rewarding.ts:30-35 | the `reduce`'s accumulator: the summed difficulty of all contributions, from 0 |
| Rewarding.AggregateWork | src/pool/rewarding.ts:29-35 | each address's recorded work is the summed difficulty of its contributions |
| Rewarding.AggregateTotal | src/pool/rewarding.ts:30-35 | the `reduce` total is the sum of the per-address work |
| Rewarding.AggregateContributors | src/pool/rewarding.ts:29-40 | the addresses recorded, and their count `miners.size`, are exactly the distinct contributing addresses |
| Rewarding.AggregatePositive | src/pool/rewarding.ts:29-35 | positive difficulties give every recorded address positive work |
| Rewarding.Tally | src/pool/rewarding.ts:29-35 | the `reduce` loop computes the per-address work and the total of `Aggregate` and `TotalWork` |
| Rewarding.Merge | src/pool/rewarding.ts:67-70 | the inner loop of `determinePayments`: each address of one block, in the block's order, adds its block work to its gathered work |
| Rewarding.Merged | src/pool/rewarding.ts:67-70 | the inner loop over the block's remaining addresses, one `set` each |
| Rewarding.MergedWork | src/pool/rewarding.ts:67-70 | merging a block's work adds each address's block work to its gathered work |
| Rewarding.MergedKeys | src/pool/rewarding.ts:67-70 | merging lists the block's addresses among the contributors |
| Rewarding.MergedTotal | src/pool/rewarding.ts:67-72 | merging raises the contributors' total by the block's total |
| Rewarding.MergeMeaning | src/pool/rewarding.ts:67-70 | merging a block: per-address work adds up, addresses are united, totals add up |
| Rewarding.MergeBlock | src/pool/rewarding.ts:67-70 | the inner loop over a block's entries computes `Merge` |
| Rewarding.Recorded | src/pool/rewarding.ts:24-41 | `recordContributions`: `Aggregate` stored under the hash in the rewards map, `TotalWork` under it in the accumulated-work map, and `miners.size` returned |
| Rewarding.RecordedMeaning | src/pool/rewarding.ts:24-41 | recording a block stores each address's summed difficulty and the total, and lists the block last in both maps (or keeps its place when re-recorded). It returns the number of distinct contributors and leaves other blocks alone |
| Rewarding.RecordedLedgered | src/pool/rewarding.ts:37-38 | recording positive contributions keeps both maps aligned, each total the sum of its block's work |
| Rewarding.Rewarding.RecordContributions | src/pool/rewarding.ts:24-41 | the in-place recording and the count are those of `Recorded`, and the payment queue is untouched |
| Rewarding.IsBlue | src/pool/rewarding.ts:77-78 | the loop stops only when the node answers that the block is blue; a failed query reads as `{ blue: false }` |
| Rewarding.Step | src/pool/rewarding.ts:66-75 | one round of the first loop: the oldest block's work merged into the contributors, its total added, and its entry deleted from both maps |
| Rewarding.Consumed | src/pool/rewarding.ts:66-79 | the first loop: rounds from the oldest block until none is left, stopping after the first block the node reports blue; a failed query reads as not blue |
| Rewarding.Visited | src/pool/rewarding.ts:66-79 | the first loop visits at least one block when there is one, and no more blocks than there are |
| Rewarding.VisitedStopsAtBlue | src/pool/rewarding.ts:77-78 | every visited block but the last is not blue, and the loop stops early only at a blue block |
| Rewarding.ConsumedRemaining | src/pool/rewarding.ts:66-79 | the first loop deletes exactly the visited blocks, oldest first, from both maps |
| Rewarding.ConsumedWork | src/pool/rewarding.ts:66-79 | the first loop adds to each address's gathered work its work in each block it consumes, oldest first up to the first blue one |
| Rewarding.ConsumedKeys | src/pool/rewarding.ts:66-79 | the first loop adds to the contributors exactly the addresses of the blocks it consumes |
| Rewarding.ConsumedTotal | src/pool/rewarding.ts:66-79 | the first loop adds to the gathered work the accumulated work of the blocks it consumes |
| Rewarding.ConsumedFromEmpty | src/pool/rewarding.ts:62-79 | from empty maps, the contributors are exactly the addresses of the consumed blocks, the total is their summed work, and it is positive when there is a contributor |
| Rewarding.StepLedgered | src/pool/rewarding.ts:67-75 | one iteration keeps the remaining blocks ledgered and the gathered total equal to the gathered work |
| Rewarding.ConsumedLedgered | src/pool/rewarding.ts:66-79 | the whole first loop keeps the remaining blocks ledgered, the gathered work positive, and the accumulated work equal to its sum |
| Rewarding.Round | src/pool/rewarding.ts:91 | `toFixed(0)` rounds to the nearest integer, ties away from zero |
| Rewarding.RoundExamples | src/pool/rewarding.ts:94 | 2.5 rounds to 3, 2.4 to 2, -2.5 to -3, 0.7 to 1 |
| Rewarding.Shares | src/pool/rewarding.ts:82 | an address's share is its gathered work over the gathered total, times the amount; an address not gathered has none |
| Rewarding.Offered | src/pool/rewarding.ts:62-82 | the shares offered by a determination: `Shares` of the first loop's contributors and total, from no contributors and zero work |
| Rewarding.Paid | src/pool/rewarding.ts:83-95 | one miner of the second loop: balance plus share above the threshold resets the balance and pays the rounded sum; otherwise the rounded share is credited |
| Rewarding.Settled | src/pool/rewarding.ts:81-96 | the second loop: `Paid` for each contributor in order, each on the balances the previous one left, with the payouts concatenated |
| Rewarding.PaidMeaning | src/pool/rewarding.ts:83-95 | above the threshold, a miner's balance is reset to 0 and the rounded new balance is paid; at or below it, the rounded share is credited and nothing is paid; no other balance changes |
| Rewarding.SettledUnlisted | src/pool/rewarding.ts:81-96 | an address that did not contribute keeps its balance and is not paid |
| Rewarding.SettledPaid | src/pool/rewarding.ts:86-92 | a contributor whose balance plus share exceeds the threshold ends at 0, with a payout of the rounded sum |
| Rewarding.SettledCredited | src/pool/rewarding.ts:93-95 | a contributor at or below the threshold is credited its rounded share and is not paid |
| Rewarding.SumSharesScaled | src/pool/rewarding.ts:82 | the summed shares are the summed work over the total, times the amount |
| Rewarding.SharesSumToAmount | src/pool/rewarding.ts:81-82 | the unrounded shares of all contributors add up to the amount |
| Rewarding.Determined | src/pool/rewarding.ts:61-99 | `determinePayments`: the first loop from no contributors and zero work, the second loop over its contributors with the offered shares, and the contributor count, payouts, remaining blocks and balances that result |
| Rewarding.DeterminedRemaining | src/pool/rewarding.ts:61-79 | a determination leaves exactly the blocks after the visited ones, still ledgered |
| Rewarding.DeterminedShares | src/pool/rewarding.ts:61-98 | the reported count is the number of distinct addresses in the consumed blocks. When there is one, the accumulated work is positive and the shares add up to the amount |
| Rewarding.OfferedAt | src/pool/rewarding.ts:81-82 | one address's share is its work in the consumed blocks over their total work, times the amount, or nothing when it did no work there |
| Rewarding.DeterminedShareOf | src/pool/rewarding.ts:61-82 | every address's share is its work in the consumed blocks over their total work, times the amount; the total is positive whenever some address worked |
| Rewarding.Rewarding.Gather | src/pool/rewarding.ts:66-79 | the in-place first loop, with its deletes and early `break`, gives the contributors, total and remaining blocks of `Consumed` |
| Rewarding.Rewarding.Settle | src/pool/rewarding.ts:81-96 | the in-place second loop over the contributors leaves the balances and payouts of `Settled` |
| Rewarding.Rewarding.DeterminePayments | src/pool/rewarding.ts:61-99 | both loops together leave the blocks, balances, count and payouts of `Determined`, and keep the blocks ledgered |
| Rewarding.Started | src/pool/rewarding.ts:48-52 | with nothing in progress and a request queued, the most recent request is taken off the end and becomes current; otherwise nothing changes. No callback is lost |
| Rewarding.Pushed | src/pool/rewarding.ts:43-44 | queuing a request adds its callback to those owed and, while one is in progress, appends it |
| Rewarding.Completed | src/pool/rewarding.ts:55-58 | completing the current request invokes its callback once and owes it no more |
| Rewarding.Drained | src/pool/rewarding.ts:48-59 | `processPayments` run to the end: requests are completed, each starting the next, until nothing is in progress |
| Rewarding.DrainedEmpties | src/pool/rewarding.ts:48-59 | resolving until idle leaves nothing queued and nothing in progress |
| Rewarding.DrainedInvokesAll | src/pool/rewarding.ts:43-59 | resolving until idle invokes every owed callback exactly once |
| Rewarding.Rewarding.RecordPayment | src/pool/rewarding.ts:43-46 | the in-place queue update of `Pushed`: the request is queued and, when nothing is in progress, processing starts |
| Rewarding.Rewarding.ProcessPayments | src/pool/rewarding.ts:48-52 | the in-place queue update of `Started`; while a request is in progress nothing starts |
| Rewarding.Rewarding.CompletePayment | src/pool/rewarding.ts:52-58 | the current request is determined, its callback invoked, and the next one started |
| Rewarding.Rewarding.Resolve | src/pool/rewarding.ts:55-58 | the callback is invoked, the flag cleared and processing restarted, as `Completed` |
| Treasury.TruncDiv | src/treasury/index.ts:72 | `BigInt` division by a positive divisor: the quotient truncated toward zero |
| Treasury.PoolFee | src/treasury/index.ts:72 | the pool's cut `(reward * BigInt(fee * 100)) / 10000n`, with `fee * 100` as the integer `feeBps` |
| Treasury.TruncDivBounds | src/treasury/index.ts:72 | `BigInt` division truncates: the remainder has the dividend's sign and is smaller than the divisor |
| Treasury.PoolFeeIsFloor | src/treasury/index.ts:72 | for a non-negative reward and fee, the pool's cut is the floor of reward × fee / 10000 |
| Treasury.PoolFeeBounded | src/treasury/index.ts:72 | a fee between 0 and 100 percent takes between nothing and the whole reward |
| Treasury.Matured | src/treasury/index.ts:62-76 | the `maturity` handler: nothing for an output that is not a coinbase or was mined before the start; otherwise `coinbase` with the reward less the cut, then `revenue` with the cut |
| Treasury.MaturedFilters | src/treasury/index.ts:62-69 | something is emitted exactly for a coinbase mined no earlier than the process start |
| Treasury.MaturedSplits | src/treasury/index.ts:71-75 | a split emits the miners' part and then the revenue. The two add up to the reward, the revenue is the pool's cut, and both are non-negative for a non-negative reward and a fee of 0 to 100 percent |
| Pool.BlockRecorded | src/pool/index.ts:37-44 | `record`: the stratum's shares dumped, the winning contribution appended, and all of them recorded against the block, returning the contributor count |
| Pool.BlockRecordedCredits | src/pool/index.ts:37-44 | `record` empties the share table and records the block. Every address is credited the difficulty it submitted since the last block, and the winner also its winning share. The total is the summed difficulty, and the winner is counted among at least one contributor |
| Pool.Pool.Record | src/pool/index.ts:37-44 | dumping, appending the winner and recording in place gives the state and count of `BlockRecorded` |

## Left out

- Input and output: sockets, writes and `socket.end`, the node's RPC, the LMDB store's
  files, and console and monitoring logs. Writes and closes are returned as a sequence of
  actions. The store is a map.
- Asynchrony: `await`s and promise callbacks are modelled as completing in order, one
  event at a time. Interleavings of two connections' handlers are not modelled.
- Rewarding.Rewarding.CompletePayment: the `await` between taking a request and
  resolving it is a split into two methods. `ProcessPayments` takes the request and
  `CompletePayment` resolves it. Anything that runs in between is not modelled.
- Rewarding.SharesSumToAmount: shares use exact `real` arithmetic. decimal.js rounds
  each division and product to 20 significant digits, so in the source the sum holds
  only up to that precision.
- Rewarding.DeterminedShares: same exact-arithmetic caveat as `SharesSumToAmount`.
- Numbers: difficulties are exact positive reals, because the configured difficulty is a
  positive decimal. A zero or negative difficulty, which decimal.js would turn into
  NaN or Infinity, is not modelled.
- Numbers: `toNumber()` conversions to floating point are taken as exact.
- Treasury.PoolFeeIsFloor: `fee` is taken as the integer `fee * 100`. Any fee whose
  floating-point product `fee * 100` is not an exact integer (for example 1.1 or 0.29)
  makes `BigInt` throw a `RangeError`, and that error is not modelled.
- Rewarding.Rewarding.Settle: the share passed to each miner is a function value. The
  two rounding calls are modelled by `Round`, not by decimal.js's own string routines.
- JSON: `JSON.stringify` of responses and events is not modelled. Actions carry the
  structured response. `JSON.parse` is a parameter.
- The `subscription` event and its log line are not modelled, because they only feed
  the monitoring output.
- Errors: the stack trace an error captures is a parameter.
- The `else throw error` branch of the error handler is not modelled: every thrown value
  in the model is an `Error`.
- Server.Handled: a parameter that is not a string, where a string method is called on
  it, throws a `TypeError`, as in the runtime. A non-string job id is an unknown job, as
  in the source. A thrown value that is not a `StratumError` carries its class name
  (`TypeError`, `SyntaxError`) or the thrown text as its message; the engine's own
  wording of a `TypeError` is not modelled.
- Server.Received: each request's answer is written in a promise callback, after
  `onData` has returned. So the `socket.end()` for a bad line or an overlong buffer
  runs before the answers of the chunk's earlier lines are written. `Received` and
  `ReceivedFrames` list the actions line by line in arrival order, not in the order
  the writes reach the socket.
- Server.Received: each chunk is decoded from UTF-8 on its own, so a character split
  across two chunks becomes U+FFFD replacement characters. The model receives text
  already decoded; `Utf16Length` measures it in UTF-16 code units, as `length` does.
- Stratum.ShareSubmitted: a nonce that is not a JSON string is always refused as a syntax
  error. The source concatenates it as text into `'0x' + work`, so a JSON number nonce
  may still parse there.
- `./jobs` is not part of this model. The job queue is modelled from its use in
  `src/templates/index.ts`. The id `deriveId` returns is an input to
  `Templates.Registered` and `Templates.Templates.Register`, assumed to differ from every
  queued id; ids expire oldest first.
- Templates.Templates.Submit: the `console.log` of the nonce is left out, and the
  thrown 'Block is on IBD/route is full' is an error value.
- The `src/pool/index.ts` handlers other than `record` are not modelled.
  - `distribute` only forwards to `recordPayment` and to `Treasury.send`.
  - `revenuize` is one `addBalance('me', amount)`, which is `Database.Credited`.
  - Both are otherwise logging.
- `Treasury.send`, the `utxo-proc-start` handler and the wallet: transaction building,
  signing and broadcast are external.
- The `maturity` handler's timestamp estimate is a parameter. So is the process start
  time.
- `index.ts`, `src/kaspa.ts` and `src/pool/monitoring/index.ts` hold start-up,
  configuration and log formatting only, and are not modelled.
- A connection that disconnects is never removed from the session state, because the
  source registers no close handler.
