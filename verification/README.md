# Fathom, modelled and proved

Fathom turns an on-chain log stream into a table of payments that can be cited, and serves
aggregates of it. This project models the parts where that can go wrong and proves that they
do not. `dafny verify dfyconfig.toml` checks everything.

## What is modelled

- **Assembly** (`Chain`, `Positions`, `Assemble*`, `Cancellation`). Candidates are sorted by
  (block, log index) and walked; each takes the lowest free later USDC Transfer of its
  receipt, and a Transfer is given away only when the row is kept. `Walk` is the
  specification; the methods with the source's loops are proved equal to it. About it are
  proved: independence of input order and of batch cuts, the statistics, that no money is
  invented, that the greedy choice is optimal, and that well-formed receipts are recovered.
  What an event says is read from its topics and the bytes of its data (`EmitsTransfer`,
  `EmitsAuthorization`), and decoding is proved to be that and to undo encoding.
- **Backfill** (`Stream`, `Batch`, `Store`, `Backfill`, `Convergence`). Classes for the
  retrying fetcher, the stream cursor, the store with its atomic commit, and the run loop.
  What network, clock, operator and database do is a parameter. `Course` says how a run
  ends; its causes and when it completes are proved about it. On top stands a state
  machine in which any number of processes start, commit and stop at any time; whatever
  the schedule, the stored rows are those of one assembly of the whole chain.
- **Canvas** (`Layout`, `Graph`, `GraphInvariant`, `EntityGraph`, `Drawing`, `TxGraph`). The
  push-down loop with its termination measure, merging neighbours, ghosts, and the four lanes
  of a transaction. `Drawing` tells from the rows alone which cards and edges there are and
  where. Coordinates are reals.
- **Metadata cache** (`Meta`). Requests and rollup commits as interleaved steps over one
  shared cache.
- **Serving indexes** (`Roles`, `Ranking`, `Paging`, `Lists`, `Leaderboard`, `BoardFacts`,
  `PricePoints`, `Rollup`, `RollupFacts`). Keyset paging against the sorted list, the
  leaderboard's union table against ranking everything, price points against all amounts,
  and the rebuild of the entity tables as one step.
- **Cube and pages** (`Grouping`, `Runs`, `Cube`, `Series`, `Economy`, `EconomyPage`,
  `EconomyFacts`, `Facilitators`, `Cohorts`, `Days`, `Gas`, `GasPages`, `GasFacts`,
  `GasDaily`). A SQL `GROUP BY` is a relation between a table and its rows (`IsGroupBy`);
  the pages' loops are methods over the rows read; every figure is proved to be a direct sum
  over payments. Gas is exact rational arithmetic. The `*Facts` modules state what a page or
  a table holds over the payments' own fields, counting days by their number in the calendar.
- **Dossier and text** (`Dossier`, `Format`, `Digits`, `Text`). The graph of one
  transaction, and the exact decimal printers.

## What is assumed

- log_index is unique within a block, so within a receipt, and a transaction lies in one
  block. The sort is not stable, so the first is needed for any fixed result.
- A response for [from, next_block) holds all matched data of exactly those blocks, and the
  chain does not change underneath (`Convergence.Faithful`).
- toBlock is below 2^64 - 1, because the bound sent is toBlock + 1.
- built_at differs between rollups. A transaction commits as one step.
- A block's day prints in ten characters: years 1970 to 9999.
- Address lists and amounts come from the server as it writes them: each list names an
  address once, an amount is a decimal text.
- Text compares character by character; hashes and addresses are lower-case hex, where this
  is also the database's order.

## Where the code does other than its comments say

The model follows the code in each of these, and the exact condition is proved.

- `web/anatomy/src/lib/format.ts:45-58`: full precision is for amounts below 0.10, not 0.01
  (`FullPrecisionBelowTenCents`, `FullPrecisionAboveOneCent`).
- `web/anatomy/src/routes/Entity.tsx:14-16,46-48` with `graph.ts:202-205`: an address that
  both pays and is paid outside the lens becomes a ghost twice, and two cards share an id
  (`GhostCanAppearTwice`, `KnownLensIdsUnique`).
- `internal/metrics/economy.go:476-511`: the point marked incomplete is meant to be the
  newest day; when that day moved nothing it is skipped and an older day is marked
  (`OpenDayIsNewest`, and two cells of which this is so in `OlderDayMarked`).
- `internal/metrics/economy.go:450-474`: the largest payment is absent not only for a window
  without verified rows but also when they all moved zero (`LargestRefines`, and one such
  payment in `FreePaymentHasNoLargest`).
- `internal/anatomy/rollup.go:217-224`: a failure in the statistics run after the commit is
  reported as an error although the new tables stand (`Atlas.Rollup`).
- `internal/anatomy/meta.go:24-26`: totals are cached per stamp, yet may be newer than it,
  never older (`NeverOlderThanItsStamp`): by any rollups there are (`TotalsCanBeNewer`), and
  where totals differ exactly when one commits between the stamp read and the totals query
  (`OwnTotalsExactly`).

## Model

| member | source | states |
|---|---|---|
| Assembler.PairCompanionTransfer | internal/x402/pairing.go:25-47 | finds what Companion specifies: no Transfer iff none in the receipt is USDC, strictly later and unclaimed; else an eligible one of least log index |
| Assembler.Companion | internal/x402/pairing.go:10-47 | none iff no log is eligible; otherwise a log of the receipt, eligible, with the least index of all eligible ones |
| Chain.TransferMeans | internal/x402/decode.go:55-71 | what is decoded from a USDC Transfer log is (from, to, value) iff the log is the event of them: three topics, from and to the low 160 bits of the second and third, value the number whose 32 big-endian bytes open the data |
| Chain.TransferRoundTrip | internal/x402/decode.go:55-71 | decoding the log the token contract writes for a transfer of value < 2^256 between two addresses gives just that transfer |
| Chain.AuthorizationMeans | internal/x402/decode.go:73-92 | what is decoded from an AuthorizationUsed or AuthorizationCanceled log is (authorizer, nonce) iff the log is the event of them: three topics, the authorizer the low 160 bits of the second, the nonce the third |
| Chain.AuthorizationRoundTrip | internal/x402/decode.go:73-92 | decoding the log the token contract writes for an authorization gives just that authorization |
| Chain.BigEndianOfBytes | internal/x402/decode.go:67-69 | reading the n bytes of a number below 256^n, most significant first, gives the number |
| Assembler.JudgeCandidate | internal/x402/assemble.go:100-170 | the verdict on one candidate through all eight branches, in their order: missing transaction, denial, missing receipt, no free Transfer, undecodable Transfer or authorization, foreign authorizer, missing or overflowing block, kept |
| Assembler.VerdictMeans | internal/x402/assemble.go:99-226 | denied iff the calldata carries no selector; kept iff the context is complete and the next free Transfer is one the authorizer of the event sent, read from topics and data; the row then reports that Transfer, event, transaction and block field by field |
| Assembler.CollectCandidates | internal/x402/assemble.go:70-80 | exactly the AuthorizationUsed logs of the USDC contract, in input order |
| Assembler.WalkCandidates | internal/x402/assemble.go:97-227 | the loop over the candidates is the walk of the specification: rows, statistics, and a Transfer claimed only when its row is kept |
| Assembler.Assemble | internal/x402/assemble.go:55-240 | rows and statistics are those of walking the candidates in (block, log index) order; the rows come in that order by their own fields; any sort that only permutes into order does; what each row says is stated over topics and data bytes in VerdictMeans, NoInventedMoney and WellFormedReceiptsRecovered |
| Assembler.AssembledAscends | internal/x402/assemble.go:54 | the output is strictly ordered: by block, then by log index |
| AssembleOrder.AssembleIgnoresOrder | internal/x402/assemble.go:15-31 | permuting the logs and the receipt slices leaves rows, statistics and claims unchanged |
| AssembleOrder.StatsAddUp | internal/x402/assemble.go:19-31 | AuthLogs = Denied + Kept + Dropped; AuthLogs is the number of candidates, Kept the number of rows, Denied the number of candidates whose transaction's calldata is shorter than a selector |
| AssembleOrder.AssembleIgnoresCut | internal/x402/assemble.go:55-240 | assembling two parts that share no transaction, each with its own context, gives together the rows and the four statistics of the whole |
| AssembleOrder.WalkSplits | internal/x402/assemble.go:95-227 | the walk over a batch is two independent walks over its sides, claims included |
| AssembleMoney.NoInventedMoney | internal/x402/assemble.go:88-95 | every row is backed by a log of its receipt, later than its authorization, that is by its bytes a USDC Transfer of the row's payer, payee and amount, and has its transaction and block; later rows of a transaction take strictly later Transfers; no payer is reported to have paid more than their Transfers moved |
| AssembleMoney.BindingsKeepOrder | internal/x402/assemble.go:64-69 | within a receipt earlier kept authorizations hold earlier Transfers, so no Transfer backs two rows |
| AssembleMoney.BindingsAreBacked | internal/x402/assemble.go:119-148 | each kept row has a decoded, unclaimed, later Transfer whose sender is the authorizer |
| AssembleMoney.PaidPlusUnclaimed | internal/x402/assemble.go:219-226 | along the walk, money reported plus money not yet claimed never grows |
| AssembleGreedy.GreedyIsOptimal | internal/x402/assemble.go:81-128 | of any batch, each transaction with one payer and full context yields as many rows as any disjoint pairing of its authorizations with later Transfers could keep; the rest, the largest suffix excess, is dropped; the other transactions' statistics are added to that |
| AssembleGreedy.NoPairingBeatsExcess | internal/x402/pairing.go:25-47 | no pairing of any kind keeps more than the suffix excess allows |
| AssembleGreedy.GreedyLeavesExcess | internal/x402/pairing.go:25-47 | the lowest-free-later choice leaves out exactly the suffix excess |
| AssembleGreedy.WalkIsGreedy | internal/x402/assemble.go:97-227 | on such receipts the walk keeps and drops as the greedy pairing on log indexes does |
| AssembleRecovery.WellFormedReceiptsRecovered | internal/x402/assemble.go:97-226 | every authorization whose own Transfer, by topics and data, is the next of its receipt becomes a row with that Transfer's payer, payee and amount, whatever else the batch holds; other candidates may be undecodable, incomplete or followed by stray Transfers |
| AssembleRecovery.WalkRecovers | internal/x402/assemble.go:97-226 | the same along the walk, from any state in which those Transfers are free |
| Cancellations.ExtractCancellations | internal/x402/cancellation.go:56-100 | the rows of the cancelled authorizations with full context, in input order |
| Cancellations.Extracted | internal/x402/cancellation.go:56-100 | a row is there iff some log yields it: right event, decodable, transaction and block known, timestamp in range |
| Cancellations.CancellationMeans | internal/x402/cancellation.go:62-98 | a log gives a row iff it is the AuthorizationCanceled event of the row's authorizer and nonce and its transaction and block are known with a timestamp that fits; the row has the submitter and that timestamp |
| Cancellations.ExtractedAreRecorded | internal/x402/cancellation.go:56-100 | the rows are exactly those that some log records in that sense |
| Cancellations.ExtractedInOrder | internal/x402/cancellation.go:49-100 | one row for each cancellation event whose transaction and block are known with a timestamp in range, in log order, recording it |
| Stores.Store.InsertBatch | internal/base/store.go:216-249 | one transaction: it succeeds iff no fault strikes a statement it issues; on success, or on a failed commit that took effect, payments and cancellations are inserted first-wins by key and the cursor advanced; otherwise nothing changes |
| Stores.InsertAll | internal/base/store.go:108-165 | rows stored before stay, every inserted key is present afterwards, nothing else appears |
| Stores.AdvanceIsMaximum | internal/base/store.go:344-355 | the cursor becomes the larger of itself and the batch's highest block, and block 0 never creates one |
| Stores.Store.constructor | internal/base/store.go:174-176 | begins on empty tables |
| Batches.DecodeBatch | internal/base/backfill.go:165-198 | None iff some row does not convert; otherwise assembly and cancellations over the batch's logs, each transaction's receipt in order, and for each hash and block number the last element sent (TransactionsAreLast, BlocksAreLast, ReceiptsAreFilters) |
| Batches.TransactionsAreLast | internal/base/backfill.go:177-184 | a hash is known iff some element of the batch carries it, and then with the body of the last one that does |
| Batches.BlocksAreLast | internal/base/backfill.go:186-193 | a block number is known iff some element carries it, and then with the header of the last one that does |
| Convergence.ReceiptsAreFilters | internal/base/backfill.go:166-175 | a transaction's receipt is the batch's logs with its hash, in the order they came |
| Batches.MaxBlock | internal/base/hypersync_types.go:120-128 | the highest block number of the batch, 0 without blocks |
| Batches.HighestBlock | internal/base/hypersync_types.go:117-128 | an upper bound on every block number, reached unless it is 0 |
| Streams.HttpFetcher.PostWithRetry | internal/base/hypersync_http.go:173-203 | result, posts issued and sleeps begun are those of the retry specification from the first attempt |
| Streams.RequestIsBounded | internal/base/hypersync_http.go:164-203 | at most maxRetries + 1 posts; a body is returned iff the last post came with status 200, and it is that post's body |
| Streams.RequestIsAnswered | internal/base/hypersync_http.go:173-203 | a request gets a body iff some post of its first maxRetries + 1 is answered with status 200 and that body, all before it being transport errors nobody cancelled or status 429, each slept out |
| Streams.RequestSleepsOnSchedule | internal/base/hypersync_http.go:205-230 | a request sleeps after each post but the last, or after the last too when cut short; the k-th sleep follows a transport error or status 429, is the one the doubled delay and Retry-After prescribe, and is at most a minute |
| Streams.DoubledIsPower | internal/base/hypersync_http.go:186-203 | as long as it fits in 64 bits the k-th delay is the base delay times 2^k |
| Streams.Wait | internal/base/hypersync_http.go:205-217 | never beyond a minute, and exactly Retry-After when the server sends one within it |
| Streams.HttpStream.Next | internal/base/hypersync_http.go:115-157 | ends cleanly iff done; otherwise posts and sleeps are those of the retry specification, and a batch is handed out iff the request's body holds one that advances, so whenever the last post was answered with one; then the cursor is its next_block and done iff the bound is reached; a server that does not advance gives an error and a dead stream |
| Streams.HttpStream.constructor | internal/base/hypersync_http.go:97-105 | starts at the first block with the exclusive bound |
| Backfill.LossMeansDropsOnly | internal/base/backfill.go:152-159 | the guard speaks up iff the batch yields no row although some candidate was dropped; denials alone do not count |
| Backfill.CursorIsHighest | internal/base/store.go:216-249 | after any committed batches the cursor is the highest block of them all, or where it was |
| Backfill.RunBackfill | internal/base/backfill_entry.go:23-71 | refuses an empty range; otherwise result, tables, posts and block reached are those of the course of one run with a fetcher of its own, ended for a cause, within (toBlock - fromBlock + 1) * (maxRetries + 1) posts; reports the cursor iff complete: the highest block committed or where it was |
| Streams.BudgetIsProduct | internal/base/hypersync_http.go:173-203 | the budget of posts is requests times (maxRetries + 1) |
| Backfill.Backfiller.Process | internal/base/backfill.go:86-123 | DecodeFailed iff some row does not convert; CandidatesLost iff all candidates are lost and that is not allowed; InsertFailed iff neither and the database strikes; otherwise it goes on; the batch is in the tables iff it got that far and was not struck, or its failed commit had taken effect |
| Backfill.Backfiller.Turn | internal/base/backfill.go:65-123 | one turn is the one specified: it completes iff the bound is reached, else asks, and hands the batch that came to decode, guard and commit; posts, sleeps, stream and tables included |
| Backfill.Backfiller.Run | internal/base/backfill.go:57-150 | it ends as its course does, with that result, tables, block reached, posts and sleeps; the tables are the old ones plus the committed batches, which tile the range from the left; each ending has its cause; at most one request per block |
| Backfill.EndsForACause | internal/base/backfill.go:57-150 | a run is interrupted iff a shutdown request is seen before its last fetch; complete only past the bound; a stream, decode or guard failure leaves it short of that, at a block where some request brings no advancing batch, or one that does not convert or is all lost; an insert failure needs a database fault in that turn |
| Backfill.AnsweredRunCompletes | internal/base/backfill.go:57-150 | progress: a run that nothing interrupts and no fault strikes completes, if from each block of the range on some post within the retries brings a batch that advances, converts and is not all lost (or loss is allowed) |
| Backfill.Backfiller.constructor | internal/base/backfill.go:45-51 | holds the given fetcher, store and option |
| Backfill.ReachedGrows | internal/base/hypersync_http.go:133-157 | every batch of a tiling advances the cursor by at least one block |
| Backfill.LastTileStartsInside | internal/base/hypersync_types.go:249-252 | a tiling of [from, bound) has at most bound - from batches |
| Convergence.FaithfulPayments | internal/base/backfill.go:165-198 | a faithful batch yields exactly the rows of assembling its blocks out of the whole chain |
| Convergence.FaithfulCancellations | internal/base/backfill.go:165-198 | and exactly their cancellations |
| Convergence.HonestIsFaithful | internal/base/backfill.go:165-198 | a batch that holds the chain's logs of a range, their transactions and their blocks is a faithful answer, so the hypothesis of the convergence results can be met for every chain and range |
| Convergence.RangeRows | internal/x402/assemble.go:55-240 | assembling any block range gives exactly the rows of the whole chain that lie in it |
| Convergence.RangeCancellations | internal/x402/cancellation.go:56-100 | so do cancellations |
| Convergence.ExpectedKeysDiffer | internal/base/store.go:108-142 | the primary key tells any two rows of the chain apart |
| Convergence.ExpectedCancellationKeysDiffer | internal/base/store.go:143-165 | and any two cancellations |
| Convergence.CommitKeepsRows | internal/base/store.go:216-249 | committing a faithful batch keeps the tables sound, covers its blocks, and loses no coverage |
| Convergence.CommitMovesCursor | internal/base/store.go:344-355 | a commit moves the cursor only forward, and only into the blocks it covers |
| Convergence.StepKeepsInv | internal/base/backfill.go:20-23 | every start, commit and stop of any number of processes keeps: tables sound, covered from S to the cursor and to wherever each process has got |
| Convergence.ScheduleConverges | internal/base/backfill.go:57-149 | after any schedule of starts, commits, halts and crashes, the rows stored from S to the cursor, and to the end of any finished range, are those of assembling these blocks at once; nothing else is stored |
| Convergence.PassConverges | internal/base/backfill.go:57-149 | the tables a Run leaves, whatever ended it, keep that invariant, and hold exactly the rows from S to where it got: its last block, if it completed |
| Convergence.ResumingIsAllowed | internal/base/store.go:276-300 | starting after the block the store reports, 0 before the first commit, is an allowed step of every schedule |
| Convergence.ResumedCommitIsExact | internal/base/store.go:276-300 | going on from there and committing one faithful batch leaves everything from S to the end of that batch exact |
| Layout.PlaceColumn | web/anatomy/src/canvas/layout.ts:31-51 | the column is the one specified; the inner loop ends because fewer rectangles reach below the probe each time |
| Layout.SettledIsClear | web/anatomy/src/canvas/layout.ts:39-46 | a card comes to rest clear of everything, straight below where it was wanted: there, or one gap beneath an obstacle |
| Layout.ReachingFalls | web/anatomy/src/canvas/layout.ts:41-45 | pushing the probe below a collider strictly lowers the number of rectangles that reach below its top |
| Layout.ColumnKeepsApart | web/anatomy/src/canvas/layout.ts:31-51 | one rectangle per size, in order, at least ROW_GAP apart, out of place only because of an obstacle, and disjoint from everything if that was |
| Layout.ColumnIsCentred | web/anatomy/src/canvas/layout.ts:31-38 | on an empty canvas the column is centred on the line asked for |
| Layout.Collider | web/anatomy/src/canvas/layout.ts:27-29 | none iff the probe overlaps nothing; otherwise a rectangle it overlaps |
| Layout.OverlapMeans | web/anatomy/src/canvas/layout.ts:15-17 | two rectangles with area overlap iff some point lies inside both |
| Graph.Merge | web/anatomy/src/canvas/graph.ts:114-151 | the merged canvas, or the same one if the anchor is not on it; over the rows' own fields, which cards and edges that adds is MergeJoins, MergeDraws |
| Graph.PushFresh | web/anatomy/src/canvas/graph.ts:123-141 | a card for each row not on the canvas yet, placed around what is there |
| Graph.PushEdges | web/anatomy/src/canvas/graph.ts:142-148 | an edge for each row whose edge id is new |
| Drawing.MergeJoins | web/anatomy/src/canvas/graph.ts:100-151 | after a merge each payer is joined to the anchor by an edge from payer to anchor, each payee from anchor to payee, each facilitator and settled payer by a settles edge to it, each settled payee by one from it; every edge not there before is one of these, with the share and lens mark of its row |
| Drawing.NameTellsEnds | web/anatomy/src/canvas/graph.ts:142-148 | where no id holds an edge mark, an edge so named runs between just those two cards, and settles or not as its mark says |
| Drawing.EdgesInOrder | web/anatomy/src/canvas/graph.ts:142-148 | new edges follow the old ones in the order the lists and rows first ask for them, each id once |
| Drawing.MergeDraws | web/anatomy/src/canvas/graph.ts:102-141 | a merge adds five columns: payers left of the anchor, payees right, facilitators above, settled payers left, settled payees right; one card for each row whose address was not on the canvas before, with that list's role (ghost outside the lens), each at its place in the column or right beneath an obstacle |
| GraphInvariant.MergedKeeps | web/anatomy/src/canvas/graph.ts:114-151 | edge ids stay unique, edges end at cards, cards stay disjoint, old nodes and edges stay as an unmoved prefix; node ids stay unique iff no list repeats an address that is new |
| GraphInvariant.MergeTwice | web/anatomy/src/canvas/graph.ts:198-200 | merging the same neighbours again changes nothing |
| EntityGraph.BuildEntityGraph | web/anatomy/src/canvas/graph.ts:153-196 | the subject, its neighbours, the ghosts, and the primary mark on the first highest-share edge |
| Drawing.BuildDraws | web/anatomy/src/canvas/graph.ts:153-196 | the first canvas is the subject's card at the origin, its neighbours' columns and joining edges, and the ghosts' column, but for the mark on one edge |
| EntityGraph.BuildIsOrderly | web/anatomy/src/canvas/graph.ts:153-196 | every built canvas is orderly; its ids are unique iff no list repeats a new address |
| EntityGraph.OnePrimary | web/anatomy/src/canvas/graph.ts:178-195 | exactly one edge is marked, the first competing one of highest share, or none if none competes above -1; nothing else is changed |
| EntityGraph.BestIsFirst | web/anatomy/src/canvas/graph.ts:180-190 | the edge chosen competes, none has a higher share, and every competing edge before it has a strictly lower one |
| EntityGraph.Best | web/anatomy/src/canvas/graph.ts:180-190 | an in-lens flow edge of the subject, of highest share, above -1 |
| EntityGraph.ExpansionsKeepOrder | web/anatomy/src/canvas/graph.ts:198-200 | over any sequence of expansions the canvas stays orderly, only grows, and keeps unique ids for grouped lists; afterwards any expansion made twice in a row is that expansion made once |
| Drawing.ExpansionDraws | web/anatomy/src/canvas/graph.ts:198-200 | expanding a card adds only expandable entity cards and edges within the lens, and joins the card to each of its neighbours |
| EntityGraph.RepeatedExpansionChangesNothing | web/anatomy/src/canvas/graph.ts:198-200 | however many others come in between, an expansion whose card was there the first time changes nothing the second time; without its card the first time changed nothing |
| EntityGraph.GhostCanAppearTwice | web/anatomy/src/routes/Entity.tsx:40-60 | the ghost list can name an address twice although every server list is grouped, and then two cards share an id |
| EntityGraph.KnownLensIdsUnique | web/anatomy/src/canvas/graph.ts:202-205 | exactly when: ids are unique iff each address repeated among the ghosts is on the canvas already |
| Drawing.GhostsAreUnnamed | web/anatomy/src/routes/Entity.tsx:14-16 | the ghosts are the first four of those, payers before payees, that the wide lens names and the narrow one does not |
| Drawing.GhostsDraw | web/anatomy/src/canvas/graph.ts:174-177 | ghosts add one column of ghost cards to the right of the subject, of those not on the canvas, and edges from the subject to each, marked as outside the lens; nothing else |
| EntityGraph.EdgeIdsTellEdgesApart | web/anatomy/src/canvas/graph.ts:87-98 | an edge id determines source, target and kind when the source holds neither mark |
| TxGraph.TxGraphToFlow | web/anatomy/src/canvas/txgraph.ts:35-71 | the transaction card, then four lanes, all pairwise disjoint, one card for each other node; every edge of the graph with its ends, and if the graph has one transaction each end is a card |
| TxGraph.EdgesEndAtCards | web/anatomy/src/canvas/txgraph.ts:59-71 | edges that end at nodes of the graph end at cards of the flow |
| TxGraph.NodeHasCard | web/anatomy/src/canvas/txgraph.ts:35-60 | every node of a graph with one transaction has its card |
| TxGraph.LanesPartition | web/anatomy/src/canvas/txgraph.ts:42-46 | the four lanes together show every node but the transactions, each once |
| TxGraph.PlaceLane | web/anatomy/src/canvas/txgraph.ts:48-60 | a lane is laid out around everything before it |
| TxGraph.FillLanes | web/anatomy/src/canvas/txgraph.ts:43-46 | each node goes to its lane, in order |
| TxGraph.LanesDrawn | web/anatomy/src/canvas/txgraph.ts:9-64 | payers stand left of the transaction, those who only settle above, all other addresses right, events below: for each lane the cards of just those nodes, in order, at its x, in boxes of its size, each at its place in the column or right beneath something placed before |
| TxGraph.HeadIsFirst | web/anatomy/src/canvas/txgraph.ts:36-41 | the transaction card is that of the first transaction node, at the origin |
| Meta.ReadTotals | internal/anatomy/meta.go:72-93 | the totals of the payer rows per lens, zero for a lens without rows |
| Meta.TotalsAreSums | internal/anatomy/meta.go:72-93 | per lens the totals are the number and the volume of the payer rows, all of them or those of known facilitators |
| Meta.StepKeepsInv | internal/anatomy/meta.go:41-66 | every step of every request and every rollup keeps: the cache and each response hold the totals of a generation no older than their stamp, the one current when they were queried |
| Meta.NeverOlderThanItsStamp | internal/anatomy/meta.go:35-66 | under any interleaving, totals served with the stamp of generation g are those of the generation t current when they were queried, and g <= t <= the one current at the end |
| Meta.OwnTotalsExactly | internal/anatomy/meta.go:35-66 | exactly when they are the stamp's own: iff generation t has these totals; where totals differ between generations iff t = g, that is iff no rollup commits between the stamp read and the totals query |
| Meta.NeverOlderThanItsRequest | internal/anatomy/meta.go:35-66 | whatever happens after a request arrives, stamp and totals it is served are of no generation older than the newest one committed by then |
| Meta.NextRequestIsSpared | internal/anatomy/meta.go:35-40 | once a request has recomputed the newest stamp's totals, the next one gets the same answer from the cache in two steps, without a query |
| Meta.TotalsCanBeNewer | internal/anatomy/meta.go:41-66 | whatever the rollups are, for any g <= t <= e some feasible run serves the stamp of g with the totals of t and finishes at e, so the bounds are sharp |
| Ranking.TopOfPart | internal/anatomy/rollup.go:166-172 | a part of a set that keeps its first n has the same first n |
| Ranking.RowNumberOfTop | internal/anatomy/rollup.go:156-165 | row_number() <= n iff among the first n |
| Ranking.OrderedIsUnique | internal/anatomy/lists.go:114 | only one sequence lists a finite set in a total order |
| Ranking.TopIsPrefix | internal/anatomy/lists.go:115 | a limited answer is a prefix of the whole one |
| Paging.FollowingChain | internal/anatomy/lists.go:79-137 | for any order: pages taken one after the other show no row twice or out of order, and with the last page every row there from the start, whatever is inserted in between |
| Paging.ChainIsTheSortedList | internal/anatomy/lists.go:79-137 | over a table that stands still the pages are the sorted list, and there are only as many full pages as its rows fill |
| Lists.ParseCursor | internal/anatomy/lists.go:139-158 | the first page iff the text is empty; a key iff the text spells it: block, hash and index joined by two colons, none in the first two parts, both numbers parsing to the key's; malformed iff it is not empty and spells no key |
| Lists.CursorMeans | internal/anatomy/lists.go:139-158 | a text is taken for a key exactly when it spells that key |
| Lists.CursorRoundTrip | internal/anatomy/lists.go:134-158 | the cursor printed for a key parses back to that key |
| Lists.MatchesMeans | internal/anatomy/lists.go:77-108 | a row is listed iff the address is its payer, payee or facilitator, as the role says, and its facilitator is known if the lens asks for that |
| Lists.NewerMeans | internal/anatomy/lists.go:113 | newer is the higher block, then the later hash, then the higher log index |
| Lists.ParseIntMeans | internal/anatomy/lists.go:151-156 | a text parses iff it is a sign or none and digits, and the number they stand for fits in 64 bits |
| Lists.NewestFirstSorts | internal/anatomy/lists.go:103-114 | the key orders the rows of a table totally, newest first |
| Lists.PastIsAfter | internal/anatomy/lists.go:84-86 | the expanded cursor predicate holds of just the rows that stand after the key in the ORDER BY |
| Lists.Payments | internal/anatomy/lists.go:88-137 | an error iff the cursor is malformed; otherwise the page cut from one row more than asked for |
| Lists.TrimmedIsSheet | internal/anatomy/lists.go:131-135 | the rows kept are the first limit ones, there is a Next iff there are more, and it parses to the key of the last row shown |
| Lists.FollowingNext | internal/anatomy/lists.go:79-137 | from the empty cursor, whatever is inserted between pages: no repeat, strictly newest first, only matches, and no match present throughout is missed |
| Lists.PagingIsTheSortedList | internal/anatomy/lists.go:79-137 | over a standing table the pages are all matches, each once, in strictly descending key order, and the paging ends |
| Leaderboards.OrderSorts | internal/anatomy/rollup.go:158-163 | the address breaks every tie, so each metric orders the entities in one way |
| Leaderboards.IndexIsFaithful | internal/anatomy/rollup.go:133-172 | for each window, role, lens and sort, the first 500 rows of the union table are the first 500 of all entities |
| Leaderboards.SeenSpansAll | internal/anatomy/rollup.go:142-143 | first and last seen are those of the earliest and the latest payment |
| Leaderboards.RanksFollowMetric | internal/anatomy/leaderboard.go:17-23 | down the page the metric never rises and ties stand by address |
| Ranking.PlaceIsRowNumber | internal/anatomy/leaderboard.go:57-58 | the place of a row among the first ones is its row number among all |
| Ranking.RankIsPlace | internal/anatomy/rollup.go:103-121 | row_number() r up to n is standing r-th among the first n |
| PricePoints.StoredAreCommonest | internal/anatomy/rollup.go:86-121 | a price point is stored iff it stands among the 64 commonest amounts, under its place there, with the number of all distinct amounts |
| PricePoints.NoneCommonerIsLeftOut | internal/anatomy/rollup.go:94-121 | a stored point counts the payments of its amount, and no amount that is left out is paid more often, or as often and smaller |
| PricePoints.RanksAreTaken | internal/anatomy/rollup.go:104-121 | the ranks stored are 1 to 64, or to the number of distinct amounts if that is less, and every row tells that number |
| PricePoints.OnePriceMeansOneAmount | internal/anatomy/rollup.go:86-90 | one distinct amount is reported iff every payment is of that amount, however the tail is cut |
| Leaderboards.Leaderboard | internal/anatomy/leaderboard.go:26-61 | refuses an unknown sort and other chains; otherwise lists the first 500 of all entities, each with its rank among all and the label its address has, empty without one |
| BoardFacts.EntityDescribes | internal/anatomy/rollup.go:133-155 | an entity counts and adds the payments of its address in that window, role and lens, its distinct counterparties, and the first and last time among them |
| BoardFacts.ListedIsShown | internal/anatomy/leaderboard.go:26-61 | a page of at most 500 rows, numbered from 1, each with its label and describing its address's payments, each ahead of the next by the key asked for and then by address |
| BoardFacts.NoneIsForgotten | internal/anatomy/leaderboard.go:26-61 | an address with a payment in the window, role and lens is on the page, or the page is full of entities ahead of it |
| Rollups.RoleSumsPayments | internal/anatomy/rollup.go:80-84 | the unpivoted parts of one role sum to the payments: none lost, none counted twice |
| Rollups.PayerDaysAreAllPayments | internal/anatomy/meta.go:21-23 | the payer rows carry every payment of a lens once: the totals the metadata serves |
| Rollups.TablesAgreeOnPayers | internal/anatomy/rollup.go:36-84 | a payer's days, its edges and its all-time leaderboard row carry one count and one volume |
| Rollups.TablesAgreeOnPayees | internal/anatomy/rollup.go:36-84 | so do a payee's |
| Rollups.CounterpartiesAreEdgeEnds | internal/anatomy/rollup.go:141-155 | the distinct counterparties a payer is ranked by are the payees of its edges |
| Rollups.TablesAgreeOnFacilitators | internal/anatomy/rollup.go:54-84 | both sides of a facilitator's table and its days carry one count and one volume |
| Rollups.GroupRows | internal/anatomy/rollup.go:41-45 | the grouping a statement asks for exists and is computed: each key once, each group summed |
| RollupFacts.EdgeRowMeans | internal/anatomy/rollup.go:36-45 | an edge row counts and adds the payments from its payer to its payee with its facilitator's membership |
| RollupFacts.SideRowMeans | internal/anatomy/rollup.go:54-64 | a facilitator's side row counts and adds the payments it settled whose payer, or payee, is the counterparty |
| RollupFacts.DayRowMeans | internal/anatomy/rollup.go:71-84 | an entity's day row counts and adds the payments of that day in which the address plays that role |
| RollupFacts.PointsMean | internal/anatomy/rollup.go:94-121 | an entity's price points are those of the amounts of the payments in which it plays that role |
| Rollups.ReplaceManualSignals | internal/anatomy/rollup.go:228-247 | manual rows are replaced by the curated ones, the others stay |
| Rollups.CuratedAreLabels | internal/anatomy/rollup.go:228-247 | the manual signals written are just those of the curated labels |
| Rollups.Atlas.Rollup | internal/anatomy/rollup.go:196-226 | edges, sides, days, price points, leaderboard and stamp come from one snapshot, before and after; a failure in any of the seven statements or a commit not taken changes nothing, one after the commit leaves the new tables |
| Rollups.CommittedBoardsAreFaithful | internal/anatomy/rollup.go:133-172 | a stored board holds just the entities among the first 500 by some key, and its first 500 by any key are the first 500 of all entities of the snapshot |
| Rollups.Atlas.constructor | internal/anatomy/rollup.go:182-188 | empty tables are those of no payments |
| Rollups.RollupTwiceKeepsSignals | internal/anatomy/rollup.go:190-195 | replacing the manual rows again by the same ones changes nothing |
| Rollups.SnapshotFixesTables | internal/anatomy/rollup.go:190-195 | two rebuilds of one snapshot have the same edges, sides and days, each once, the same price points, leaderboard and data day |
| Grouping.GroupsSum | internal/metrics/rollup.go:16-31 | any selection of groups by key sums to the members selected by the same condition |
| Grouping.SumPermutes | internal/metrics/mechanics_page.go:296-298 | a sum does not depend on the order the rows are read in |
| Grouping.GroupingsAgree | internal/anatomy/rollup.go:190-195 | two groupings of the same rows have the same groups, each once |
| Grouping.NewGroup | internal/metrics/page.go:271-277 | a member with a new key opens a group |
| Grouping.JoinGroup | internal/metrics/page.go:271-277 | a member with a known key joins its group |
| Cube.SlicesRefine | internal/metrics/page.go:204-237 | whatever is selected by day and band, the slices read back from the cube total what those verified payments total |
| Cube.SumWindow | internal/metrics/page.go:239-256 | the window's total, and its split by band |
| Cube.BoundIsWindow | internal/metrics/page.go:81-91 | comparing day texts with the bound's text keeps exactly the days of the window |
| Cube.WindowIsLastDays | internal/metrics/page.go:81-85 | "7d" and "30d" are the last day and the 6 or 29 days before it, no other |
| Cube.WindowCountsDays | internal/metrics/page.go:81-91 | a window takes the days up to its last whose day numbers are less than 7 or 30 before it, or all of them |
| Cube.WindowRefines | internal/metrics/page.go:239-256 | a window's total and each of its bands are direct sums over the verified payments |
| Cube.BandsSumToWindow | internal/metrics/page.go:239-256 | the bands sum to their window |
| Runs.RowOpens | internal/metrics/page.go:258-284 | a later key opens a new run at the end |
| Runs.OrderGrows | internal/metrics/economy.go:143-154 | keys listed as they first appear stay sorted |
| Series.DailySeries | internal/metrics/page.go:258-284 | one point per day there is, days strictly rising, each the sum of its slices; only the last is incomplete |
| Series.MonthlySeries | internal/metrics/economy.go:133-172 | one point per month there is, months strictly rising, each the sum of its slices; the month texts always parse |
| Series.CollectMonths | internal/metrics/economy.go:143-154 | totals per month, the months listed in order |
| Series.CompleteMeansEveryDay | internal/metrics/economy.go:129-132 | a month is complete iff each of its days lies within the data |
| Economy.DailyIsDirect | internal/metrics/page.go:258-284 | each daily point is the direct sum of its day, and the series sums to the "all" window |
| Economy.MonthlyIsDirect | internal/metrics/economy.go:133-172 | each monthly point is the direct sum of its month, and the series sums to the "all" window |
| Economy.LargestInWindow | internal/metrics/economy.go:455-474 | the largest cell maximum of the window, absent when it is not positive |
| Economy.LargestRefines | internal/metrics/economy.go:450-474 | it is the amount of some verified payment of the window and none is larger; absent iff they all moved zero, not only when there are none |
| Economy.FreePaymentHasNoLargest | internal/metrics/economy.go:450-474 | an instance: a window whose one verified payment moved nothing shows no largest payment |
| Economy.ExcludedIsTheRest | internal/metrics/page.go:286-308 | the excluded totals are direct sums over the payments that are not verified; with the verified ones they make up all |
| EconomyPages.FlagsHold | internal/metrics/economy.go:129-166 | each flag says complete iff every day of the month lies between the first verified payment and asOf |
| EconomyPages.BuildWindow | internal/metrics/page.go:164-179 | one window with its bands and its maximum, against the payments |
| EconomyPages.BuildEconomy | internal/metrics/page.go:129-202 | refused iff there is no verified payment, or iff asOf is not the last verified day, naming both days; otherwise windows, bands, days, months, flags, maxima and excluded totals are direct sums over payments, told field by field in PageIsShown |
| Cube.BandMeans | database/migrations/00009_metrics_rollup_v1.sql:6-13 | the bands are below 0.01, 1, 100, 1000 and the rest, each from its lower bound on |
| EconomyFacts.PageIsShown | internal/metrics/page.go:129-202 | over the payments' own fields: each window counts and adds its verified payments by day number, each band those of its amounts, with the largest; each day and month point those whose day prints so, each day but the last complete; excluded are the unverified up to the edge |
| Economy.EdgeOfPayments | internal/metrics/page.go:130-152 | the cube's verified edge is the last day of a verified payment |
| Facilitators.BuildFacilitators | internal/metrics/page.go:355-425 | each row's all-time, 30d and 7d measures are direct sums over its verified payments, and the total is that of all of them; rows stand by volume, ties by address; a facilitator is listed as known iff it settled a verified payment |
| Facilitators.ListedMeansSettles | internal/metrics/page.go:351-354 | listed, and as known, iff it settled a verified payment: no cap and no other row |
| Facilitators.RowsSumToWhole | internal/metrics/page.go:320-326 | the rows conserve to the overall verified total |
| Facilitators.RowsAreShown | internal/metrics/page.go:355-425 | each row counts and adds what its facilitator settled: of all time, in the last 7 days and in the last 30 |
| Cohorts.CohortsPartition | internal/metrics/economy.go:513-522 | new and returning volume make up the window's verified volume, new and returning payers its payers |
| Cohorts.NewMeansNoneBefore | internal/metrics/rollup.go:200-235 | a payer is new iff none of its verified payments lies before the window |
| Cohorts.CohortsAreFacts | internal/metrics/rollup.go:200-235 | new are the payers of the window without a verified payment before its first day, returning those with one; each cohort's volume is that of its payments in the window |
| Days.DaysCompare | internal/metrics/page.go:81-85 | day texts compare as the days do |
| Days.ReachIsLastDays | internal/metrics/page.go:81-91 | reaching back n days takes in the last day and the n before it, no other |
| Days.BackIsSoManyLess | internal/metrics/page.go:81-91 | n days back is the day whose number is n less, numbers counting days through months and leap years |
| Days.EarlierIsByNumber | internal/metrics/page.go:81-85 | earlier is having the smaller day number |
| Days.FormatMeans | internal/metrics/page.go:81-85 | a printed day holds the decimal digits of year, month and day at their places |
| Days.ParseDayOfFormat | internal/metrics/mechanics_page.go:292-318 | a day read back from its text is that day |
| Days.MonthEndIsLastDay | internal/metrics/economy.go:163 | AddDate(0, 1, -1) of a month's first day is its last day |
| Gas.TxIsSharedOut | internal/metrics/rollup.go:119-131 | the parts given to a transaction's payments add up to its cost |
| Gas.TalliesCountedOnce | internal/metrics/rollup.go:131-160 | over cells that take transactions whole, the L2 and the L1 cost is that of each transaction once |
| Gas.TalliesAreConserved | internal/metrics/rollup.go:131-160 | for any rows, the stored L2 and L1 costs of all cells sum to those of the transactions, each the largest its rows carry |
| GasFacts.CostIsLargest | internal/metrics/rollup.go:133-140 | a transaction's L2 cost is at least every gas_cost_wei of its rows and one of them has it; its L1 cost the same of l1_fee, an absent fee counting 0; and its rows are counted |
| GasFacts.CostCountedOnce | internal/metrics/rollup.go:131-160 | for any L2 cost, L1 fee and week per transaction that its rows carry, the fee on some of them or zero, cells taking transactions whole hold just the sums of these over the distinct transactions, and their dollars at the week's price |
| GasFacts.GasIsConserved | internal/metrics/rollup.go:131-160 | conservation, over the rows' own facts: the whole table holds the L2 cost, the L1 fee and the dollars of each transaction, counted once, however its rows fall into cells |
| Gas.DollarsCountedOnce | internal/metrics/rollup.go:126-131 | so are the dollars: execution gas and L1 fee of each transaction at the price of its week |
| Gas.CellsCount | internal/metrics/rollup.go:147-155 | cells count their payments and those whose part of the cost exceeds what they move |
| GasFacts.CountsAreFacts | internal/metrics/rollup.go:147-155 | cells count their payments, add what these move, and count as breakeven those whose even part of their transaction's dollars exceeds what they move |
| GasFacts.OnlyPricedAreCounted | internal/metrics/rollup.go:156-160 | whatever weeks have a price, cells count and add just the payments of those weeks |
| GasPages.BuildGasWindow | internal/metrics/economy.go:356-372 | the window bounded by comparing day texts is the table's window, each of its bands the table's cells of that band in the window, and the bands sum to it |
| GasPages.ReadCosts | internal/metrics/mechanics_page.go:308-333 | every day text parses, to the day it was printed from |
| GasPages.SumCosts | internal/metrics/mechanics_page.go:337-347 | the sum over the rows whose date is in the window |
| GasPages.ReadMechCost | internal/metrics/mechanics_page.go:284-349 | the window by date comparison is the table's window; without verified rows the cost stays zero |
| GasPages.BothPages | internal/metrics/mechanics_page.go:280-283 | the two pages show the same cost for every window, in whatever order each reads the rows |
| GasPages.AnyOrderSumsToTable | internal/metrics/mechanics_page.go:296-298 | the rows read sum to the table's window in any order |
| GasPages.WindowCostsEachTxOnce | internal/metrics/rollup.go:119-130 | a window shows L2, L1 and dollar cost of each verified transaction of its days once, and counts its payments |
| GasFacts.WindowIsFacts | internal/metrics/rollup.go:119-131 | a window shows each verified transaction of its days once, and counts and adds its payments, days being counted by number |
| GasFacts.BandIsFacts | internal/metrics/economy.go:356-372 | a band of a window counts and adds its own payments, each with its even part of its transaction's L2 cost, L1 fee and dollars |
| GasDaily.AnchorsAgree | internal/metrics/mechanics_page.go:280-294 | the mechanics page's anchor is the day the economy page insists on |
| GasDaily.CollectDays | internal/metrics/economy.go:486-495 | dollars and volume per day, days in order |
| GasDaily.PriceDays | internal/metrics/economy.go:496-510 | the days that moved something, in order, the last marked |
| GasDaily.CostDailySeries | internal/metrics/economy.go:476-511 | the points of the days' own totals: one for each day that moved anything, in order, only the last incomplete |
| GasDaily.SeriesShows | internal/metrics/economy.go:476-511 | each point's cents times what the cells of its day moved are 100 times what they cost; the days are just those that moved something, in order, only the last marked incomplete |
| GasDaily.OpenDayIsNewest | internal/metrics/economy.go:476-511 | the point marked incomplete is the newest day iff that day moved something |
| GasDaily.OlderDayMarked | internal/metrics/economy.go:505-509 | an instance: over two cells, the newer of a payment of nothing, the only point is the older day, marked incomplete |
| Dossier.BuildGraph | internal/anatomy/dossier.go:192-266 | the graph shows exactly what the rows say: events and edges row by row, the transaction, and one node per address in the order of first mention, with its roles, flags and label |
| Dossier.GraphIsWellFormed | internal/anatomy/dossier.go:192-266 | node ids and edge ids are unique, every edge ends at nodes, three edges per row |
| Dossier.RowsAreDrawn | internal/anatomy/dossier.go:223-265 | each row has its event node with its log index and flags, the three edges transaction to event, payer to payee with the amount, facilitator to event, and no other event or edge is there |
| Dossier.AddressNodeIsTrue | internal/anatomy/dossier.go:192-257 | an address has a node iff some row names it; its roles are exactly those it plays, each once; selfSettled is true iff some row it settles is self-settled and absent iff it settles none; the known flag is that of the last row it settles, the label the last one among those rows |
| Dossier.RolesArePlayed | internal/anatomy/dossier.go:194-201 | the roles collected are exactly those played, without repeats |
| Dossier.RolesInOrder | internal/anatomy/dossier.go:194-201 | an address's roles stand in the order it first played them, within a row payer, payee, facilitator |
| Dossier.FlagIsSettled | internal/anatomy/dossier.go:253-257 | true iff some row is self-settled, absent iff none is settled |
| Dossier.KnownIsLast | internal/anatomy/dossier.go:246-249 | the known flag of the last row the address settles, absent iff it settles none |
| Dossier.LabelIsLast | internal/anatomy/dossier.go:250-252 | the last label among the rows the address settles, absent iff none carries one |
| Dossier.AddressIsNamed | internal/anatomy/dossier.go:194-213 | the node of an address carries its text, as an address node |
| Dossier.EdgeIdsTellRowsApart | internal/anatomy/dossier.go:259-264 | edges of rows with different log indexes have different ids |
| Dossier.NewEdgesAreNew | internal/anatomy/dossier.go:215-221 | so the dedupe never drops an edge of distinct rows |
| Formats.BaseUnitsAreExact | web/anatomy/src/lib/format.ts:4-12 | the text is a canonical decimal that stands for exactly the digits that came in over 10^decimals |
| Formats.CommasComeOut | web/anatomy/src/lib/format.ts:22-25 | taking the commas out of a grouped text gives the text back |
| Formats.GroupsOfThree | web/anatomy/src/lib/format.ts:22-25 | a numeral is grouped from the right in threes |
| Formats.CommaMeans | web/anatomy/src/lib/format.ts:22-25 | in any text a comma goes exactly within a word and before digits in threes up to the end of the digits |
| Formats.UsdcShows | web/anatomy/src/lib/format.ts:49-68 | every decimal amount is shown either exactly, iff 0 < amount < 0.10, or to the nearest cent of the digits that came in, halves away from zero; with two places or fewer, exactly |
| Formats.UsdcMeans | web/anatomy/src/lib/format.ts:45-68 | over the parts of the text: an amount above 0 and below 0.10 is shown with all its places but zeros at the end; every other with two, to the nearest cent of the amount that came in, halves away from zero, exactly if it has no more than two places; with its sign |
| Formats.OnePlaceGetsAZero | web/anatomy/src/lib/format.ts:59-60 | one place is filled up with a zero: 12.5 is shown as 12.50 |
| Formats.DashMeansNothing | web/anatomy/src/lib/format.ts:5-7 | a dash stands for an amount that is absent, empty or, in base units, without a digit; no other amount is shown as one |
| Formats.UsdcIsNearestCent | web/anatomy/src/lib/format.ts:59-67 | rounding on the third place is to the nearest cent, carries included |
| Formats.FullPrecisionBelowTenCents | web/anatomy/src/lib/format.ts:54-58 | full precision is for amounts above zero and below ten cents |
| Formats.FullPrecisionIsExact | web/anatomy/src/lib/format.ts:56-57 | shown in full, an amount keeps its value and loses only zeros at the end |
| Formats.FullPrecisionAboveOneCent | web/anatomy/src/lib/format.ts:45-58 | 0.012 is shown in full, although at or above the documented bound of 0.01 |
| Digits.ValueOfPrint | internal/anatomy/lists.go:134 | a printed number reads back as itself |
| Digits.DigitsAreDecimal | internal/anatomy/lists.go:136 | the ten digits are the characters 0 to 9 |
| Text.CutAtSeparator | internal/anatomy/lists.go:145 | a text is cut at the first separator |
| Text.StringLessMeans | internal/anatomy/lists.go:109-112 | a text is less iff at the first place where the two differ it has ended or has the smaller character |

## Left out

- HTTP transport, JSON, hex and address conversion, logging, signals, configuration: the
  outcomes they can have are parameters (a reply, a row that does not convert, a cancellation).
- PostgreSQL itself, COPY staging, column casts, temp-file limits, ANALYZE: a table is a map,
  a sequence or a set, a transaction one step.
- Chain reorganisations: a block, once served, is taken to stay.
- Payment columns that are only copied or classified (transaction type and nonce, fee caps,
  gas limit, value, L1 gas used and price, settlement kind, authorization window, asset and
  protocol constants): no branch depends on them.
- methodology_version: the view is frozen at one version, so it splits no group.
- Cancelling in the middle of a post's body, and the fetcher's HTTP timeout: both are transport errors here.
- The jitter's randomness: any function of the delay.
- A negative stored cursor, which the collector never writes.
- Rendering, callbacks, chips of cards, the labels and the fixed share of the edges of a transaction flow; other shares are numbers that parse.
- EconomyPages.BuildEconomy: the typical payment, active entities, price points, velocity and breadth of the page are not on the modelled one; its gas and cohort sections are the modules Gas, GasPages and Cohorts.
- The percentile, concentration, reliability, selector, batch and block-density tables and their readers.
- Fixed-point printing of sums (StringFixed) and the division into cents per dollar beyond its exact quotient.
- The weekday rule behind a price week: a payment carries its week as text.
- Dossier.BuildGraph: the fields of a transaction node, most fields of an event node and the display labels, which are copied from the first or the current row.
- relativeAge, short, pct and dayLabel: single branches or library calls.
- Formats.Usdc: amounts that are not decimal texts, on which the original's BigInt may raise.
- Meta: the cache and the requests are values passed between steps; each load, swap and query is one step, and memory order below that is not modelled.
- Node and edge lists of the canvas and the dossier are sequences replaced step by step, so aliasing between old and new lists is not modelled.
- The order in which a Go map hands out windows or bands: the sums are proved for every listing of them.
