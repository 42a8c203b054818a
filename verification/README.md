# Verified models of the arc-intel algorithms

This project models the stateful algorithms of the arc-intel indexer, its bot and
one liquidation bot, and proves what they are for. `dafny verify dfyconfig.toml`
checks everything.

| part | files |
|---|---|
| Keccak-256 in pure Python, against FIPS 202 | `PyInt`, `Fips202`, `KeccakTables`, `Keccak`, `Keccak256` |
| Union-find clustering and tie-averaged percentiles | `Lists`, `UnionFind`, `Clusters`, `Coordinated`, `Percentiles` |
| Resumable ingestion with gap accounting | `Options`, `Text`, `Ingest`, `Backfill`, `Service` |
| Incremental alert engine against full histories | `Series`, `ZScores`, `StreamAlerts`, `StreamHistory`, `StreamSignals`, `StreamRefinement`, `StreamRules` |
| Average-cost profit and loss, four programs with one set of books | `Reals`, `Pnl`, `ClosedTrades`, `PnlStream`, `PnlTotal`, `PnlQuery`, `PnlBoundaries`, `Fills` |
| Order-claim protocol of the keepers | `Keeper`, `KeeperPass` |
| Copy-trading engine | `CopyEngine`, `CopyRuns`, `CopyLaws`, `CopySpend` |
| ABI words, strings and the TokenCreated payload | `Numbers`, `Abi`, `TokenCreated` |
| Morpho share rounding, rate limiters, wash-trade filter | `Morpho`, `RateLimit`, `Antiwash` |

Python integers are unbounded integers here, floats are reals, dicts and SQL tables
are maps (or sequences where their order matters), and every single SQL statement is
one atomic step. The JSON-RPC node, clocks, executors and exceptions are parameters:
each call meets whatever the parameter says, so a law over all parameters is a law
over all behaviours of the outside world. Where the source loops over mutable state
the model is a method or a class over the same state, proved against a function whose
own laws are proved as lemmas.

Some things the code is meant to guarantee hold only under a condition the code does
not establish. Each is proved as an equivalence, next to the law that holds under the
condition:

- `Service.CursorMovesBackIff`, `CursorCanMoveBack`: the service can persist a lower
  cursor after an exception that follows `set_cursor` (service.py:87-91), when the node
  then reports a lower head.
- `StreamHistory.RecentIsExactIff`: the seven-bucket sums equal those of the full
  history if and only if `lookback` is not 1 (the caches keep 4 * lookback buckets);
  `StreamRefinement.PrunedIsSimpleIff`, `LiveIsSimpleIff`: pruning is invisible in the
  alerts under the same condition and no other.
- `PnlBoundaries.ExactIff`: the streaming boundary pass agrees with `total_pnl` on every
  table of quantities in units of g exactly when g is at least 1e-18.
- `Pnl.ConservationIff`: realised plus unrealised profit equals net cash plus net
  quantity at every price after every leg if and only if each sale fits the position
  and no leg leaves a nonzero quantity of at most 1e-18; `MarkedToMarket` gives the gap.
  For wallets that never sell more than they hold this means units above 1e-18
  (`NeverOversoldConservesIff`): at 18 decimals, the default, selling all but one unit
  already loses that unit's cost (`UnitLeftIsLost`).
- `Keeper.SuccessesWithinIff`: an order succeeds at most m times in all interleavings
  with at most n exceptions after a successful submission (keeper.py:43-46) if and only
  if m > n, so at most once only if there are none.
- `Keeper.CancelledStaysIff`, `ExecutedStaysIff`: a cancelled or executed order stays so
  if and only if no keeper still holds it: a cancel accepted while a keeper is
  submitting is undone when that submission fails (`FailureUndoesCancel`).
- `CopyLaws.SentOnceIff`: all runs with at most so many kills of a pair's pass, and so
  many exceptions after the swap of a trade, send the trade at most once if and only if
  both numbers are 0 (`KillRepeats`, `RaiseRepeats`).
- `CopyLaws.PassLeavesRestIff`, `FailedIsRetriedIff`: a pass that an exception or LIMIT
  ends leaves exactly the unsettled trades above its cursor if and only if the first of
  them lies in a higher block than the last settled one.
- `Backfill.SplitShrinksIffMinSizePositive`: range splitting makes progress exactly when
  `min_size` is at least 1.
- `CopyLaws.OpenWithinIff`: max_open holds on all runs with at most so many exceptions
  after a position moved if and only if there are none: the cached count is then stale
  for the follower's next leader.
- `Morpho.FullRepayIsExactIff`: repaying a whole debt asks for exactly the shares owed
  if and only if their value in assets is whole.
- `Morpho.HealthyIff`: the health factor tells whether the collateral covers the debt
  except for positions with a debt and no collateral, which count as safe
  (`BadDebtIsSafe`).

## Model

| member | source | states |
|---|---|---|
| Keccak256.Hash | arc-intel/indexer/token_risk.py:53-66 | the digest of every byte string is, bit for bit, the FIPS 202 section 4 sponge at rate 1088 with plain pad10*1 |
| Keccak256.Pad | arc-intel/indexer/token_risk.py:55-59 | appends a pad that fills whole blocks, one 1 bit, zeros and a final 1 bit |
| Keccak256.PaddedBytesArePadded | arc-intel/indexer/token_risk.py:55-59 | the padded bytes spell the message followed by pad10*1 of section 5.1 |
| Keccak256.PaddingIsInjective | arc-intel/indexer/token_risk.py:55-59 | the padding can be undone: the message is recovered from the padded bits |
| Keccak256.Absorb | arc-intel/indexer/token_risk.py:60-65 | the lanes after all blocks represent the absorbed sponge state |
| Keccak256.BlockRepresents | arc-intel/indexer/token_risk.py:61-64 | xoring little-endian words into 17 lanes xors the block's bits into the first 1088 state bits |
| Keccak.KeccakF | arc-intel/indexer/token_risk.py:36-50 | the in-place lane loops compute the 24 rounds of section 3.2 on the bits they represent, and lanes stay below 2^64 |
| Keccak.RolBit | arc-intel/indexer/token_risk.py:30-33 | bit z of the rotated lane is bit z - n modulo 64 of the lane |
| Keccak.Theta | arc-intel/indexer/token_risk.py:38-42 | the column parity loops are theta |
| Keccak.RhoPi | arc-intel/indexer/token_risk.py:43-46 | the rotate-and-scatter loops are rho followed by pi |
| Keccak.ScatterFillsEachSlotOnce | arc-intel/indexer/token_risk.py:44-46 | the (y, 2x+3y) scatter reaches every one of the 25 slots from exactly one lane |
| Keccak.Chi | arc-intel/indexer/token_risk.py:47-49 | the row loops are chi |
| Keccak.IotaRepresents | arc-intel/indexer/token_risk.py:50 | xoring the round constant into lane 0 is iota |
| KeccakTables.TableBit | arc-intel/indexer/token_risk.py:17-24 | every bit of every round constant is the output of the rc LFSR of Algorithm 5 |
| KeccakTables.OffsetTable | arc-intel/indexer/token_risk.py:25-26 | the rotation table is the rho walk of section 3.2.2 modulo 64 |
| UnionFind.UnionFind.Find | arc-intel/indexer/scoring.py:114-119 | path halving terminates, returns the root and leaves every element's root unchanged |
| UnionFind.UnionFind.Union | arc-intel/indexer/scoring.py:121-124 | merges exactly the two trees of its arguments |
| UnionFind.UnionFind.NumberRoots | arc-intel/indexer/scoring.py:139-146 | ids are equal exactly for equal roots, dense, and numbered in order of first appearance |
| UnionFind.HalvingKeepsRoots | arc-intel/indexer/scoring.py:117 | pointing a node at its grandparent keeps a forest with the same roots |
| Clusters.SybilClusters | arc-intel/indexer/scoring.py:105-146 | two wallets share an id exactly when a chain of same-funder pairs within the window joins them; every wallet has an id |
| Clusters.NeighboursSuffice | arc-intel/indexer/scoring.py:132-138 | linking only neighbours in sorted order joins all pairs within the window |
| Clusters.SameRootIffConnected | arc-intel/indexer/scoring.py:114-124 | after sound and complete linking, same root means joined by a chain of links and conversely |
| Coordinated.CoordinatedClusters | arc-intel/indexer/pnl.py:377-414 | exactly the wallets of large (token, block) groups get ids, equal exactly when a chain of shared large groups joins them |
| Coordinated.UniteGroup | arc-intel/indexer/pnl.py:401-406 | uniting a group as a star gives it one root and merges nothing unrelated |
| Coordinated.GroupIsDistinct | arc-intel/indexer/pnl.py:384-386 | a group's length counts different wallets, as the keys of first_buy are unique |
| Percentiles.Percentiles | arc-intel/indexer/scoring.py:241-257 | for more than one value each rank is the mid-rank (less + at most - 1) / (2(n - 1)), whatever the order of ties |
| Percentiles.MidRankIsOrderIsomorphic | arc-intel/indexer/scoring.py:241-257 | ranks lie in [0, 1], equal values get equal ranks and larger values larger ranks |
| Percentiles.RanksSumToHalf | arc-intel/indexer/scoring.py:241-257 | the ranks of n > 1 values sum to n / 2 |
| Percentiles.RunEnd | arc-intel/indexer/scoring.py:249-251 | the inner loop finds the last position of a maximal tie run |
| Backfill.RateHintWins | arc-intel/indexer/backfill.py:31-37 | a rate-limit hint anywhere in a message, in any letter case, makes it a rate limit whatever else the message says |
| Backfill.ResultHintDecidesIff | arc-intel/indexer/backfill.py:31-37 | a message with a result-limit hint is a result limit exactly when no rate-limit hint stands in it |
| Backfill.ReasonsDiffer | arc-intel/indexer/backfill.py:70-76 | the reason in a gap row tells the kind of its error |
| Backfill.FetchTopicLogs | arc-intel/indexer/backfill.py:49-76 | for min_size >= 1 and any node behaviour: the parts tile [a, b]; every reply the node served is a served part and returns its logs in block order; every other part has exactly its gap row, with the attempts that were made on it: max_retries + 1 failed calls, or a last one called too large on at most min_size blocks; a range is split only when the node called it too large; all within a call budget |
| Backfill.AllServedIsWhole | arc-intel/indexer/backfill.py:52-57 | when the node serves every call, the range comes back whole from the first one and leaves no gap |
| Backfill.SplitShrinksIffMinSizePositive | arc-intel/indexer/backfill.py:58-66 | both halves of every split are non-empty and smaller exactly when min_size is at least 1 |
| Backfill.BackfillRun | arc-intel/indexer/backfill.py:92-143 | a run resumes after the stored cursor and commits one chunk after another; all its calls are made for the fetches of these chunks, and account for what they commit |
| Backfill.RunGapsAreJustified | arc-intel/indexer/backfill.py:49-76 | every gap row a run commits has calls of that run behind it: max_retries + 1 that failed, or a last one called too large on at most min_size blocks |
| Backfill.ServedRunStoresAll | arc-intel/indexer/backfill.py:92-128 | when the node serves every call, a run commits no gap row and every decodable log from its first block to its last is stored |
| Backfill.ServedRunKeepsAll | arc-intel/indexer/backfill.py:92-128 | and, where logs of one identity are one log, each of them is itself the stored row |
| Backfill.BackfillChunk | arc-intel/indexer/backfill.py:99-128 | a chunk makes three fetches, each accounted for by its own calls, and commits their gap rows, then three row batches, then the cursor |
| Backfill.ChunkIsSafe | arc-intel/indexer/backfill.py:99-128 | after every single commit of a chunk, each block up to the cursor is stored or in a gap |
| Backfill.ProgressIsSafe | arc-intel/indexer/backfill.py:92-128 | the same after every commit of a whole run |
| Backfill.EveryHistoryIsAccounted | arc-intel/indexer/backfill.py:92-143 | over any runs, each killed at any commit: every block in [start, cursor] has for all three topics its decodable rows stored or lies in a recorded gap, nothing else is stored, and the cursor never decreases |
| Backfill.FreshHistoryIsAccounted | arc-intel/indexer/backfill.py:92-143 | from an empty database the same, and every gap row found is explained by failed calls of one of the runs |
| Backfill.FreshHistoryKeepsAll | arc-intel/indexer/backfill.py:92-143 | over any killed runs from an empty database every decodable log in [start, cursor] outside a gap is itself stored, and without gaps each topic has as many rows for the range as it has decodable logs |
| Ingest.InsertRowsIdempotent | arc-intel/indexer/storage.py:151-190 | inserting a batch again changes nothing: rows are kept once per primary key |
| Ingest.InsertRowsContents | arc-intel/indexer/storage.py:151-190 | a batch adds exactly its new keys and leaves the rows present untouched |
| Ingest.SharedRowIff | arc-intel/indexer/storage.py:19-24 | two logs share a row exactly when their lower-case hashes and log indices agree, two Initialize logs exactly when their lower-case pool ids agree |
| Ingest.DecodesIff | arc-intel/indexer/processor.py:100-170 | a log is stored exactly when it has the topics and data words its decoder needs |
| Service.IndexerService.Run | arc-intel/indexer/service.py:55-110 | the loop with its error path is the fold of one pass over what the outside world does |
| Service.IndexerService.ProcessPolled | arc-intel/indexer/service.py:80-86 | events are stored in order up to the one that raises |
| Service.PassIsSound | arc-intel/indexer/service.py:69-109 | every pass, whatever fails in it, leaves all accepted events up to the cursor stored and loses no row |
| Service.RunIsSound | arc-intel/indexer/service.py:55-110 | so does a whole process lifetime: accepted events up to the cursor are stored and no row is lost or changed |
| Service.RestartsAreSound | arc-intel/indexer/service.py:62-65 | over any crashes and restarts with one start block, every accepted event in [start, persisted cursor] is stored, each key once, and no lifetime loses a row |
| Service.RowIff | arc-intel/indexer/processor.py:184-314 | exactly the accepted events get a row, and two of them share one exactly when they name the same event |
| Service.EveryEventIsStored | arc-intel/indexer/service.py:62-110 | over any crashes and restarts every accepted event in [start, persisted cursor] is itself stored |
| Service.CursorMovesBackIff | arc-intel/indexer/service.py:77-92 | a pass lowers the persisted cursor exactly when it persists one while the head is below it |
| Service.CursorCanMoveBack | arc-intel/indexer/service.py:87-92 | a concrete run in which it does |
| Service.RisingHeadsNeverMoveBack | arc-intel/indexer/service.py:55-110 | with heads that do not go down the persisted cursor never decreases |
| Series.RollingZscore | arc-intel/indexer/alerts.py:19-36 | every bucket is scored against the lookback buckets before it, none with fewer than three |
| ZScores.ScoreIs | arc-intel/indexer/alerts.py:28-34 | a score exists from three values on; it is 0 when the window does not vary and else the distance from the mean in standard deviations |
| ZScores.ScoreSign | arc-intel/indexer/alerts.py:31-34 | against a window that varies the score is positive exactly above its mean and negative exactly below |
| ZScores.ScoreRises | arc-intel/indexer/alerts.py:31-34 | it rises strictly with the value |
| ZScores.ScoreShifts | arc-intel/indexer/alerts.py:31-34 | adding one constant to all values leaves it unchanged |
| ZScores.SquaresMove | arc-intel/indexer/alerts.py:32 | the squared distances are least around the mean, by exactly n times the squared shift |
| ZScores.FallAndRise | arc-intel/indexer/alerts.py:28-34 | after 90, 110, 90, 110 a value of 20 scores -8 and 180 scores 8 |
| Series.PruneAfterWrite | arc-intel/indexer/stream_alerts.py:82-86 | pruning after each write of the newest bucket equals pruning the whole written history |
| Series.NewestIsSuffix | arc-intel/indexer/stream_alerts.py:84-86 | pruning keeps a suffix of the sorted buckets |
| Series.LastZSurvives | arc-intel/indexer/stream_alerts.py:179-180 | more than lookback kept buckets give the last z-score of the full series |
| Series.RecentSumSurvives | arc-intel/indexer/stream_alerts.py:199-200 | at least w kept buckets give the full sum over the last w |
| Series.PastValueSurvives | arc-intel/indexer/stream_alerts.py:221-231 | more than w kept buckets give the full series' newest value at least w buckets ago |
| StreamAlerts.IncrementalState.ApplyLeg | arc-intel/indexer/stream_alerts.py:63-219 | the core state moves by one function of state and leg whether or not alerts are emitted; the alerts of six kinds are a function of that state, and all eight of it and of what emitting remembers |
| StreamAlerts.IncrementalState.EnterLeg | arc-intel/indexer/stream_alerts.py:77-101 | seen, volume, price and flow of the leg enter pruned caches |
| StreamAlerts.IncrementalState.CreatorLeg | arc-intel/indexer/stream_alerts.py:103-138 | the creator's average-cost position moves, dust closes it, a significant sell alerts |
| StreamAlerts.IncrementalState.CollapseLeg | arc-intel/indexer/stream_alerts.py:179-197 | at most one collapse per bucket, compound only shortly after a dev sell |
| StreamAlerts.IncrementalState.SpikeLeg | arc-intel/indexer/stream_alerts.py:199-218 | at most one spike per bucket, only with price up and net buying |
| StreamAlerts.Prune | arc-intel/indexer/stream_alerts.py:84-86 | popping all but the last keep sorted buckets leaves the keep newest |
| StreamHistory.CachesAreNewest | arc-intel/indexer/stream_alerts.py:80-101 | on any block-ordered run every cache is the newest 4 * lookback buckets of its full history |
| StreamHistory.ZScoreIsExact | arc-intel/indexer/stream_alerts.py:179-182 | the z-score used for a leg is that of the full volume history, for every lookback |
| StreamHistory.PriceUpIsExact | arc-intel/indexer/stream_alerts.py:221-231 | the look-back price test is that of the full price history, for every lookback |
| StreamHistory.RecentIsExactIff | arc-intel/indexer/stream_alerts.py:199-202 | the seven-bucket volume and flow sums are those of the full history on every run exactly when lookback is not 1 |
| StreamHistory.ApplyLegs | arc-intel/indexer/stream_alerts.py:233-237 | a batch of legs moves the core alike with and without emitting |
| StreamHistory.BuildInitialState | arc-intel/indexer/stream_alerts.py:290-308 | the rebuild is the run over the rows up to the cursor |
| StreamHistory.RebuildThenLive | arc-intel/indexer/stream_alerts.py:233-237 | a run over history and then live legs is one run over both, alerts included |
| StreamHistory.RestartMatchesLiveRun | arc-intel/indexer/stream_alerts.py:290-319 | rebuilding up to a cursor and going live after it reports exactly what one live run reports after the cursor |
| StreamSignals.FiresIff | arc-intel/indexer/stream_alerts.py:179-211 | a volume collapse (or spike) fires on a leg exactly when the batch rule holds on the full history up to it and no earlier leg of the token's bucket fired |
| StreamSignals.RuleIsExact | arc-intel/indexer/alerts.py:179-193 | the batch rule on the full series and the rule on the caches agree |
| StreamSignals.AlertsTellSignals | arc-intel/indexer/stream_alerts.py:185-218 | a live leg reports a collapse or a spike exactly when that signal fires on it |
| StreamRules.GraduationIff | arc-intel/indexer/stream_alerts.py:71-76 | a graduation is reported exactly on the first leg of a token |
| StreamRules.PriceIs | arc-intel/indexer/stream_alerts.py:87 | a leg's quantity times its price is its value, and the price is 0 without a quantity |
| StreamRules.DevSellIff | arc-intel/indexer/stream_alerts.py:103-133 | a creator's sale is reported exactly when it sells half of what its book holds or takes 100, with the severity of share and proceeds, one step up under enough recent volume |
| StreamRules.PositionIsBook | arc-intel/indexer/stream_alerts.py:104-138 | the creator's tracked position is the average-cost account of its trades, entry block included |
| StreamRules.LargeSellIff | arc-intel/indexer/stream_alerts.py:140-153 | a large sell is reported exactly for a non-creator's sale of that size and that share of the value of the token's legs in seven buckets |
| StreamRules.WhaleBuyIff | arc-intel/indexer/stream_alerts.py:154-162 | a whale buy exactly for a buy of that size, at least half of that value, with the price up on the last one lookback buckets ago |
| StreamRules.SurgeIff | arc-intel/indexer/stream_alerts.py:164-177 | a price surge exactly when the price is so many percent above that one and none was reported in the bucket |
| StreamRules.CollapseIff | arc-intel/indexer/stream_alerts.py:179-189 | a volume collapse exactly when the bucket's volume, as a sum over legs, scores at most the threshold against the buckets before it and none was reported in it |
| StreamRules.CollapseIsFall | arc-intel/indexer/stream_alerts.py:179-189 | with a negative threshold the volume of a collapsed bucket is below the mean of at least three buckets before it |
| StreamRules.SpikeIff | arc-intel/indexer/stream_alerts.py:199-218 | a volume spike exactly when it scores at least the threshold, is large, the price is up and buyers outweigh sellers over seven buckets, once a bucket |
| StreamRules.SpikeIsRise | arc-intel/indexer/stream_alerts.py:199-218 | with a positive threshold the volume of a spiking bucket is above that mean |
| StreamRules.CompoundIff | arc-intel/indexer/stream_alerts.py:190-197 | a collapse is compound exactly when the creator's last reported sale is at most window_blocks back |
| StreamRefinement.PrunedIsSimple | arc-intel/indexer/stream_alerts.py:63-219 | for every lookback but 1, the engine with pruned caches reports on every block-ordered run exactly the six kinds of alerts of an engine that never prunes |
| StreamRefinement.PrunedIsSimpleIff | arc-intel/indexer/stream_alerts.py:82-101 | and it does so for all other parameters and runs only if lookback is not 1 |
| StreamRefinement.LiveIsSimpleIff | arc-intel/indexer/stream_alerts.py:63-219 | the same for all eight kinds, price surges and compounds included, on runs that emit throughout |
| StreamRefinement.ReadsAreFull | arc-intel/indexer/stream_alerts.py:140-207 | recent volume and flow, bucket volume, look-back price and z-score are all those of the full history |
| Pnl.LegIsValued | arc-intel/indexer/pnl.py:27-58 | a swap becomes a leg exactly when one side is a stable, the other is not and the amounts have opposite signs; quantity and value are then positive |
| Pnl.LegIs | arc-intel/indexer/pnl.py:27-58 | a leg exists exactly for a known pool with one stable side and amounts of opposite signs; quantity and value times their own powers of ten are the absolute amounts, the token is the other currency, and the rest is the swap's |
| Pnl.Pow10Adds | arc-intel/indexer/pnl.py:48-52 | every decimal is a factor of ten |
| Pnl.PriceIs | arc-intel/indexer/pnl.py:274-275 | a leg's quantity times its price is its value |
| PnlQuery.LegsScale | arc-intel/indexer/pnl.py:41-54 | two tables that differ only in how decimals scale the amounts have the same legs |
| Pnl.BookIsSound | arc-intel/indexer/pnl.py:97-120 | quantity and cost never go negative and a flat account has no cost |
| Pnl.SaleKeepsAverage | arc-intel/indexer/pnl.py:106-116 | a sale leaves the average cost of the rest unchanged |
| Pnl.FlowsBalance | arc-intel/indexer/pnl.py:97-120 | cash flow is realised profit less cost held plus what slipped; net quantity is quantity held plus what slipped |
| Pnl.MarkedToMarket | arc-intel/indexer/pnl.py:193-204 | at any price, cash plus net quantity equals realised plus unrealised plus exactly the slipped and unmarked amounts |
| Pnl.Conservation | arc-intel/indexer/pnl.py:193-204 | with every sale covered and no dust left they are equal |
| Pnl.ConservationIff | arc-intel/indexer/pnl.py:97-120 | for any quantities they are equal at every price after every leg exactly when each sale fits the position and no leg leaves dust |
| Pnl.NeverOversoldConservesIff | arc-intel/indexer/pnl.py:106-119 | on all tables in units of g, wallets that never sell more than they hold conserve exactly when g exceeds 1e-18 |
| Pnl.UnitLeftIsLost | arc-intel/indexer/pnl.py:116-119 | with units of at most 1e-18, two bought and one sold is a failing input |
| Pnl.OversoldIsLost | arc-intel/indexer/pnl.py:106-114 | selling more than is held is a failing input |
| ClosedTrades.ClosedTrades | arc-intel/indexer/pnl.py:86-121 | per (wallet, token) in order of appearance, its legs in time order, one trade per covered sale |
| ClosedTrades.CloseGroup | arc-intel/indexer/pnl.py:94-120 | the running quantity, cost and entry block are those of the average-cost account |
| ClosedTrades.TradeIs | arc-intel/indexer/pnl.py:106-116 | a trade closes what is held at most, at its average cost, for its share of the leg's value, with their quotient as multiple, from the entry block to the leg's |
| ClosedTrades.EntryIsOpening | arc-intel/indexer/pnl.py:99-121 | the entry block is that of the buy that opened the position |
| ClosedTrades.TradesAddUp | arc-intel/indexer/pnl.py:111-114 | the trades of a key add up to its account's realised profit |
| ClosedTrades.ClosedProfit | arc-intel/indexer/pnl.py:86-121 | so the whole report gives every key the realised profit of its time-ordered legs |
| ClosedTrades.ChronologicalIsOrdered | arc-intel/indexer/pnl.py:93 | the legs are booked in (block, log index) order, none lost |
| PnlStream.StreamPnl | arc-intel/indexer/pnl.py:242-316 | one pass over pool-contiguous rows gives every wallet its realised and unrealised profit summed over all pools |
| PnlStream.MarkOpen | arc-intel/indexer/pnl.py:193-204 | adds each position above dust at the last price, once |
| PnlStream.ApplyLeg | arc-intel/indexer/pnl.py:276-314 | moves the position and credits the realised gain of one leg |
| PnlStream.MovedTracks | arc-intel/indexer/pnl.py:277-314 | the per-pool position moves as the average-cost account does |
| PnlTotal.PoolsConserve | arc-intel/indexer/pnl.py:242-316 | realised plus unrealised over all pools is net cash plus open quantity at last prices, for a wallet clean in every pool |
| PnlQuery.StreamIsByPool | arc-intel/indexer/pnl.py:242-255 | in any collation and any cut of the pool ids into chunks, rows fetched in (pool, block, log_index) order never interrupt a pool and give every pool the legs of the whole table in block order |
| PnlQuery.StreamPnlPg | arc-intel/indexer/pnl.py:242-316 | the pass over what the queries return gives every wallet that is clean in the table realised plus unrealised profit equal to what total_pnl says of the whole table |
| PnlTotal.CashIsByPool | arc-intel/indexer/validate.py:123-125 | a wallet's net cash is the sum of its net cash per pool |
| PnlTotal.Snapshot | arc-intel/indexer/validate.py:141-146 | a snapshot gives every wallet its cash plus the value of its kept quantities |
| PnlBoundaries.TotalPnlBoundaries | arc-intel/indexer/validate.py:149-187 | every boundary of any unsorted, repeating list gets the snapshot of exactly the legs up to it |
| PnlBoundaries.BoundaryIsTotal | arc-intel/indexer/validate.py:149-187 | with quantities in units of at most 18 decimals that snapshot is total_pnl from scratch at the block |
| PnlBoundaries.ExactIff | arc-intel/indexer/validate.py:180-181 | the dust test is exact on all tables in units of g if and only if g >= 1e-18 |
| Fills.Position.ApplyFill | arc-intel/execution/positions.py:33-61 | the fields move together by average cost, and not at all on an error |
| Fills.FillStore.RecordFill | arc-intel/bot/store.py:631-666 | a known id changes nothing; a new one is inserted and moves its position, unless apply_fill raises |
| Fills.RunIsFold | arc-intel/bot/store.py:631-652 | after any calls the tables hold the first call of every id and every position is the fold over them |
| Fills.RecordIs | arc-intel/bot/store.py:634-660 | a fill raises exactly when it is new and its quantity is not positive, its side is unknown or it sells what is not held; it is then inserted and no position moves |
| Fills.ReplayChangesNothing | arc-intel/bot/store.py:634-641 | repeating recorded calls in any order and number changes nothing |
| Fills.ReplayIsBook | arc-intel/execution/positions.py:43-57 | apply_fill keeps the same quantity, cost and realised profit as closed_trades and the per-pool loop |
| Keeper.AtMostOnce | arc-intel/execution/keeper.py:38-57 | in every interleaving of keepers, owners and crashes without an exception after a success, an order succeeds at most once |
| Keeper.SuccessesAreBounded | arc-intel/execution/keeper.py:38-57 | in every run an order succeeds at most once more than such exceptions occurred |
| Keeper.OneInFlight | arc-intel/bot/store.py:876-881 | at most one keeper holds an order at a time |
| Keeper.ExecutedIsTerminal | arc-intel/bot/store.py:883-901 | nothing but such an exception leaves 'executed' |
| Keeper.ExecutedStaysIff | arc-intel/bot/store.py:883-901 | an executed order stays executed on every continuation exactly when no keeper still holds it |
| Keeper.CancelledStaysIff | arc-intel/bot/store.py:893-901 | a cancelled order stays cancelled on every continuation exactly when no keeper holds it |
| Keeper.SuccessesWithinIff | arc-intel/execution/keeper.py:38-57 | in all interleavings an order succeeds at most m times under at most n exceptions after its successes exactly when m > n |
| Keeper.FaultsResubmit | arc-intel/execution/keeper.py:42-53 | for every n a run in which n such exceptions send one order out n + 1 times |
| Keeper.FailureUndoesCancel | arc-intel/execution/keeper.py:52-53 | a run in which a failed submission makes a cancelled order due again |
| KeeperPass.RunKeeper | arc-intel/execution/keeper.py:37-58 | a pass submits, in id order, each once and while its row is 'submitting', signed buys with deadline ahead and nothing else, and all of them below its limit; those whose try block ended well are executed, the others signed again, no other row moves; the counts are those of the outcomes; and table and submissions are those of the steps of the pass in the protocol |
| KeeperPass.PassSubmits | arc-intel/execution/keeper.py:38-42 | in the protocol the steps of a pass submit its due orders in order, each once, each while 'submitting' |
| KeeperPass.RetriedIff | arc-intel/execution/keeper.py:52-53 | an order of a pass is served again by the next one, if its limit reaches, exactly when its try block raised and its deadline lies ahead |
| KeeperPass.PassInProtocol | arc-intel/execution/keeper.py:37-58 | in the protocol the steps of a pass claim every due order and send each exactly once, unless its submission raised |
| KeeperPass.FaultlessOrdersIff | arc-intel/execution/keeper.py:41-56 | the steps of a pass are free of faults exactly when nothing raises after a submission |
| KeeperPass.PassesSendOnce | arc-intel/execution/keeper.py:37-58 | passes of any keepers that only ever fail to submit, and retry, send no order twice |
| KeeperPass.OrderStore.OrdersDue | arc-intel/bot/store.py:858-865 | the signed buys with deadline after now, smallest ids first in id order, cut only by the limit |
| KeeperPass.OrderStore.ClaimOrder | arc-intel/bot/store.py:876-881 | moves 'signed' to 'submitting' in one statement and reports whether it did |
| KeeperPass.OrderStore.Cancel | arc-intel/bot/store.py:893-901 | cancels for the owner, only from armed, signed or submitting |
| CopyEngine.BuysAreMonotone | arc-intel/execution/copy.py:62-82 | a copied buy stays copied, for no less, when the leader's trade is larger, fewer positions are open or the follower comes to hold the token |
| CopyEngine.BuySpends | arc-intel/execution/copy.py:53-73 | a copied buy spends the rounded value of the leader's trade in proportional mode and the rounded flat amount in flat mode |
| CopyEngine.SizingIgnores | arc-intel/execution/copy.py:53-56 | the flat amount changes no decision in proportional mode, and buys of any value spend the same in flat mode |
| CopyEngine.SkipsFor | arc-intel/execution/copy.py:62-82 | each reason to skip a trade is given exactly in its own case |
| CopyEngine.MirrorTrades | arc-intel/execution/copy_keeper.py:119-162 | the loop over fetched trades, stopping at the first exception |
| CopyEngine.PassSettles | arc-intel/execution/copy_keeper.py:119-164 | a pass settles a prefix of the fetched trades, the cursor goes to its last block, and every swap not lost to a fault is under it |
| CopyRuns.CopyStore.RunCopyEngine | arc-intel/execution/copy_keeper.py:101-165 | a pass serves the wallets in turn with one cache of open counts per follower |
| CopyRuns.RunKeepsOnce | arc-intel/execution/copy_keeper.py:101-164 | over any passes, complete or killed, no cursor decreases and a trade is sent at most once more than a fault hid it |
| CopySpend.RunSpends | arc-intel/execution/copy.py:47-73 | over any passes, complete or killed, every buy spends what the follower's settings of one of the passes say, with the wallet's own flat amount if it has one |
| CopySpend.FlatSpend | arc-intel/execution/copy.py:53-56 | in flat mode a run spends the rounded flat amount times the number of buys it copied |
| CopySpend.RunBuys | arc-intel/execution/copy_keeper.py:142-152 | the buys with their amounts are exactly the leader's buys that were sent |
| CopyLaws.AtMostOnce | arc-intel/execution/copy_keeper.py:142-164 | a trade is sent at most once if its pair's pass is not killed and nothing raises after its own swap, whatever happens to others |
| CopyLaws.SentOnceIff | arc-intel/execution/copy_keeper.py:142-164 | every run with at most so many kills and so many exceptions after the swap sends the trade at most once exactly when both numbers are 0 |
| CopyLaws.SettledIsPrefix | arc-intel/execution/copy_keeper.py:119-164 | with strictly increasing blocks the settled trades over any run are exactly the first ones above the starting cursor, in order |
| CopyLaws.PassLeavesRestIff | arc-intel/execution/copy_keeper.py:119-164 | after a pass the unsettled trades are exactly those above its cursor exactly when none are left or the first lies in a higher block than the last settled one |
| CopyLaws.FailedIsRetriedIff | arc-intel/execution/copy_keeper.py:144-147 | the trade that stopped a pass is the first one the next pass fetches exactly when its block is above the last settled one, and otherwise lies above the cursor no more |
| CopyLaws.OpenIsBounded | arc-intel/execution/copy.py:62-82 | open positions exceed the larger of the initial count and max_open by no more than the number of exceptions after a position moved |
| CopyLaws.OpenWithinIff | arc-intel/execution/copy_keeper.py:126-152 | on all runs with at most so many such exceptions they stay within it exactly when there are none |
| CopyLaws.KillRepeats | arc-intel/execution/copy_keeper.py:143-164 | a run in which one kill before the cursor write sends a trade twice |
| CopyLaws.RaiseRepeats | arc-intel/execution/copy_keeper.py:142-147 | a run in which one exception after the swap does |
| Abi.SignedRoundTrip | arc-intel/indexer/processor.py:24-27 | every int256 survives _word, hexadecimal parsing and _to_signed |
| Abi.WordParses | arc-intel/execution/sessions.py:122-123 | a word parses to the number modulo 2^256 |
| Abi.ParsesIff | arc-intel/execution/sessions.py:122-123 | a non-empty string of hexadecimal digits parses, in either letter case to the same number, and nothing else does |
| Abi.Pow16IsPow2 | arc-intel/execution/sessions.py:122-123 | 64 hexadecimal digits are 256 bits |
| Abi.WordsRoundTrip | arc-intel/indexer/processor.py:19-21 | splitting a payload of whole words gives the words |
| Abi.UnprefixedWords | arc-intel/indexer/processor.py:19-21 | so does splitting one without 0x in front |
| TokenCreated.TokenCreatedRoundTrip | arc-intel/indexer/processor.py:78-97 | an ABI-encoded TokenCreated event is recovered field by field, addresses from the topics and the rest from the data, for strings of any length, exactly when no string holds a NUL |
| TokenCreated.PlacedIsRead | arc-intel/indexer/processor.py:63-75 | a string is read back from wherever its head slot points |
| Morpho.SharesAreLeast | bots/mev_morpho_liquidator.py:153-156 | to_shares_up(a) is the least s whose value rounded down is at least a |
| Morpho.AssetsRoundTrip | bots/mev_morpho_liquidator.py:147-156 | assets to shares to assets gains at most ceil(A / S) and loses nothing |
| Morpho.SharesRise | bots/mev_morpho_liquidator.py:153-156 | to_shares_up is monotone |
| Morpho.AssetsRise | bots/mev_morpho_liquidator.py:147-150 | to_assets_up is monotone |
| Morpho.FullRepayIsExactIff | bots/mev_morpho_liquidator.py:228-229 | a full repay asks for exactly the shares owed if and only if their asset value is whole |
| Morpho.HealthyIff | bots/mev_morpho_liquidator.py:208-213 | hf >= 10^18 says that the collateral at the loan-to-value, rounded down, covers the debt exactly for the positions that do not have a debt without collateral |
| Morpho.BadDebtIsSafe | bots/mev_morpho_liquidator.py:208-209 | one share of debt without collateral counts as safe, with no debt reported |
| RateLimit.Limiter.RateOk | arc-intel/bot/sign_server.py:31-41 | prunes, then accepts and records or rejects, for this user only |
| RateLimit.UsersAreApart | arc-intel/bot/sign_server.py:31-41 | what a user's calls come to does not depend on the calls of others in between |
| RateLimit.LimiterIsExact | arc-intel/bot/sign_server.py:31-41 | over calls of any users in any order the list kept for a user is the fresh part of its accepted calls, and no half-open 60 second window holds more than 20 of them |
| RateLimit.RejectedIff | arc-intel/bot/sign_server.py:35-38 | a call is rejected exactly when 20 accepted calls of its user are still in the window |
| RateLimit.Throttle.Wait | arc-intel/bot/throttle.py:20-29 | every send is gmin after the last one and cmin after the chat's last one, and the sleep is the shortest that makes it so |
| RateLimit.WindowHolds | arc-intel/bot/throttle.py:20-29 | any window of length L holds at most floor(L / gmin) + 1 sends |
| Antiwash.RoundtripFillIds | arc-intel/monetization/antiwash.py:21-37 | exactly the ids of fills with a counterpart on another side of the same user and token within the window |
| Antiwash.DroppedIffWashed | arc-intel/monetization/antiwash.py:31-36 | with unique ids a fill is dropped exactly when it has such a counterpart |
| Antiwash.FilterFills | arc-intel/monetization/antiwash.py:40-54 | keeps, in order, the large enough fills of foreign tokens that are not dropped |
| Antiwash.SurvivesIff | arc-intel/monetization/antiwash.py:17-54 | a fill survives exactly when its token is foreign, it is worth the minimum, and no fill of its id has another side of the same user and token within the window |
| Antiwash.NoRoundTripSurvives | arc-intel/monetization/antiwash.py:40-54 | no two survivors form a round trip |
| Antiwash.FilterIsIdempotent | arc-intel/monetization/antiwash.py:40-54 | filtering the survivors changes nothing |
| Antiwash.FilterIgnoresOrder | arc-intel/monetization/antiwash.py:40-54 | the same fills in any order leave the same fills |
| Antiwash.VolumeByUser | arc-intel/monetization/antiwash.py:57-63 | each user's volume is the sum over its surviving fills |
| Antiwash.MergeByFunding | arc-intel/monetization/antiwash.py:66-78 | each source gets the volume of its wallets and the total is conserved |
| Antiwash.OneSourceOneEntry | arc-intel/monetization/antiwash.py:66-78 | wallets of one funding source are in one entry, a wallet without one in its own |

## Left out

- Telegram, HTTP handlers, the Mini App, Solidity contracts, the SDK, research scripts and the remaining bots: input and output, or one-branch facts.
- SQL text: tables are maps or sequences with their primary keys, single statements are atomic.
- Floating point: amounts are reals, so rounding, `round(...)`, float overflow and message texts are not modelled; the three-decimal rounding of the z-score is an arbitrary function, and so is the square root except where a law asks for an exact one.
- Keccak: `selector` and the risk-signature scan are not modelled.
- Backfill: the `stats` counters, progress prints, back-off sleeps, and the timestamps of a gap row; a kill inside one SQL statement cannot be observed.
- Backfill.FreshHistoryKeepsAll: logs with one primary key are taken to be one log, as they are on a chain without reorganisations; `Service.EveryEventIsStored` likewise.
- Service.PassIsSound: does not model `processed_total`, `duplicates_total`, health rows and log lines, nor wallet trade counts and the swap's token column, which do change under replay.
- Service.RestartsAreSound: a poll that returns is taken to deliver exactly the events of its range; the event sources themselves are not modelled.
- StreamAlerts.IncrementalState.ApplyLeg: the alert context and message texts are left out; price_surge and compound alerts depend on what was emitted before, so the rebuild law, whose history is silent, does not cover them.
- StreamRules.LargeSellIff: does not cover a lookback of 1, where the seven-bucket sums of the caches are not those of the legs; `WhaleBuyIff` and `DevSellIff` likewise.
- Creators are one fixed map during a run; the per-cycle refresh of `load_creators_for` and the pickled state files are not part of this model.
- PnlStream.StreamPnl: the counters, wins, multiples, holding times, entry percentiles and `first_buy` are left out, and `limit` is the caller passing a prefix of the rows.
- PnlQuery.StreamPnlPg: swaps have different (block, log_index) pairs and lower-case pool ids, as processor.py:162 makes them; the null-trader filter of the query is left out.
- PnlBoundaries.TotalPnlBoundaries: rows are legs as `leg_from_swap` makes them, with positive quantity and value, in (block, log index) order; null columns are not modelled.
- Fills.FillStore.RecordFill: subscriptions and referral credits after the position update are left out; a row whose `apply_fill` raised is shown as inserted, as the store's own connection sees it before the next commit or rollback.
- Keeper.AtMostOnce: signatures are attached to armed orders only, while `attach_signature` is an unconditional write and its HTTP handler refuses only executed orders; a submission that lands on chain although its call raised counts as failed; `run_session_keeper` has no claim step and is not modelled.
- KeeperPass.RunKeeper: the pass is configured (executor and relayer set), and `on_executed` callbacks, whose exceptions are swallowed, are left out.
- CopyRuns.CopyStore.RunCopyEngine: dry runs, the summary counters, the protection plan and the quoting and approval calls inside the executor are left out; the executor is an oracle that fails before or after the swap, declines or fills.
- CopyEngine.MirrorTrades: the fetched trades lie above the cursor, as the query of `recent_wallet_legs` (pg_storage.py:240-251) guarantees, so the loop's own test for older blocks is left out.
- CopyEngine.BuysAreMonotone: `round(x, 6)` is any function that keeps the order of amounts.
- CopyLaws.SettledIsPrefix: with several trades in one block it says nothing over whole runs; `CopyLaws.PassLeavesRestIff` says for each pass what is then left out.
- CopyLaws.OpenIsBounded: positions opened by anything but the engine are outside the bound.
- Abi.ParseHex: Python's tolerance for underscores, blanks, signs and a 0x prefix in `int(s, 16)`, and for blanks in `bytes.fromhex`, is left out.
- TokenCreated.TokenCreatedRoundTrip: the UTF-8 decoder is an arbitrary function of the bytes; which bytes it replaces is not modelled.
- Morpho.HealthyIff: the float comparison of `check` with a configurable threshold and the contract calls are left out.
- RateLimit.Throttle.Wait: a sleep is taken to last at least as long as asked and time not to run back; how much longer each call takes is arbitrary.
