# Verified models of the gateway's log store, edge protocols and accounting

A Dafny project that models the parts of the LLM gateway whose correctness spans many calls, and
proves what they promise over every input, every run and every interleaving.

- **Log store** (`Selections`, `Sorting`, `LogRows`, `QueryOrder`, `TopK`, `Decimal`, `DayKeys`,
  `FileSelection`, `Rollup`, `Aggregates`, `JsonlFiles`, `JsonlStore`, `MetaRecovery`). `JsonlDriver` is a class
  over a directory of day files, rollup files, open files and active files. A ghost history of all
  inserted rows is the simple object it refines: inserting appends to it; querying, counting,
  ranking and bucketing answer from it. The driver starts on any directory; how each operation
  moves one file's rows and rollup is a step of `MetaRecovery`. The layers are: a batch is grouped by
  date; a date rolls over to a new file at the cap; file keys parse back and sort by (date, seq);
  scanning in that order lists rows as the history does; a bounded heap keeps the best rows; paging
  cuts the result.
- **Asynchronous front end** (`LogManager`, `LogPipeline`). The bounded channel, the worker's batch, flush and
  close as a step system; its handed-over batches are then fed to the driver.
- **Edge protocols** (`UsageUpload`, `ConfigPull`). Both sides as classes, and both protocols as step
  systems over a network that loses, repeats and delays messages.
- **Caching, streaming and SQL** (`LruCache`, `SseReader`, `BindMarkers`, `FilterSql`, `PostgresQueries`).
- **Accounting and dispatch** (`Billing`, `RateWindow`, `KeyRotation`, `Agentic`).

`Options` holds the option type. Times are integers, money is `real`, strings are sequences of
characters. What the program gets from outside (clock readings, the UTC date of a second, the length of a JSON line,
replies of models and tools, the answers of the key store) is a parameter, and the theorems hold for all of them.

Where code and comments differ, the code is followed: `TokenID` and `TokenIDs` are both applied
(`internal/logstore/driver.go:90` says that one overrides the other), `seqOf` and `extractDate` answer for any
string and not only for day keys, and a missing rollup is rebuilt but not kept up to date (see
`MetaRecovery`).

Some natural properties fail in places; each is given with the exact condition under which the code has it:
statistics of a file whose rollup is missing (`ExactIffTrustworthy`), being on the current bundle after a
server restart (`RoundRecoversIff`, `LivesRecoverIff`), the order of the directory after a deletion
(`DeleteOrderedIff`), deduplication keys of clients whose names contain slashes or who restart
(`NamesCollideIff`, `FleetApartIff`, `StemsApartIff`), the price of a cache hit (`CacheHitNotDearerIff`) and of
a split request (`SuperadditiveIff`), failing only when no key is active (`FailureExactIff`), and inverting a
file key (`ExtractDateInverts`, `SeqOfInverts`).

`dafny verify dfyconfig.toml` checks the whole project.

## Model

| member | source | states |
|---|---|---|
| JsonlStore.GroupByDate | internal/logstore/jsonl_driver.go:161-182 | the batch is partitioned by UTC date, each part in order, each date once; a date comes before another when one of its rows precedes all rows of the other |
| JsonlStore.JsonlDriver.Acquire | internal/logstore/jsonl_driver.go:245-307 | the file handed out is below the cap, belongs to the date and, in an ordered directory, is the last file of the date or a new one right behind it |
| JsonlStore.JsonlDriver.FindSlot | internal/logstore/jsonl_driver.go:256-277 | every slot before the chosen one is at the cap; the chosen one, at most number 9999, is missing or below it; otherwise all 10000 are full |
| JsonlStore.JsonlDriver.QueryAcross | internal/logstore/jsonl_driver.go:519-580 | row i of the answer is row offset + i of the listing of all matching rows, created second and then insertion descending; there are as many as the limit (50 if none) and the first 20000 rows of the listing allow, none when the offset exceeds them; the total is exact; over all days, matching rows means those of the insertion history |
| JsonlStore.PageAcross | internal/logstore/jsonl_driver.go:522-579 | heap, scan, final sort and cut together return the page of the insertion-sorted listing: limit rows from the offset on, counted in its first 20000 rows |
| JsonlStore.JsonlDriver.ResolveDays | internal/logstore/jsonl_driver.go:426-456 | named days sorted by (date, seq), or every file exactly once in that order |
| JsonlStore.JsonlDriver.ListFiles | internal/logstore/jsonl_driver.go:745-757 | every file once, ascending by name |
| JsonlStore.JsonlDriver.TimeSeries | internal/logstore/jsonl_driver.go:583-626 | buckets ascend and start at multiples of the width (3600 if none); each holds, field by field, the sums over the rows in its span, at least one; every matching row falls into one; together they hold the sums over all; over all days, matching rows means those of the insertion history |
| JsonlStore.JsonlDriver.CloseKey | internal/logstore/jsonl_driver.go:798-814 | the file is no longer held open and no longer active; other dates keep their active file |
| JsonlFiles.CreatesNext | internal/logstore/jsonl_driver.go:259-304 | a new file behind a full last one keeps numbering, cap and content invariants |
| JsonlFiles.AppendsToLast | internal/logstore/jsonl_driver.go:195-239 | appending one date's rows to its last file keeps: all files but the last of a date at the cap, and the files of a date, concatenated by number, its rows in insertion order |
| JsonlFiles.FilesOfDate | internal/logstore/jsonl_driver.go:426-440 | in the sorted listing the files of a date are its numbers 0, 1, 2, … in order |
| JsonlFiles.ScanListsHistory | internal/logstore/jsonl_driver.go:426-440 | scanning all files in (date, seq) order lists any selection of rows exactly as the insertion history does |
| JsonlFiles.DeleteKeepsOrder | internal/logstore/jsonl_driver.go:761-775 | removing files so that no date keeps one behind a removed one leaves an ordered directory, and what it holds is, of each date, the first rows of the history, up to the removed files |
| JsonlFiles.DeleteOrderedIff | internal/logstore/jsonl_driver.go:761-775 | after a deletion the directory is in order, under any numbering and for any history, if and only if no date keeps a file behind a removed one |
| QueryOrder.NewestFirstLists | internal/logstore/jsonl_driver.go:488-493 | the listing is a permutation, descends by second, and within a second runs backwards through the input |
| QueryOrder.ListingDetermined | internal/logstore/jsonl_driver.go:488-493 | the newest-first listing is unique: seconds descending and the order within each second fix it |
| QueryOrder.SameSecondsListAlike | internal/logstore/jsonl_driver.go:488-493 | row sequences that agree second by second are listed alike and hold the same rows |
| TopK.SiftUp | internal/logstore/jsonl_driver.go:495-508 | restores heap order above a changed position and permutes |
| TopK.SiftDown | internal/logstore/jsonl_driver.go:495-515 | restores heap order below the root and permutes, leaving the tail alone |
| TopK.Push | internal/logstore/jsonl_driver.go:508-508 | one more element, heap order kept |
| TopK.Pop | internal/logstore/jsonl_driver.go:509-515 | removes the root, heap order kept |
| TopK.Offer | internal/logstore/jsonl_driver.go:549-555 | push while small, else replace the oldest when beaten: the heap keeps a best-of-seen set, split from the rest |
| TopK.RetainedAreFirst | internal/logstore/jsonl_driver.go:530-566 | what the heap holds, sorted, is the beginning of the full sort of everything seen |
| TopK.FullSortIsNewestFirst | internal/logstore/jsonl_driver.go:488-493 | the full sort under (created, seq) is the newest-first listing |
| Aggregates.RankGroups | internal/logstore/jsonl_driver.go:701-724 | all groups or the first limit of them, no omitted group ranks above a listed one, metric descending |
| Aggregates.BucketsPartition | internal/logstore/jsonl_driver.go:589-611 | distinct buckets that catch every row account for every row exactly once |
| Aggregates.ListBuckets | internal/logstore/jsonl_driver.go:620-625 | ascending, one for every row and none without rows, with the totals of their rows and summing to the totals of all |
| Aggregates.TopMeans | internal/logstore/jsonl_driver.go:701-724 | a ranking of the grouping shows, for each listed label, the count and sums of exactly its rows, and leaves out only labels with no larger count |
| Aggregates.SeriesCharts | internal/logstore/jsonl_driver.go:589-625 | bucket totals by truncating division are, field by field, the sums over the rows of each bucket's span |
| Aggregates.SumNewestFirst | internal/logstore/jsonl_driver.go:519-725 | totals and group sums do not depend on the listing order |
| Rollup.RollupSnoc | internal/logstore/jsonl_meta.go:41-71 | folding a row into the rollup of some rows gives the rollup of those rows and it: totals and, per label, the sum of exactly the label's rows |
| Rollup.SumAdds | internal/logstore/jsonl_meta.go:41-71 | each field of the totals is the sum of that field over the rows, errors the number with status 400 or more; a group's tokens are prompt plus completion tokens, its cost the billed cost |
| Rollup.GroupsAdd | internal/logstore/jsonl_meta.go:41-71 | a label has a group exactly when some row carries it, and the group sums exactly those rows |
| Rollup.FoldIsRollup | internal/logstore/jsonl_meta.go:41-71 | folding any rows, one by one, into a rollup gives the rollup of all |
| Rollup.RebuildMeta | internal/logstore/jsonl_meta.go:148-158 | one scan reconstructs the rollup: the totals field by field, and the groupings by model, channel and token |
| Rollup.MergeField | internal/logstore/jsonl_meta.go:87-99 | label by label addition, labels of either side kept |
| Rollup.MergedGroupings | internal/logstore/jsonl_meta.go:87-99 | merging the groupings of two files is the grouping of their rows together |
| LogRows.EmptyFilterSelectsAll | internal/logstore/jsonl_driver.go:373-377 | an empty filter lets every row through |
| LogRows.ValidFields | internal/logstore/jsonl_driver.go:652-660 | rows can be grouped by model, channel_id and token_id and by nothing else |
| LogRows.BucketIff | internal/logstore/jsonl_driver.go:596-596 | a second falls into a bucket exactly when that starts at a multiple of the width and spans it, counted towards zero before 1970 |
| DayKeys.KeyRoundTrip | internal/logstore/sqlite_driver.go:412-417 | date and number of every day file come back from its key |
| DayKeys.KeyOrderIsStrictWeak | internal/logstore/sqlite_driver.go:1176-1188 | the (date, seq) comparison is a strict weak order |
| DayKeys.KeyOrderMeans | internal/logstore/sqlite_driver.go:1176-1188 | of two day files the one of the earlier year, month and day comes first, and within a date the one with the smaller number |
| DayKeys.EarlierDate | internal/logstore/sqlite_driver.go:1180-1186 | string order of dates is order by year, month and day |
| Sorting.SortIsSorted | internal/logstore/sqlite_driver.go:1176-1188 | a stable sort under a strict weak order is sorted |
| Sorting.SortedUnique | internal/logstore/jsonl_driver.go:566-566 | two sorted permutations without ties are equal |
| FileSelection.SelectFiles | internal/logstore/sqlite_driver.go:1176-1231 | for any list of names: of the list sorted by (date, seq), the longest suffix of whole dates within the file budget, or the last date alone when even that exceeds it; nothing dropped is of a later date than anything kept |
| Decimal.AtoiOfItoa | internal/logstore/sqlite_driver.go:1153-1162 | parsing a rendered number gives it back, within 64 bits |
| LogManager.PipelineConserves | internal/logstore/manager.go:114-351 | on every interleaving: handed batches, worker batch and channel concatenate to the accepted entries in order; accepted plus dropped is inserted; bounds hold; what was enqueued before a returned flush, or before the close whose worker has exited, is with the driver |
| LogManager.AcceptedIs | internal/logstore/manager.go:139-166 | on every run the accepted entries are exactly, in order, those inserted while fewer than channelSize were queued and those that met the worker at its select; dropped counts exactly the inserts that found the channel full |
| LogManager.NothingDropped | internal/logstore/manager.go:154-165 | when no insert finds the channel full, every entry sent is accepted, in order |
| LogManager.FewEntriesFit | internal/logstore/manager.go:154-165 | when no more entries are sent than the channel holds, none is dropped |
| LogManager.FlushCovers | internal/logstore/manager.go:114-124 | on every run with a flush call in it: once that flush has returned, everything accepted before the call is with the driver |
| LogManager.CloseCovers | internal/logstore/manager.go:228-246 | on every run with a close in it: once the worker has exited, everything accepted before the close is with the driver |
| LogManager.FewShortBatches | internal/logstore/manager.go:284-333 | on every run no more batches below the batch size are handed over than there were ticks, finished flushes and stops |
| LogManager.TickCatchesUp | internal/logstore/manager.go:302-333 | a worker at its select can receive what is queued, and the next tick leaves everything accepted with the driver |
| LogManager.EntryArrives | internal/logstore/manager.go:154-156 | from any state of the worker's select, an entry sent while the channel has room can get to the driver, behind everything accepted before |
| LogManager.FlushReturns | internal/logstore/manager.go:114-124 | a flush called while the worker is at its select can be served at once, with everything accepted handed over |
| LogManager.FlushFinishes | internal/logstore/manager.go:114-124 | a flush taken up by the worker can always finish, in one step per queued entry and two more, with everything accepted handed over |
| LogManager.CloseFinishes | internal/logstore/manager.go:284-300 | a close seen by the worker can always finish, in one step per queued entry and two more, with everything accepted handed over |
| LogManager.CloseReturns | internal/logstore/manager.go:228-300 | a close called while the worker is at its select can be carried out at once |
| LogPipeline.Deliver | internal/logstore/manager.go:341-351 | whether or not batches fail, the driver goes on with the next one, and its history grows by the written parts of all batches, in order; the part of a batch is the entries of its first dates, all of them unless the next date has no slot below the cap left |
| LogPipeline.Flush | internal/logstore/manager.go:341-351 | one batch: the history grows by the entries of its first dates; all of them, or the next date has no slot below the cap left; the directory stays in order after an error too |
| LogPipeline.QueryAfterRun | internal/logstore/manager.go:139-351 | after any run of the front end, a query returns the page of the newest written entries; accepted are exactly the entries that found room, and all that were sent when no insert found the channel full; when every batch went through, the entries written are the first accepted ones, in order, including everything enqueued before each returned flush |
| UsageUpload.UsageBuffer.Add | internal/client/client.go:248-257 | below the bound the record is appended, at the bound the oldest one goes; the others keep their order |
| UsageUpload.UsageBuffer.Take | internal/client/client.go:260-270 | the oldest records leave in order, what remains follows them |
| UsageUpload.Ingestor.AlreadySeen | internal/clientapi/ingest.go:247-267 | duplicate exactly when remembered less than evictAfter ago; the sighting is stamped with its time, and a first sighting beyond 100000 keys sweeps out exactly those last seen more than evictAfter ago |
| UsageUpload.CountedIff | internal/clientapi/ingest.go:247-267 | a sighting is counted if and only if the key is new or was last seen at least evictAfter ago |
| ConfigPull.ControlState.Config | internal/clientapi/control.go:194-228 | the current bundle, verifiable with the client's own token |
| ConfigPull.Control.FetchAndApply | internal/client/control.go:189-231 | applies exactly an answer whose algorithm is hmac-sha256, whose signature is that of its config under the client's token, and whose version is not older; otherwise nothing changes |
| ConfigPull.Control.Round | internal/client/control.go:141-156 | healthy exactly when the heartbeat was answered and, where it asks for a fetch, the fetched answer is acceptable; then the client is on that answer's config, and in all other cases on what it had |
| ConfigPull.PullSafe | internal/client/control.go:141-231 | over every run with loss, replay and pushes, within one server lifetime: only issued bundles are applied, the version never falls or passes the server's, and when no config is needed the applied bundle is the current one |
| ConfigPull.MisdirectedRefused | internal/client/control.go:57-64 | a bundle signed for another client changes nothing |
| LruCache.MemoryCache.Get | internal/cache/memory.go:37-57 | hit with a bumped entry moved to the front, expired entry dropped, miss otherwise; counters follow |
| LruCache.MemoryCache.Set | internal/cache/memory.go:59-90 | old entry replaced, least recently used keys make room, new key first |
| LruCache.MemoryCache.Delete | internal/cache/memory.go:92-103 | the key goes from map and list, and no other key does |
| LruCache.RunKeeps | internal/cache/memory.go:37-112 | on every trace map and list hold the same distinct keys, at most maxItems, each entry under its own key |
| LruCache.LargerCacheIncludes | internal/cache/memory.go:37-112 | on any common trace the smaller cache's list is a subsequence of the larger one's with equal entries, and every hit of the smaller is the same hit of the larger |
| LruCache.StoredIsServed | internal/cache/memory.go:37-90 | on every trace that neither sets nor deletes the key, nor looks it up past its time to live, and names fewer than maxItems other keys, a lookup returns the entry as stored, with the time of storing and the number of its hits, until the time to live is over, and nothing after; without a time to live it never expires |
| LruCache.SurvivesAfterUse | internal/cache/memory.go:37-112 | a key set or hit outlives any trace that neither deletes nor expires it and touches fewer than maxItems other keys |
| LruCache.EvictedAfterMaxItems | internal/cache/memory.go:59-90 | maxItems sets of other keys evict a key |
| SseReader.StreamChat | internal/provider/anthropic_protocol.go:249-355 | for every way of cutting the bytes into reads, the events are those of parsing the delivered bytes line by line, plus the read error exactly when the stream failed before it had stopped |
| SseReader.RecordDecoded | internal/provider/anthropic_protocol.go:270-339 | after any stream at a line start, a record of type content_block_delta, message_start or message_delta appends what its own decoder makes of the payload, of any other type nothing, and message_stop alone ends the stream |
| SseReader.DataDecoded | internal/provider/anthropic_protocol.go:273-339 | each data line under a type is decoded as the type says, and the type stays |
| SseReader.BlankLineForgets | internal/provider/anthropic_protocol.go:267-269 | data behind a blank line adds nothing |
| SseReader.OtherLinesSkipped | internal/provider/anthropic_protocol.go:270-339 | a line that is neither blank nor starts with event: or data: changes nothing |
| SseReader.DeliveredIs | internal/provider/anthropic_protocol.go:256-355 | what counts is all data up to and with the read that ends the stream, and nothing behind it |
| SseReader.Stream | internal/provider/anthropic_protocol.go:249-355 | for any line handler that only appends events and every way of cutting the bytes into reads, the events are those of handling the delivered bytes line by line, plus the read error unless the stream had stopped |
| SseReader.FeedMore | internal/provider/anthropic_protocol.go:256-266 | parsing more bytes is parsing the rest of the buffer with them |
| SseReader.StreamGrows | internal/provider/anthropic_protocol.go:249-355 | events are never retracted, nothing follows message_stop, and an unterminated last line has no effect |
| SseReader.CarriageReturnsIgnored | internal/provider/anthropic_protocol.go:265-265 | a trailing carriage return makes no difference |
| BindMarkers.RewriteQuery | internal/dialect/dialect.go:163-195 | byte by byte: a question mark becomes $k exactly when an even number of quotes precede it, k counting such marks from the left; every other byte is copied |
| BindMarkers.RewriteNext | internal/dialect/dialect.go:163-195 | byte by byte: behind an even number of quotes a question mark becomes a dollar sign and one more than the number of marks before it; any other byte stays |
| BindMarkers.RewriteIdempotent | internal/dialect/dialect.go:163-195 | rewriting twice is rewriting once, for every string |
| FilterSql.BuildWhere | internal/logstore/sqlite_driver.go:695-744 | the conditions asked for, each with its own text and arguments, in order, joined by AND |
| FilterSql.CondsMeanMatch | internal/logstore/sqlite_driver.go:695-744 | for every filter and row the conjunction of the conditions holds exactly when the scan filter matches |
| FilterSql.CondsMean | internal/logstore/sqlite_driver.go:695-744 | what each condition says of a row: the column's field equals the argument, is among the ids, or lies not before or not after the time |
| FilterSql.EqualsTextIs | internal/logstore/sqlite_driver.go:695-744 | the text of each equality, by column, with its one argument |
| FilterSql.TimesRead | internal/logstore/sqlite_driver.go:695-744 | the text of each time condition, and the seconds it lets through |
| FilterSql.RewriteNumbers | internal/dialect/dialect.go:163-195 | a query of literal text and arguments is rewritten to $1 … $n, n the number of arguments, each at its own argument |
| PostgresQueries.DayRangeConds | internal/logstore/postgres_driver.go:376-401 | one half-open day range per parseable day, joined by OR in parentheses, nothing when none parses |
| PostgresQueries.BaseDayOfKey | internal/logstore/postgres_driver.go:376-401 | the name of a day file gives back its date, with or without a number |
| PostgresQueries.AllCondsMean | internal/logstore/postgres_driver.go:144-159 | filter and day ranges together select the rows that match the filter on one of the days |
| PostgresQueries.WhereClause | internal/logstore/postgres_driver.go:144-159 | the WHERE text and its arguments in the same order |
| PostgresQueries.SeriesQuery | internal/logstore/postgres_driver.go:228-250 | the bucketed query: both bucket arguments bound before the filter's |
| PostgresQueries.TopQuery | internal/logstore/postgres_driver.go:268-295 | the grouped query: limit bound last; unknown fields refused |
| Billing.Tiered | internal/api/cost.go:81-116 | filling the bands one after the other costs band width times effective rate, summed |
| Billing.BandPrices | internal/api/cost.go:81-116 | nothing for no tokens, the first rate up to 128000 tokens, the second for those up to 200000, the third for those beyond |
| Billing.RatesAre | internal/api/cost.go:81-100 | the rate of a band: the fallback or the base price in the first, else the band's own if it is positive, else that of the band below |
| Billing.RealCost | internal/api/cost.go:33-75 | prompt cost plus completion cost plus, where images have a price, images times it |
| Billing.InputIs | internal/api/cost.go:33-51 | the prompt: uncached tokens in bands, at the cache-write price where there is one, cached tokens, no more than there are, at the cache-read price |
| Billing.OutputIs | internal/api/cost.go:53-70 | the completion: plain tokens in bands, reasoning tokens, no more than there are, at their own price or the output price |
| Billing.BilledIs | internal/api/cost.go:118-131 | the bill: the cost times the markup, if there is one, times the plan's ratio, if that is positive |
| Billing.Monotone | internal/api/cost.go:81-116 | with nonnegative rates more tokens never cost less |
| Billing.Between | internal/api/cost.go:81-116 | the price lies between lowest and highest effective rate times the tokens |
| Billing.HitSaving | internal/api/emitter.go:284-295 | what a cache hit saves is the uncached tokens priced at the margins over the cache-read rate |
| Billing.CacheHitNotDearerIff | internal/api/emitter.go:284-295 | a hit never costs more than the request, whatever the usage, if and only if the margins lose nothing in the first band, over the first two together, and per token beyond |
| Billing.CheapReadsNeverDearer | internal/api/emitter.go:284-295 | when the cache-read rate is at most every effective input rate, a cache hit never costs more than the request |
| Billing.HitBilledNoHigher | internal/api/cost.go:118-131 | when the margins over the cache-read rate lose nothing in the first band, over the first two together, and per token beyond, a cache hit is billed no higher than the request, under any nonnegative markup and any plan ratio |
| RateWindow.Limiter.Allow | internal/api/register.go:81-107 | with a clock that does not run backwards, answers true exactly when fewer than limit earlier calls of the address were answered true later than now minus the window, whatever was filtered or evicted before |
| RateWindow.AcceptancesSpaced | internal/api/register.go:81-107 | over every run with any addresses, a stretch of calls with more than limit answered true for one address spans at least the window |
| RateWindow.Limiter.AnswersSpaced | internal/api/register.go:81-107 | of the answers that a limiter has given, any limit + 1 true ones for an address span at least the window |
| KeyRotation.ChannelPool.NextKey | internal/pool/pool.go:165-194 | one number of the 64-bit counter is drawn; before the wrap the answer is the first active key from there on in the cycle, and there is none only if no key is active |
| KeyRotation.PickFirst | internal/pool/pool.go:178-193 | the returned key is the first active one in the order tried; none only if none tried is active |
| KeyRotation.PickInTurn | internal/pool/pool.go:178-193 | before the wrap the choice is the first active key counting up from the number drawn, modulo the number of keys |
| KeyRotation.FailureExactIff | internal/pool/pool.go:178-194 | failing exactly when no key is active holds for every channel of n keys if and only if the counter does not wrap midway or n divides 2^64 |
| KeyRotation.ChannelPool.LoadFromStore | internal/pool/pool.go:51-105 | succeeds exactly when the rows and the keys of every enabled channel can be read; then the pool matches the store's enabled channels, each with its old counter exactly when the same ids came back in the same order, else 0; otherwise it is unchanged |
| KeyRotation.BuiltHolds | internal/pool/pool.go:78-97 | every loaded channel has the store's keys, and its old counter exactly when the same ids came back in the same order, else 0 |
| KeyRotation.SameIds | internal/pool/pool.go:141-151 | true exactly for equal id lists |
| KeyRotation.UnchangedReload | internal/pool/pool.go:51-105 | reloading an unchanged store changes nothing, however far the rotations have advanced |
| KeyRotation.ReloadsInvisible | internal/pool/pool.go:51-105 | unchanged reloads inserted anywhere leave every answer and the final state the same |
| KeyRotation.ServedIs | internal/pool/pool.go:165-194 | the k-th answer on a channel is that of the rotation k further on, whatever is called in between |
| KeyRotation.EveryActiveServed | internal/pool/pool.go:165-194 | before the wrap, n answers in a row of a channel of n keys include every active key |
| KeyRotation.EachOnce | internal/pool/pool.go:165-194 | before the wrap, when all n keys of a channel are active, n answers in a row are n different keys, each of them once |
| Agentic.DispatchToolCalls | internal/mcp/agentic.go:138-187 | one execution per call, in order |
| Agentic.DispatchOne | internal/mcp/agentic.go:140-215 | no error exactly when the tool is known, its server connects, the arguments parse and the call goes through; a failed execution has no result and costs nothing, a successful one carries the answer, the server's name and the tool's price, if it has one |
| Agentic.LastNamed | internal/mcp/agentic.go:83-98 | a tool is found under its name unless a later one has the same |
| Agentic.Execute | internal/mcp/agentic.go:83-134 | the request's messages grow by whole rounds, every call is executed and answered once in order, with at most ten chats, however the loop ends |
| Agentic.ToolText | internal/mcp/agentic.go:107-122 | a failed call is reported as its error, a result with one part as that part |
| Agentic.PartsJoined | internal/mcp/agentic.go:107-122 | the parts of a result are joined by line breaks |
| Agentic.ExecuteTranscript | internal/mcp/agentic.go:83-134 | over every run of the loop, for all models, tools and answers: the transcript grows by whole rounds of an asking message and its tool messages, every call asked for is executed once in order, and there are at most ten chats |
| Agentic.ExecuteEnds | internal/mcp/agentic.go:83-134 | the loop ends with the model's answer to the final transcript if that asks for no tools, with the error if the chat failed, and as too long only after ten chats that all asked |
| Agentic.EveryRequestAnswered | internal/mcp/agentic.go:83-134 | each added message with tool calls is followed by exactly one tool message per call, same ids, same order |
| Agentic.ResolveTools | internal/mcp/agentic.go:232-293 | starting from a pending assistant message, a successful run answers it and every assistant message it adds, executes every call once in order, and stays within ten chats |
| Agentic.ResolveTranscript | internal/mcp/agentic.go:232-293 | when ResolveTools succeeds, pending and added assistant messages are answered and all calls accounted for; when nothing is pending, it changes nothing |
| Agentic.ResolveEnds | internal/mcp/agentic.go:232-293 | success means that the last message is no assistant's with tool calls, or that the model's answer to the final transcript asks for none; an error is that of the last chat; too long only after ten chats |
| Agentic.NothingPending | internal/mcp/agentic.go:232-293 | a transcript whose last message is not an assistant's with tool calls is left alone |
| Agentic.EveryAssistantAnswered | internal/mcp/agentic.go:232-293 | after success no assistant message with tool calls is left unanswered, from the pending one on |
| Agentic.TotalCost | internal/mcp/agentic.go:41-47 | the sum of the calls' costs |
| Agentic.CostOne | internal/mcp/agentic.go:41-47 | no calls cost nothing, one call its own cost |
| Agentic.CostConcat | internal/mcp/agentic.go:41-47 | the total over a run is the sum over its dispatches |
| JsonlStore.JsonlDriver.Open | internal/logstore/jsonl_driver.go:87-97 | on whatever a directory holds; if it is in order for some history, it stays so; if every file is trustworthy, judged by its contents and by whether its name can be appended to, no later statistics read can be wrong |
| JsonlStore.JsonlDriver.BatchInsert | internal/logstore/jsonl_driver.go:157-193 | the dates written are the first ones in order of appearance, the history grows by exactly their entries in order, the count returned is theirs; when all went well these are the batch's entries, those without a creation time with their clock reading; an error means that the next date has no slot below the cap left; every file takes at most one append; order and trust in the rollups survive |
| JsonlStore.JsonlDriver.AppendForDate | internal/logstore/jsonl_driver.go:195-239 | the entries land at the end of one file of the date that was below the cap; that file's rows and rollup make one append step from whatever state they were in, no other file changes; on failure nothing changes and all 10000 slots are full |
| JsonlStore.JsonlDriver.AppendTo | internal/logstore/jsonl_driver.go:201-239 | rows, byte counter and, where one is known, rollup of one file advance together; appending to the date's last file keeps the directory in order |
| JsonlStore.JsonlDriver.WriteLines | internal/logstore/jsonl_driver.go:207-237 | the in-memory byte counter stays the file's size; a known rollup is folded over the batch, an unknown one stays unknown |
| JsonlStore.JsonlDriver.OpenSlot | internal/logstore/jsonl_driver.go:279-304 | creates a missing file and makes it active; the rollup in memory is empty for an empty file, else the stored one if it counts rows, or unknown |
| JsonlStore.JsonlDriver.Restart | internal/logstore/jsonl_driver.go:71-109 | a clean restart keeps the order of the directory and the trust in its rollups, with nothing held open |
| JsonlStore.JsonlDriver.MetaFor | internal/logstore/jsonl_driver.go:458-470 | on any file: the stored rollup if it counts rows, else the rollup of the file's rows, which is then stored; other files keep their state |
| JsonlStore.JsonlDriver.LogStats | internal/logstore/jsonl_driver.go:630-647 | when the answers for the visited files are exact, which trust guarantees, each field of the result is the sum of that field over the scanned rows, errors the number with status 400 or more, and over all days over the insertion history; for one file it is in any case that file's answer, and each visited file makes one read step |
| JsonlStore.StaleStatistics | internal/logstore/jsonl_driver.go:458-470 | on a directory with one day file below the cap and no rollup: insert and read, which is exact, insert and read, which is not |
| JsonlStore.JsonlDriver.TopByField | internal/logstore/jsonl_driver.go:652-725 | the result lists groups of different labels of the field, largest count first, then by name, each with the count, token and cost sums of exactly the rows with that label; at most limit (10 if none), and what is left out counts no more than what is listed: always with a filter, and without one when the visited rollups are exact; an unknown field is refused |
| JsonlStore.JsonlDriver.DeleteFiles | internal/logstore/jsonl_driver.go:761-775 | the named files and rollups go and no other file changes; the directory stays in order if and only if no date keeps a file behind a removed one; what remains of the history is, of each date, the rows in front of its first removed file, and after deleting whole dates exactly the rows of the other dates |
| MetaRecovery.TrackedRunsExact | internal/logstore/jsonl_driver.go:195-307 | from a file whose rollups are those of its rows, every statistics read of every run is exact |
| MetaRecovery.SoundRunsExact | internal/logstore/jsonl_driver.go:195-307 | every statistics read is exact on every run from a sound file: one with the rollup of its rows, or one without a rollup that is at the cap, that any append fills, or that nothing is ever appended to |
| MetaRecovery.ExactIffTrustworthy | internal/logstore/jsonl_driver.go:245-307 | on a closed file every run that can happen answers exactly if and only if an empty file has no loadable rollup, and another has the rollup of its rows, or none while no row fits below the cap; a file under a name that the driver never appends to may lack it in any case |
| MetaRecovery.MissingRollupGoesStale | internal/logstore/jsonl_driver.go:458-470 | a non-empty file without its rollup that stays below the cap answers wrongly after an append, a read and another append |
| DayKeys.ExtractDateInverts | internal/logstore/sqlite_driver.go:1142-1149 | the date comes back from the key exactly when it has fewer than three hyphens (number 0) or at least two (other numbers) |
| DayKeys.SeqOfInverts | internal/logstore/sqlite_driver.go:1153-1162 | the number comes back exactly when the date has at least two hyphens and the number 64 bits; number 0 exactly when the date has fewer than three or ends in no number but 0 |
| FileSelection.GroupDates | internal/logstore/sqlite_driver.go:1200-1215 | for any list: one group per date, found by date, with all its files; a list with dates together is kept in order |
| FileSelection.TruncateBy | internal/logstore/sqlite_driver.go:1196-1231 | for any list: whole dates are kept or dropped, never all, and what is kept fits the budget or is one date; for a list with dates together: the longest suffix of whole dates within the budget, or the last date alone |
| UsageUpload.Ingestor.HandleUsage | internal/clientapi/ingest.go:186-243 | empty batches are refused with 400 and those beyond 2000 records with 413, without effect; otherwise memory and count are those of the ingest of the batch, and accepted plus duplicates are the records with an id and source proxy, cache or local |
| UsageUpload.IngestIsSighting | internal/clientapi/ingest.go:216-230 | ingesting a batch is sighting its considered records one by one: same memory, and the keys counted are those newly accepted |
| UsageUpload.UploadIsRun | internal/clientapi/ingest.go:186-243 | an upload of sent records, each with its own valid source, at times that do not run backwards, is a run of the protocol's serve steps, ending in the same memory and count |
| UsageUpload.EffectivelyOnce | internal/client/proxy.go:396-460 | over every interleaving of stamping, buffering, lost requests, lost replies and retries, with keys apart: timely retries are counted at most once; every record is pending, in flight, counted or an overflow drop; pending stays in creation order and bounded; nothing is counted that was not sent |
| UsageUpload.NoneLost | internal/client/client.go:248-257 | over every interleaving in which no record finds the buffer full, every created record is pending, in an upload, or counted |
| UsageUpload.UploadConfirms | internal/client/proxy.go:418-454 | an upload of which nothing is lost confirms and counts exactly the oldest 200 pending records, or all if there are no more, and leaves the others in order |
| UsageUpload.RecordEnters | internal/client/proxy.go:396-416 | a new request can be stamped and buffered in any state, and its record is the newest |
| UsageUpload.FailRequeues | internal/client/proxy.go:456-460 | an upload that fails leaves the buffer as it was |
| UsageUpload.NamedClientsOnce | internal/clientapi/ingest.go:247-248 | for keys built from client names and request ids, over every interleaving of losses, retries and late or repeated deliveries: when no two clients share name, slash and id prefix, timely retries are counted at most once and no record is lost; a client that restarts under its name with a new nonce is such another client |
| UsageUpload.KeyDetermines | internal/clientapi/ingest.go:248-248 | two keys are equal exactly when number and name/prefix are |
| UsageUpload.NamesCollideIff | internal/clientapi/ingest.go:248-248 | two different names can give two records one key if and only if one, followed by a slash, begins the other |
| UsageUpload.SameNameInjective | internal/clientapi/ingest.go:248-248 | under one name, slashes or not, a key determines the record |
| UsageUpload.FleetApartIff | internal/clientapi/ingest.go:247-248 | keys of a set of clients stay apart whatever ids they make up if and only if no two names are equal or nested |
| UsageUpload.StemsApartIff | internal/clientapi/ingest.go:247-248 | with the id prefixes that the clients do use, their keys stay apart if and only if the strings name, slash, prefix are pairwise different |
| UsageUpload.RestartsApart | internal/client/proxy.go:47-51 | when different names are not nested, keys stay apart if and only if clients under one name, such as a client before and after its restart, have different nonces |
| UsageUpload.SlashCollides | internal/clientapi/ingest.go:248-248 | the names a and a/b, one begun by the other and a slash, give two different records one key |
| ConfigPull.RoundRecoversIff | internal/client/control.go:141-231 | in any world, one undisturbed round ends on the current bundle if and only if the server's version is ahead or the client has that bundle; a lower version is refused, an equal one not fetched |
| ConfigPull.RoundConverges | internal/client/control.go:141-231 | within one server lifetime, one undisturbed round from any reachable state between rounds ends on the server's current bundle and version |
| ConfigPull.LivesRecoverIff | internal/client/control.go:189-231 | over any number of server lifetimes, with restarts in the middle of rounds, the client's version never falls, and one undisturbed round brings it to the current bundle if and only if the server's version is ahead or the client has that bundle |
| ConfigPull.RestartRecoversIff | internal/clientapi/control.go:67-75 | after a restart, in the middle of whatever round, and any pushes, one undisturbed round brings the client to the current bundle if and only if the pushes have passed the client's version, or ended at it with the settings that the client has |
| ConfigPull.RestartHides | internal/clientapi/control.go:67-75 | after a restart and pushes up to the client's version with other settings, the server reports nothing needed and the client stays on the old bundle |
| ConfigPull.FetchAcrossRestart | internal/client/control.go:141-156 | a heartbeat that was answered before a restart can lead to a fetch answered after it; if the client's version is at most 1, it applies the restarted server's first bundle |
| Billing.SplitSaving | internal/api/cost.go:81-116 | one request costs beyond two the gaps at the two thresholds times the steps of the rates |
| Billing.SuperadditiveIff | internal/api/cost.go:81-116 | one long request costs at least as much as its tokens in two, wherever the cut, if and only if the first step does not go down and the second takes back no more than the first adds beyond both thresholds |
| Billing.Superadditive | internal/api/cost.go:81-116 | when rates do not fall from band to band, one request costs at least as much as its tokens in two |
| Billing.FallingRatesSplit | internal/api/cost.go:81-116 | when the second band is cheaper than the first, splitting is strictly dearer |
| Billing.LateDiscountSplit | internal/api/cost.go:81-116 | when the second step of the rates takes back more than the first added, splitting into two requests that reach the upper threshold is strictly dearer |
| RateWindow.Evict | internal/api/register.go:98-105 | exactly the addresses without times, or with the last one before the cutoff, go, and every later decision stays the same |
| PostgresQueries.PageQuery | internal/logstore/postgres_driver.go:166-181 | the paged query as text: SELECT, the clause, ORDER BY created_at and id descending, LIMIT and OFFSET with the two numbers after the clause's; limit 50 if none and at most 500, no negative offset |
| PostgresQueries.CountQuery | internal/logstore/postgres_driver.go:156-162 | the count query as text: SELECT COUNT(*) and the clause of filter and day ranges, with its arguments |
| PostgresQueries.DeleteQuery | internal/logstore/postgres_driver.go:349-360 | the delete query: the day ranges numbered through, and none when no day parses |

## Left out

- Rendering and parsing JSON, `time.Format` and `time.Parse`: `dateOf`, `lineLen` and the day parser are
  parameters. Rows must have a date (years 0 to 9999), as Go refuses to marshal others.
- The 4 MiB limit on a scanned line, torn trailing lines, write and fsync errors, crashes, gzip archives and the
  migration of old `.db` files.
- JsonlStore.JsonlDriver.BatchInsert: marshalling and write errors, after which part of a batch is written, are
  not modelled; rollups held by open files are values in the driver's file map rather than shared pointers, and
  the locks around them are not modelled; operations on the driver are sequential.
- JsonlStore.JsonlDriver.QueryAcross: does not model 64-bit overflow of offset + limit, which are unbounded
  here.
- TopK.SiftUp: the container/heap functions work on a sequence that is reassigned, not on a shared slice.
- LogManager.PipelineConserves: the drop mode is modelled; the strict mode, which inserts synchronously when the
  channel is full, and worker panics with restart are not steps of the system. Entries inserted after Close has
  ended the worker stay in the channel, as in the code.
- UsageUpload.EffectivelyOnce: the uploader is the only consumer of the buffer; the usage recorder, which drains
  the same buffer, is not modelled.
- ConfigPull.PullSafe: heartbeat answers can be lost but not forged; the signature is an ideal MAC; normalizing
  a pushed bundle is left out.
- LruCache.MemoryCache.Get: one clock reading per operation, and the recency list is a sequence of keys rather
  than linked elements.
- SseReader.StreamChat: decoding of the JSON payloads is a parameter; the request before the stream and the idle
  timer are left out.
- PostgresQueries.PageQuery: column lists and aggregate expressions are parameters free of quotes and question
  marks; executing the SQL, for Postgres as for SQLite, is outside.
- Billing.Tiered: floating-point rounding is not modelled, prices are reals.
- Agentic.Execute: contexts, logging and the connection of tool clients are outside; the loading of tools can
  fail but not block.
- KeyRotation.ChannelPool.LoadFromStore: the masked key text and channel attributes other than id and status are
  not carried; the single-channel UpsertChannel and RemoveChannel are left out.
- HTTP handlers, routing, the circuit breaker, budgets, Thompson sampling, the admin interface, notifications
  and the cluster manager.
