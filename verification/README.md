# Friends tracker: decision layer model

A Dafny model of the decision layer of a social-network friends tracker (`run.py`).
The script pages through a user's friend list and looks up profile details in batches of 50.
It falls back to the previously saved snapshot for names the lookup could not supply.
It then reports friends added and removed since that snapshot and saves the new list behind a corruption guard.
Every HTTP exchange is replaced by an abstract input:

- the friend-list pages are a finite sequence of `PageResponse` values (a status with a body, or a connection error);
- the bulk-detail answers are a function `respond(batch, attempt)`;
- the snapshot file is `Option<seq<FriendRecord>>`, where `None` means missing or unreadable.

Modules, in pipeline order:

- `Wrappers` holds `Option`.
- `Config` holds the constants: batch size 50, 3 attempts, a 5-second rate-limit delay, a 1-second pause after a connection error, and a page size of 50.
- `Records` holds the friend record, the "nameless" test, and the last-wins id dictionary.
- `Pagination` is `fetch_friend_ids`.
- `Batching` is the id slicing.
- `Retry` is the retry loop of one batch.
- `Enrichment` is `fetch_user_details`, with its merge and recovered count.
- `Changes` is `analyze_changes`.
- `Store` holds `save_database` and `load_local_history`.
- `Pipeline` is the run after authentication.

"Nameless" means the name is missing, null or `""`, which is Python's `not f.get('name')`.
The two fraction guards are written as integer cross-multiplications:

- the analysis is skipped iff `n > 0 && 2·k > n`;
- the save is refused iff `n > 0 && 5·k > n`.

Each guard predicate's contract states that it agrees with the exact quotient `k/n`, read over the reals, compared with `0.5` or `0.2`.
The source divides in double precision, so the model agrees with it only on the lists where rounding cannot move the quotient across the threshold:

- The `0.5` guard agrees for every list shorter than 2^53 entries. `0.5` is exact, and a quotient above it is at least `1/(2n)` above it, which is more than half a unit in the last place there.
- The `0.2` guard agrees for every list shorter than 2^56/9 entries, about 8.0·10^15. The literal `0.2` is stored slightly above one fifth, so a quotient just above one fifth can round down onto it. The first list where this happens has n = 8006399337547549 and k = (n + 1)/5 nameless entries: the model refuses the save, and the source would write it.

Two behaviours follow from the code itself:

- Both guards compare with a strict `>` (run.py:210 and run.py:268). So a list with exactly 20 % nameless entries is saved, and one with exactly 50 % is analysed.
- `fetch_friend_ids` is annotated as returning `Optional[List[Dict]]` (run.py:96), and the caller halts when it gets `None` (run.py:301-303). But every path of the function returns the list, so that halt is never reached. See Findings.

## Model

| member | source | states |
|---|---|---|
| Records.Nameless | run.py:209 | An entry is nameless iff its name, with a missing or null name read as `""`, is empty. |
| Records.NamelessCount | run.py:267 | The nameless count never exceeds the list's length. |
| Records.NamelessCountIsIndexCount | run.py:209 | The nameless count is the number of positions that hold a nameless entry. |
| Records.NamelessCountExtremes | run.py:209 | The nameless count is 0 iff every entry has a name, and it equals the length iff every entry is nameless. |
| Records.MapById | run.py:145 | The id dictionary's keys are exactly the ids that occur in the list. |
| Records.MapByIdLastWins | run.py:222-223 | When an id occurs more than once, the dictionary binds it to the last entry carrying it. |
| Records.UniqueIdsMapBack | run.py:222-223 | When ids are unique, each entry is found in the dictionary under its own id. |
| Records.IdsOf | run.py:146 | The id list has the same length as the friend list and holds each entry's id at the same position. |
| Pagination.ItemsOf | run.py:115 | A page's items are its `PageItems` when that list is non-empty, and otherwise its `data`. They are empty only when both lists are empty. |
| Pagination.FetchFrom | run.py:104-131 | Each request consumes one response, and there are never more requests than responses. The first request has page size 50 and carries the cursor only when it is non-empty. Running out of responses means every response was consumed. |
| Pagination.FetchFriendIds | run.py:96-134 | The first request carries no cursor, and the result is always a list (no null outcome). |
| Pagination.FetchStopsAtFirstStop | run.py:112-131 | Every response before the last consumed one continued the loop: it was a 429, or a 200 with a non-empty `NextCursor`. The loop stops at the first response that does not continue it. That response decides the stop reason: a last page, another status, or a connection error. |
| Pagination.FetchSleepsOnRateLimit | run.py:121-124 | The loop sleeps the fixed 5 s after a 429 and after nothing else. |
| Pagination.FetchCollectsOkItems | run.py:112-116 | The accumulated list equals the in-order concatenation of the items of every 200 response consumed. The items of a page are `PageItems`, or `data` when that is empty. A 429 adds nothing. |
| Pagination.FetchChainsCursors | run.py:105-124 | After a 429 the next request repeats the same request. After a 200 the next request carries that page's `NextCursor`. |
| Pagination.ThreePages | run.py:104-120 | Pages linked A, then B, then no cursor: exactly three requests with cursors none, A and B, and the three pages' items in page order, whether or not a page is empty. |
| Pagination.RateLimitRepeatsRequest | run.py:121-124 | A 429 between two pages repeats the request with cursor A, sleeps 5 s and appends nothing. |
| Batching.BatchesFrom | run.py:152-153 | There are ceil((n − start)/50) batches. Batch k is the slice from start + 50k to the smaller of start + 50k + 50 and n. |
| Batching.Batches | run.py:152 | The id list is split into ceil(n/50) batches. |
| Batching.BatchSizes | run.py:152-153 | Every batch is non-empty and holds at most 50 ids. All batches but the last hold exactly 50. |
| Batching.BatchesFromFlatten | run.py:152-153 | Concatenating the batches from an offset gives back the ids from that offset, in order. |
| Batching.BatchesFlatten | run.py:146-153 | Concatenating the batches gives back the id list: every id lands in exactly one batch, in order. |
| Batching.HundredTwentyIds | run.py:152-153 | 120 ids give exactly three batches, of 50, 50 and 20 ids. |
| Retry.RetryFrom | run.py:156-170 | A batch makes between 1 and 3 attempts. Every attempt but the last got a 429 or a connection error. A batch stops before its third attempt only on a response that is neither. Each attempt's wait is (k+1)·5 s after a 429 at attempt k, 1 s after a connection error, and none otherwise. |
| Retry.RunBatch | run.py:156 | One batch makes at least one and at most 3 requests. |
| Retry.RecordsOnlyFromSuccess | run.py:159-168 | A batch yields records only when its final attempt was a 200, and then exactly that response's `data`. An abandoned or exhausted batch yields nothing. |
| Retry.Backoff | run.py:164 | A rate-limit wait is a positive multiple of the 5-second delay. Within the 3 attempts it never exceeds 15 s. |
| Retry.BackoffIncreases | run.py:163-166 | Between two rate-limited attempts of one batch, the later wait is strictly longer. |
| Retry.TwoRateLimitsThenSuccess | run.py:156-166 | Two 429s and then a 200 take exactly three requests, with waits of 5 s and then 10 s, and keep the 200's records. |
| Retry.RateLimitedThrice | run.py:163-166 | Three 429s exhaust the batch after waits of 5, 10 and 15 s, and it yields nothing. |
| Enrichment.MergeEntry | run.py:177-194 | Merging one entry keeps its id. A merged entry is nameless only when its API record is nameless, or, without an API record, when it was nameless already. |
| Enrichment.Merge | run.py:176-196 | The merged list has the input's length, and each output position is the merge of the input entry at that position. |
| Enrichment.MergeKeepsIds | run.py:176-196 | The merge keeps the list's length, order and ids. |
| Enrichment.MergePriority | run.py:178-194 | An API record's name, display name and badge win, even when its name is empty. Without one, a local record with a non-empty name supplies those fields. Otherwise the entry is unchanged. |
| Enrichment.MergeNameless | run.py:181-194 | An entry comes out nameless iff its API record is nameless. Without an API record, it comes out nameless iff the fallback does not apply and it was already nameless. |
| Enrichment.MergeCountsRecovered | run.py:174-194 | `recovered` equals the number of positions that have no API record but do have a named local record. |
| Enrichment.FetchUserDetails | run.py:136-201 | The result keeps the input's length and ids. There are ceil(n/50) batches: the id list's 50-id slices, in order. Batch b is the retry run driven by the answers to batch b's attempts, and it makes 1 to 3 attempts. The fetched map is the last-wins dictionary of every record the 200 answers returned, batch by batch. Each entry is merged against that map and the last-wins local history. `recovered` counts the fallback positions. |
| Enrichment.FetchedRecordWins | run.py:159-186 | When a 200 answer returned a record for an entry's id, the entry takes the name, display name and badge of the last such record, and it is not counted as recovered. |
| Enrichment.AllBatchesFail | run.py:156-194 | When no batch ever gets a 200, nothing is fetched. Then every entry with a named local record takes that name and is counted as recovered. |
| Changes.AnalysisGuardTrips | run.py:209-210 | The analysis guard trips iff the list is non-empty and its nameless entries, as an exact fraction of its length, exceed one half. |
| Changes.Lines | run.py:240-252 | A line group holds exactly one line per id. Each line names the record the given dictionary holds for that id. |
| Changes.AnalyzeChanges | run.py:203-252 | The analysis is skipped iff the list is non-empty and more than half nameless. Otherwise there is no history iff the file is absent, and no change iff the id sets are equal. A report has removed = old − current and added = current − old, which are disjoint and not both empty. Removal lines are resolved in the old dictionary and addition lines in the current one. |
| Changes.LinesCount | run.py:240-252 | A group has as many lines as it has ids. |
| Changes.ReportLineCount | run.py:240-252 | A report holds one line per removed id and one per added id, so its line count is the size of their union. |
| Changes.OneRemovedOneAdded | run.py:222-252 | Old {1,2,3} against current {2,3,4} removes 1 and adds 4, with exactly one line each. |
| Changes.ReportNamesEntries | run.py:222-252 | When both lists have unique ids, each added friend's line carries that friend's name from the current list. Each removed friend's line carries its name from the snapshot. |
| Changes.ExactlyHalfNamelessIsAnalysed | run.py:209-212 | Any list with exactly half of its entries nameless is analysed, because the comparison is strict. Appending one more nameless entry to such a list makes the analysis skip it. |
| Store.SaveGuardTrips | run.py:267-268 | The save guard trips iff the list is non-empty and its nameless entries, as an exact fraction of its length, exceed one fifth. |
| Store.LoadLocalHistory | run.py:70-79 | History is the stored list, or the empty list when the file is missing or unreadable. |
| Store.SaveDatabase | run.py:263-270 | Nothing is saved for an empty list. A list more than a fifth nameless is refused. Any other list is persisted whole and unchanged. |
| Store.StoredAfter | run.py:272-276 | A persisted list replaces the file. A refusal or an empty list leaves the file as it was. |
| Store.SaveThenLoad | run.py:272-276 | What a save persists is exactly what the next run loads as local history. |
| Store.SaveGuardStricter | run.py:264-270 | Every persisted list would also pass the analysis guard. Every list the analysis guard skips is refused by the save guard. |
| Store.ExactlyOneFifthIsSaved | run.py:267-270 | One nameless entry in five is saved, because the comparison is strict. One in four is refused. |
| Pipeline.RunAsWritten | run.py:300-307 | As written, the fetched list goes on whatever ended the pagination. It is enriched against the history loaded from the snapshot file, keeping its ids. It is analysed against the snapshot file as it was before the save. It goes through the save guards: nothing is written for an empty list, and a list more than a fifth nameless is refused. The file after the run is the persisted list, or the old file when the save did not happen. |
| Pipeline.PhantomUnfriendAsWritten | run.py:125-134 | As written, a connection error on the first page yields an empty list. Against any non-empty snapshot, the analysis then reports every stored id as unfriended and nothing as new. There is one removal line per stored id, named from the snapshot. The file is kept. |
| Pipeline.FetchFriendIdsChecked | run.py:96-134 | The checked fetch gives no list iff pagination stopped on an error. Otherwise it gives the concatenation of the 200 pages' items, and every consumed page either continued or was the last page. |
| Pipeline.Run | run.py:300-307 | The run halts iff the checked fetch failed. Otherwise it is the run as written. |
| Pipeline.RunReportsOnlyCleanFetches | run.py:300-307 | Whenever the run completes, no page ended in an error. Pagination ended on a last page, or the modelled responses ran out. The list analysed and saved is built from all of the 200 pages' items. |
| Pipeline.NetworkErrorHalts | run.py:300-303 | Whatever the snapshot file holds, a connection error on the first page halts the run, before anything is logged or saved. |

## Left out

- Cookie loading, the interactive prompt and its write-back (run.py:28-61): console and file I/O.
- `get_headers` (run.py:63-68) and `get_auth_user` (run.py:81-94): HTTP and authentication. The run is modelled from the point where the user id is known.
- Response JSON parsing: responses are given already parsed. A missing key and a JSON `null` are both `None`, and a missing or null item list is the empty list. A null `data` list would crash the source with a `TypeError`; that is not modelled.
- Entry fields other than `id`, `name`, `displayName` and `hasVerifiedBadge`: no decision reads them. The source only copies them into the JSON and CSV files (run.py:274, run.py:280-282), and the model's snapshot omits them.
- Wall-clock sleeps: waits are values in the model. Timestamps (`datetime.now()`, run.py:235) are not modelled either.
- Coloured console output, including the printed activity report with its `'Unknown'` default (run.py:238-254). Only the log lines' kind, id and name are modelled, not their text.
- Appending to the activity log and writing the JSON and CSV files (run.py:256-261, run.py:272-285). The CSV header comes from the first record's keys. A save is a decision plus the file contents afterwards, and write failures are not modelled.
- Pagination.FetchFrom: runs over a finite response sequence. The source loops forever while the server keeps answering 429 (run.py:121-124). `OutOfResponses` marks a run cut short by the model, not by the program.
- Changes.AnalyzeChanges: each line group is a set. Python iterates its sets in an unspecified order (run.py:242, run.py:249), so only "all removals, then all additions" is stated.
- Enrichment.FetchUserDetails: the batch oracle is indexed by batch number and attempt, not by payload. The recorded payloads are stated separately.
- Process exit codes (run.py:293-303).
- Changes.AnalysisGuardTrips: compares the exact quotient, not its double-precision rounding. The two agree for every list shorter than 2^53 entries.
- Store.SaveGuardTrips: compares the exact quotient, not its double-precision rounding. The two agree only for lists shorter than 2^56/9 entries (about 8.0·10^15), as explained above.

## Findings

| source | as written | input that shows it | evidently intended | confidence | as-written member | corrected member |
|---|---|---|---|---|---|---|
| run.py:125-134 | `fetch_friend_ids` returns the partial list on an error status or a connection error, never `None`. So the caller's test at run.py:301 never halts, and the analysis compares a partial list with the snapshot. | Any non-empty stored snapshot, and a connection error on the first page. The empty list passes the guard, every stored friend is logged as UNFRIENDED, and the snapshot is kept, so the log records a removal that never happened. | A failed pagination returns `None` and the run halts with "API Error. Halting." before analysis and save. | medium, not executed | Pipeline.PhantomUnfriendAsWritten | Pipeline.Run |
