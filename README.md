# m3u8-dl download process: a verified model

This project models the download process of m3u8-dl, `core/download_process.py`.
That process downloads a job's links over a series of retry rounds. Its parts are:

- **`DownloadProcess`**: the manager object. It holds the job's constants and four counters that the retry loop updates in place: the downloaded count, the per-process quota, the retry counter and the error links.
- **The retry loop (`process_pool_executor_handler`)**: each round takes the error links, or all links when there are none, and shuffles them. It cuts them into consecutive batches of `quota` links. Batch *i* is pinned to CPU `cpus[i mod |cpus|]`. The loop then runs every batch, merges the failed links into the error links and recounts the downloaded links. When some links failed, it recomputes the quota as `outstanding // process count` and counts a retry.
- **The thread dispatcher (`start_threads`)**: for every link of its batch it fetches the link unless the destination file already exists. It drops the failed links from its link-to-path dictionary and sends the coordinator a `POST_FILENAME_QUEUE` header frame followed by the remaining paths. It returns the failed links.
- **`download_process`**: builds the manager, runs the loop, and finally sends a `STOP_QUEUE` frame that carries the downloaded count.

What the model cannot see is supplied as oracles in `Orchestrator.Env`:

- which destination files already exist (a set of paths);
- whether the fetcher succeeds with a link in round *r* (`fetch(r)(link, path)`);
- the order `random.shuffle` leaves a list in during round *r*. This oracle is required to be a permutation.

The rounds are specified by the functions `Round` and `Run`. The imperative code is proved against them:

- `Partition` against `Batches`;
- `StartThreads` against `FailedLinks` and `ReportedPaths`;
- the handler's loop against `Run`.

The properties proved include:

- **Conservation**: after every round, the downloaded count plus the number of error links equals the total.
- **Consistency**: the error links are always links of the job, and none appears twice.
- **Bounds**: the loop runs at most `max_retries` rounds, and it ends with no error links or with the retries used up.
- **Batching**: with a positive quota the batches concatenate to the active list, and every batch but the last is full.
- **Round-robin pinning** of batches to CPUs.
- **Exact failures**: a round's error links are exactly the dispatched links that failed, in order.
- **Framing round-trips**: each header frame reads back as the header it encodes.

Modules:

- `Types`: links, paths and `Option`.
- `Framing`: header frames and their reading side.
- `Dispatch`: partition into batches.
- `Threads`: `download_thread` and `start_threads`.
- `Orchestrator`: the manager class, rounds, the retry loop and `download_process`.

Behaviours of the code that the model makes explicit:

- The loop runs at most `max_retries` rounds, and none when `max_retries` is 0 (`RunBounded`).
- A quota of 0 submits only empty batches and records every link as downloaded (`ZeroQuotaRecordsAll`, `SmallErrorSetCountedDownloaded`). The quota is 0 whenever the outstanding links, all of them or the error links, are fewer than the processes.
  - Example: 10 links, one of which always fails, two CPUs and `max_retries` 3. The run ends after 2 rounds with a downloaded count of 10, although one link was never downloaded.
- A worker exception is re-raised inside the done-callback, which the executor logs and drops, so that batch's failures are lost (see "Left out").

## Model

| member | source | states |
|---|---|---|
| Orchestrator.DownloadProcess.constructor | core/download_process.py:40-54 | a fresh manager has count 0, retry counter 0, no error links, and quota `total // process count` |
| Orchestrator.DownloadProcess.SetThreadNum | core/download_process.py:62-63 | sets the quota and nothing else |
| Orchestrator.DownloadProcess.SetTotalDownloadedLinksCount | core/download_process.py:77-78 | sets the downloaded count and nothing else |
| Orchestrator.Quota | core/download_process.py:51 | the quota is the floor of outstanding links over processes: `q * n <= outstanding < (q + 1) * n` |
| Orchestrator.ActiveLinks | core/download_process.py:111-117 | a round runs on a permutation of the error links when there are any, otherwise on a permutation of all links |
| Orchestrator.RoundBatchesReady | core/download_process.py:111-139 | every batch of a round holds links of the job, each with a destination name and none twice, and what the batches fail is a sub-multiset of the job's links |
| Orchestrator.BatchFailuresDispatched | core/download_process.py:98-102 | merging the failures batch by batch equals filtering the concatenation of all dispatched links |
| Orchestrator.DispatchedWithin | core/download_process.py:121-137 | a round never dispatches a link more often than the active list holds it |
| Orchestrator.Settle | core/download_process.py:141-158 | the failures become the error links; the count plus the error links equals the total; with failures the quota is recomputed and a retry is counted; without failures both are unchanged |
| Orchestrator.Round | core/download_process.py:111-158 | one round keeps the error links within the job's links, conserves count plus errors, and counts a retry exactly when some link failed |
| Orchestrator.RunConserves | core/download_process.py:141-146 | after the loop has run, the downloaded count plus the outstanding error links equals the total, and the error links are links of the job |
| Orchestrator.RunBounded | core/download_process.py:104-160 | at most `max_retries - done_retries` rounds run; the loop ends with no error links or with the retries used up; with no retry left it changes nothing |
| Orchestrator.RoundFailuresExact | core/download_process.py:119-146 | with a positive quota the round's error links are exactly the failing active links, in shuffled order |
| Orchestrator.ZeroQuotaRecordsAll | core/download_process.py:119-146 | with quota 0 nothing is dispatched, yet the round ends with no error links and counts every link as downloaded |
| Orchestrator.SmallErrorSetCountedDownloaded | core/download_process.py:141-158 | a round leaving fewer error links than processes, with a retry left, ends the run after one more round with every link counted |
| Orchestrator.FailureFreeRoundEnds | core/download_process.py:150-160 | a round in which no active link fails ends the loop after that round, with every link counted and the retry counter unchanged |
| Orchestrator.RunBatches | core/download_process.py:98-139 | running the batches yields exactly the merged failures and reports of all batches, in batch order |
| Orchestrator.RetryRound | core/download_process.py:111-158 | one pass of the loop body leaves the manager in the state `Round` specifies and sends what `Round` sends |
| Orchestrator.DispatchRound | core/download_process.py:111-139 | clears the error links, and the failures and frames it returns are those of the specified round |
| Orchestrator.SettleRound | core/download_process.py:141-158 | appends the failures to the cleared error links and updates count, quota and retry counter as `Settle` says |
| Orchestrator.ProcessPoolExecutorHandler | core/download_process.py:104-160 | the manager's final state and everything sent are those of `Run` from its initial state |
| Orchestrator.Download | core/download_process.py:17-36 | sends the frames of the whole run and then a STOP_QUEUE frame carrying the final downloaded count |
| Dispatch.Partition | core/download_process.py:119-137 | the submitted batches are exactly `Batches` of the active list, with the quota and the CPU list |
| Dispatch.BatchesCover | core/download_process.py:121-137 | with a positive quota the batches concatenate to the whole active list |
| Dispatch.BatchesShape | core/download_process.py:121-137 | with a positive quota there are ceil(n / quota) batches; every batch but the last has exactly quota links and the last has 1 to quota |
| Dispatch.ZeroQuotaBatches | core/download_process.py:121-137 | with quota 0 the loop submits one empty batch per active link and dispatches nothing |
| Dispatch.BatchesCpus | core/download_process.py:126 | batch j is pinned to the CPU at position j modulo the CPU count |
| Dispatch.BatchesWithin | core/download_process.py:131 | every batch is a sub-multiset of the active list |
| Threads.DownloadThread | core/download_process.py:201-206 | an existing file succeeds without a fetch; otherwise the fetcher decides; a failure carries the link |
| Threads.ExistingSkipsFetch | core/download_process.py:203-204 | an existing destination file gives success whatever the fetcher would do |
| Threads.JoinShape | core/download_process.py:178 | a joined path ends with the file name; an absolute name replaces the prefix, and a relative one goes under it |
| Threads.FailedLinksMember | core/download_process.py:176-206 | a link is among the failed links if and only if it is in the batch, its file does not exist and its fetch fails |
| Threads.FailedLinksAppend | core/download_process.py:176-181 | the failures of two consecutive runs of links are the failures of each, concatenated |
| Threads.SplitIsPartition | core/download_process.py:183-189 | failed and succeeded links together are the batch as a multiset: nothing lost, nothing doubled |
| Threads.ReportedAreSucceeded | core/download_process.py:183-189 | the reported paths are the destination paths of the succeeded links, one for one and in order |
| Threads.ExistingNeverFails | core/download_process.py:203-204 | a link whose destination file exists is never among the failed links |
| Threads.ValuesAreReported | core/download_process.py:189 | the values of the pruned link-to-path dictionary, in insertion order, are the reported paths |
| Threads.SubmitAll | core/download_process.py:176-181 | the failure queue holds the batch's failed links in order, and the dictionary maps every link of the batch to its destination |
| Threads.DropFailed | core/download_process.py:183-187 | the returned failed list is the queue, and the dictionary loses exactly the queued links, keeping the other entries |
| Threads.StartThreads | core/download_process.py:163-198 | returns exactly the batch's failed links, and sends a POST_FILENAME_QUEUE frame followed by the destination paths of the succeeded links |
| Framing.LeftJustify | core/download_process.py:190 | the padded tag starts with the tag, is as long as the larger of the tag and the width, and the rest is spaces |
| Framing.NatToDecimal | core/download_process.py:28 | the decimal text of a count is nonempty, all digits, and has no leading zero |
| Framing.DecimalRoundTrip | core/download_process.py:28 | the count written into a STOP_QUEUE frame parses back to the same integer |
| Framing.HeaderRoundTrip | core/download_process.py:28 | when the header width holds the tags, every frame decodes to the header it encodes |
| Framing.NarrowHeaderUnreadable | core/download_process.py:28 | a header width shorter than `STOP_QUEUE` makes the STOP frame unreadable |

## Left out

- Process and thread pools, real parallelism and CPU affinity calls. A round is a sequential fold over its batches in submission order; the CPU of each batch is recorded but not applied.
- Completion order: the source merges failures in the order batches and fetches complete. The model merges them in submission order, and the list is shuffled before the next round anyway.
- The network fetch (`fetch_data`), with its session, the 120-second timeout and the HTTP/2 flag. It becomes the oracle `fetch(r)(link, path)`. The model assumes the fetcher returns nothing on success and the link on failure.
- The file-existence test becomes a fixed set of existing paths. Files written during the run are not added to it.
- The CPU list is queried afresh each round in the source. The model uses one list for all rounds.
- `random.shuffle` becomes an oracle that may return any permutation.
- The coordinator socket `Client` and `pickle`: transmissions are values (`Frame`, `Payload`); connection errors and their logging are not modelled.
- Printing, timing and the debug output.
- Exception paths. A worker exception that the done-callback swallows is not modelled, and the batch counts as if it had returned its failures. `sys.exit` in `start_processes` and the `except` clauses of `download_process` are not modelled either.
- `start_processes` only opens the process pool and calls the handler; the model calls the handler directly. The getters are modelled as direct field reads.
- `convert` is carried and unused, as in the source; `session` is folded into the fetch oracle together with `fetch_data`.
- ProcessPoolExecutorHandler: requires `done_retries <= max_retries`. With a negative `max_retries` the source loops until a round without failures, which may never come; the same requirement is on `Run`.
- Download: requires `max_retries >= 0`, for the same reason.
- StartThreads: requires distinct links, each with a destination name. The source looks names up and deletes dictionary entries without guards, and would raise otherwise; the job-level form of this requirement is `WellFormed`.
- Callback timing: `wait` can return before the done-callbacks of the last futures have queued their failures, and `JoinableQueue.empty()` is only approximate. The model assumes every callback has run when the merge starts.
- `HEADER_SIZE`, `IP` and `PORT` live in `core/common/constants.py`, which is not part of this model. The header width is a parameter.
