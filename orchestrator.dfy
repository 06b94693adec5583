/**
 * The retry orchestrator: the `DownloadProcess` object and the round loop of
 * `process_pool_executor_handler` (download_process.py lines 17-160).
 *
 * A round is modelled as a sequential fold over its batches; what the model
 * cannot see is supplied by an environment of oracles: which destination files
 * already exist, what the fetcher does with each link in round r, and the
 * order `random.shuffle` leaves a list in for round r.
 */
module Orchestrator {
  import opened Types
  import opened Framing
  import opened Dispatch
  import opened Threads

  /** The oracles of a run.  Rounds are numbered by the retry counter at their start. */
  datatype Env = Env(existing: set<Path>, fetch: nat -> FetchOracle, shuffle: (nat, seq<Link>) -> seq<Link>)

  /** `random.shuffle` only reorders. */
  ghost predicate Shuffles(env: Env) {
    forall r: nat, s: seq<Link> :: multiset(env.shuffle(r, s)) == multiset(s)
  }

  /** What stays fixed for a run: the manager's constants and the handler's arguments. */
  datatype Job = Job(links: seq<Link>, totalLinks: nat, processNum: nat, maxRetries: int,
                     maps: map<Link, string>, prefix: string, cpus: seq<Cpu>, headerSize: nat)

  /**
   * At least one CPU, links without repetition, and a destination name for
   * every link (the source looks names up without a guard).
   */
  ghost predicate WellFormed(job: Job) {
    && job.processNum >= 1
    && |job.cpus| > 0
    && Distinct(job.links)
    && AllMapped(job.links, job.maps)
  }

  /** The manager's mutable state at a round boundary. */
  datatype Progress = Progress(sent: int, threadNum: nat, doneRetries: nat, errorLinks: seq<Link>)

  /** Every outstanding error link is a link of the job, none of them twice. */
  ghost predicate Consistent(job: Job, p: Progress) {
    multiset(p.errorLinks) <= multiset(job.links)
  }

  /** The per-process share of `outstanding` links: Python's `//` on non-negative operands. */
  function Quota(outstanding: nat, processNum: nat): (q: nat)
    requires processNum >= 1
    ensures q * processNum <= outstanding < (q + 1) * processNum
  {
    outstanding / processNum
  }

  /** Fewer outstanding links than processes give a quota of 0. */
  lemma QuotaOfFewer(outstanding: nat, processNum: nat)
    requires outstanding < processNum
    ensures Quota(outstanding, processNum) == 0
  {
  }

  /** The state of a fresh manager (download_process.py lines 49-54). */
  function Initial(totalLinks: nat, processNum: nat): Progress
    requires processNum >= 1
  {
    Progress(0, Quota(totalLinks, processNum), 0, [])
  }

  /** The list a round runs on: the error links if there are any, else all links, in shuffled order. */
  function ActiveLinks(job: Job, env: Env, p: Progress): (r: seq<Link>)
    requires Shuffles(env)
    ensures p.errorLinks != [] ==> multiset(r) == multiset(p.errorLinks)
    ensures p.errorLinks == [] ==> multiset(r) == multiset(job.links)
  {
    env.shuffle(p.doneRetries, if p.errorLinks != [] then p.errorLinks else job.links)
  }

  ghost predicate AllBatchesMapped(bs: seq<Batch>, maps: map<Link, string>) {
    forall j :: 0 <= j < |bs| ==> AllMapped(bs[j].links, maps)
  }

  /** The failed links of all batches, merged in batch order. */
  function BatchFailures(bs: seq<Batch>, maps: map<Link, string>, prefix: string, existing: set<Path>, fetch: FetchOracle): seq<Link>
    requires AllBatchesMapped(bs, maps)
  {
    if bs == [] then []
    else FailedLinks(bs[0].links, maps, prefix, existing, fetch) + BatchFailures(bs[1..], maps, prefix, existing, fetch)
  }

  /** What all batches send to the coordinator, in batch order. */
  function BatchReports(bs: seq<Batch>, maps: map<Link, string>, prefix: string, existing: set<Path>, fetch: FetchOracle,
                        headerSize: nat): seq<Transmission>
    requires AllBatchesMapped(bs, maps)
  {
    if bs == [] then []
    else
      var report := [Frame(EncodeHeader(PostFilenames, headerSize)), Payload(ReportedPaths(bs[0].links, maps, prefix, existing, fetch))];
      report + BatchReports(bs[1..], maps, prefix, existing, fetch, headerSize)
  }

  lemma {:induction false} MappedWithin(a: seq<Link>, b: seq<Link>, maps: map<Link, string>)
    requires multiset(a) <= multiset(b) && AllMapped(b, maps)
    ensures AllMapped(a, maps)
  {
    forall l | l in a ensures l in maps {
      assert l in multiset(a);
    }
  }

  /** Merging the batches' failures is the same as filtering everything dispatched. */
  lemma {:induction false} BatchFailuresDispatched(bs: seq<Batch>, maps: map<Link, string>, prefix: string, existing: set<Path>, fetch: FetchOracle)
    requires AllBatchesMapped(bs, maps)
    ensures AllMapped(Dispatched(bs), maps)
    ensures BatchFailures(bs, maps, prefix, existing, fetch) == FailedLinks(Dispatched(bs), maps, prefix, existing, fetch)
  {
    if bs != [] {
      BatchFailuresDispatched(bs[1..], maps, prefix, existing, fetch);
      FailedLinksAppend(bs[0].links, Dispatched(bs[1..]), maps, prefix, existing, fetch);
    }
  }

  /** A round never dispatches a link more often than the active list holds it. */
  lemma DispatchedWithin(s: seq<Link>, q: nat, cpus: seq<Cpu>)
    requires |cpus| > 0
    ensures multiset(Dispatched(Batches(s, q, cpus, 0))) <= multiset(s)
  {
    if q == 0 {
      ZeroQuotaBatches(s, cpus, 0);
    } else {
      BatchesCover(s, q, cpus, 0);
    }
  }

  /**
   * The batches of a round's active list all have destination names and no
   * repeated link, and what they fail is made of links of the job.
   */
  lemma {:induction false} RoundBatchesReady(job: Job, env: Env, p: Progress)
    requires WellFormed(job) && Shuffles(env) && Consistent(job, p)
    ensures var active := ActiveLinks(job, env, p);
      var bs := Batches(active, p.threadNum, job.cpus, 0);
      && multiset(active) <= multiset(job.links)
      && AllMapped(active, job.maps)
      && AllBatchesMapped(bs, job.maps)
      && (forall j :: 0 <= j < |bs| ==> Distinct(bs[j].links))
      && multiset(BatchFailures(bs, job.maps, job.prefix, env.existing, env.fetch(p.doneRetries))) <= multiset(job.links)
  {
    var active := ActiveLinks(job, env, p);
    var bs := Batches(active, p.threadNum, job.cpus, 0);
    var fetch := env.fetch(p.doneRetries);
    assert multiset(active) <= multiset(job.links);
    MappedWithin(active, job.links, job.maps);
    BatchesWithin(active, p.threadNum, job.cpus, 0);
    forall j | 0 <= j < |bs| ensures AllMapped(bs[j].links, job.maps) && Distinct(bs[j].links) {
      assert multiset(bs[j].links) <= multiset(active);
      MappedWithin(bs[j].links, active, job.maps);
      DistinctWithin(bs[j].links, job.links);
    }
    BatchFailuresDispatched(bs, job.maps, job.prefix, env.existing, fetch);
    SplitIsPartition(Dispatched(bs), job.maps, job.prefix, env.existing, fetch);
    DispatchedWithin(active, p.threadNum, job.cpus);
  }

  datatype RoundResult = RoundResult(progress: Progress, sent: seq<Transmission>)

  /**
   * The end of a round: the merged failures become the error links, the
   * downloaded count is what they leave of the total and, when any failed,
   * the quota is recomputed over them and a retry is counted.
   */
  function Settle(totalLinks: nat, processNum: nat, p: Progress, failures: seq<Link>): (next: Progress)
    requires processNum >= 1
    ensures next.errorLinks == failures
    ensures next.sent + |failures| == totalLinks
    ensures failures != [] ==> next.doneRetries == p.doneRetries + 1 && next.threadNum == Quota(|failures|, processNum)
    ensures failures == [] ==> next.doneRetries == p.doneRetries && next.threadNum == p.threadNum
  {
    var sent := totalLinks - |failures|;
    if failures != [] then Progress(sent, Quota(totalLinks - sent, processNum), p.doneRetries + 1, failures)
    else Progress(sent, p.threadNum, p.doneRetries, failures)
  }

  /** The batches a round dispatches. */
  function RoundBatches(job: Job, env: Env, p: Progress): seq<Batch>
    requires |job.cpus| > 0 && Shuffles(env)
  {
    Batches(ActiveLinks(job, env, p), p.threadNum, job.cpus, 0)
  }

  /**
   * One iteration of the retry loop: dispatch the active list in batches,
   * merge the failures into the error links, recount the downloaded links and,
   * when some failed, recompute the quota and count a retry.
   */
  function Round(job: Job, env: Env, p: Progress): (r: RoundResult)
    requires WellFormed(job) && Shuffles(env) && Consistent(job, p)
    ensures Consistent(job, r.progress)
    ensures r.progress.sent + |r.progress.errorLinks| == job.totalLinks
    ensures r.progress.errorLinks != [] ==>
      r.progress.doneRetries == p.doneRetries + 1 && r.progress.threadNum == Quota(|r.progress.errorLinks|, job.processNum)
    ensures r.progress.errorLinks == [] ==> r.progress.doneRetries == p.doneRetries && r.progress.threadNum == p.threadNum
  {
    RoundBatchesReady(job, env, p);
    var bs := RoundBatches(job, env, p);
    var fetch := env.fetch(p.doneRetries);
    var failures := BatchFailures(bs, job.maps, job.prefix, env.existing, fetch);
    RoundResult(Settle(job.totalLinks, job.processNum, p, failures),
                BatchReports(bs, job.maps, job.prefix, env.existing, fetch, job.headerSize))
  }

  datatype RunResult = RunResult(progress: Progress, sent: seq<Transmission>, rounds: nat)

  /** The whole retry loop from a state at its head: rounds until one ends without failures or the retries run out. */
  function Run(job: Job, env: Env, p: Progress): RunResult
    requires WellFormed(job) && Shuffles(env) && Consistent(job, p)
    requires p.doneRetries <= job.maxRetries
    decreases job.maxRetries - p.doneRetries
  {
    if p.doneRetries == job.maxRetries then RunResult(p, [], 0)
    else
      var round := Round(job, env, p);
      if round.progress.errorLinks == [] then RunResult(round.progress, round.sent, 1)
      else
        var rest := Run(job, env, round.progress);
        RunResult(rest.progress, round.sent + rest.sent, rest.rounds + 1)
  }

  /** One step of the retry loop: a round, then either the end or the rest of the loop. */
  lemma RunStep(job: Job, env: Env, p: Progress)
    requires WellFormed(job) && Shuffles(env) && Consistent(job, p)
    requires p.doneRetries <= job.maxRetries
    ensures var r := Run(job, env, p);
      p.doneRetries < job.maxRetries ==>
        var round := Round(job, env, p);
        && (round.progress.errorLinks == [] ==> r.progress == round.progress && r.sent == round.sent)
        && (round.progress.errorLinks != [] ==>
              && round.progress.doneRetries <= job.maxRetries
              && r.progress == Run(job, env, round.progress).progress
              && r.sent == round.sent + Run(job, env, round.progress).sent)
  {
  }

  /** After any round has run, the downloaded count and the outstanding errors add up to the total. */
  lemma {:induction false} RunConserves(job: Job, env: Env, p: Progress)
    requires WellFormed(job) && Shuffles(env) && Consistent(job, p)
    requires p.doneRetries < job.maxRetries
    ensures var r := Run(job, env, p).progress;
      r.sent + |r.errorLinks| == job.totalLinks && Consistent(job, r)
    decreases job.maxRetries - p.doneRetries
  {
    var round := Round(job, env, p);
    if round.progress.errorLinks != [] && round.progress.doneRetries < job.maxRetries {
      RunConserves(job, env, round.progress);
    }
  }

  /**
   * The loop runs at most `maxRetries - doneRetries` rounds and stops either
   * with no error links or with the retries used up; when no retry is left it
   * runs no round and changes nothing.
   */
  lemma {:induction false} RunBounded(job: Job, env: Env, p: Progress)
    requires WellFormed(job) && Shuffles(env) && Consistent(job, p)
    requires p.doneRetries <= job.maxRetries
    ensures var r := Run(job, env, p);
      && r.rounds <= job.maxRetries - p.doneRetries
      && p.doneRetries <= r.progress.doneRetries <= job.maxRetries
      && (r.progress.errorLinks == [] || r.progress.doneRetries == job.maxRetries)
      && (p.doneRetries < job.maxRetries ==> r.rounds >= 1)
      && (p.doneRetries == job.maxRetries ==> r.rounds == 0 && r.progress == p && r.sent == [])
    decreases job.maxRetries - p.doneRetries
  {
    if p.doneRetries < job.maxRetries {
      var round := Round(job, env, p);
      if round.progress.errorLinks != [] {
        RunBounded(job, env, round.progress);
      }
    }
  }

  /** With a positive quota the round's error links are exactly the active links that failed, in order. */
  lemma RoundFailuresExact(job: Job, env: Env, p: Progress)
    requires WellFormed(job) && Shuffles(env) && Consistent(job, p)
    requires p.threadNum >= 1
    ensures AllMapped(ActiveLinks(job, env, p), job.maps)
    ensures Round(job, env, p).progress.errorLinks
      == FailedLinks(ActiveLinks(job, env, p), job.maps, job.prefix, env.existing, env.fetch(p.doneRetries))
  {
    RoundBatchesReady(job, env, p);
    var active := ActiveLinks(job, env, p);
    var bs := Batches(active, p.threadNum, job.cpus, 0);
    BatchFailuresDispatched(bs, job.maps, job.prefix, env.existing, env.fetch(p.doneRetries));
    BatchesCover(active, p.threadNum, job.cpus, 0);
  }

  lemma {:induction false} EmptyBatchesFailNothing(bs: seq<Batch>, maps: map<Link, string>, prefix: string, existing: set<Path>, fetch: FetchOracle)
    requires forall j :: 0 <= j < |bs| ==> bs[j].links == []
    ensures AllBatchesMapped(bs, maps)
    ensures BatchFailures(bs, maps, prefix, existing, fetch) == []
  {
    if bs != [] {
      EmptyBatchesFailNothing(bs[1..], maps, prefix, existing, fetch);
    }
  }

  /**
   * With a quota of 0 (fewer outstanding links than processes) a round
   * dispatches nothing, yet it ends with no error links and records every
   * link as downloaded, and the loop stops.
   */
  lemma ZeroQuotaRecordsAll(job: Job, env: Env, p: Progress)
    requires WellFormed(job) && Shuffles(env) && Consistent(job, p)
    requires p.threadNum == 0
    ensures Dispatched(Batches(ActiveLinks(job, env, p), 0, job.cpus, 0)) == []
    ensures var r := Round(job, env, p).progress;
      r.errorLinks == [] && r.sent == job.totalLinks && r.doneRetries == p.doneRetries
  {
    var active := ActiveLinks(job, env, p);
    ZeroQuotaBatches(active, job.cpus, 0);
    EmptyBatchesFailNothing(Batches(active, 0, job.cpus, 0), job.maps, job.prefix, env.existing, env.fetch(p.doneRetries));
  }

  /**
   * A round in which no active link fails ends the loop after that one round,
   * with every link counted and the retry counter unchanged.
   */
  lemma FailureFreeRoundEnds(job: Job, env: Env, p: Progress)
    requires WellFormed(job) && Shuffles(env) && Consistent(job, p)
    requires p.doneRetries < job.maxRetries
    requires AllMapped(ActiveLinks(job, env, p), job.maps)
    requires forall l :: l in ActiveLinks(job, env, p) ==>
      !Fails(l, job.maps, job.prefix, env.existing, env.fetch(p.doneRetries))
    ensures var r := Run(job, env, p);
      r.rounds == 1 && r.progress.errorLinks == [] && r.progress.sent == job.totalLinks
      && r.progress.doneRetries == p.doneRetries
  {
    if p.threadNum == 0 {
      ZeroQuotaRecordsAll(job, env, p);
    } else {
      var active := ActiveLinks(job, env, p);
      var fetch := env.fetch(p.doneRetries);
      RoundFailuresExact(job, env, p);
      if FailedLinks(active, job.maps, job.prefix, env.existing, fetch) != [] {
        var l := FailedLinks(active, job.maps, job.prefix, env.existing, fetch)[0];
        FailedLinksMember(active, job.maps, job.prefix, env.existing, fetch, l);
        assert false;
      }
    }
  }

  /**
   * A round that leaves fewer error links than there are processes sets the
   * quota to 0, so when a retry remains the next round dispatches nothing and
   * the run ends with every link counted as downloaded and no error links.
   */
  lemma SmallErrorSetCountedDownloaded(job: Job, env: Env, p: Progress)
    requires WellFormed(job) && Shuffles(env) && Consistent(job, p)
    requires p.doneRetries < job.maxRetries
    requires var next := Round(job, env, p).progress;
      0 < |next.errorLinks| < job.processNum && next.doneRetries < job.maxRetries
    ensures var r := Run(job, env, p);
      r.rounds == 2 && r.progress.errorLinks == [] && r.progress.sent == job.totalLinks
  {
    var round := Round(job, env, p);
    var next := round.progress;
    QuotaOfFewer(|next.errorLinks|, job.processNum);
    ZeroQuotaRecordsAll(job, env, next);
    var rest := Run(job, env, next);
    assert rest.rounds == 1 && rest.progress == Round(job, env, next).progress;
    assert Run(job, env, p) == RunResult(rest.progress, round.sent + rest.sent, rest.rounds + 1);
  }

  /**
   * The download manager: the job's constants and the counters the retry loop
   * updates in place.
   */
  class DownloadProcess {
    const links: seq<Link>
    const totalLinks: nat
    const processNum: nat
    const maxRetries: int
    const http2: bool
    const convert: bool
    const debug: bool
    var sent: int
    var threadNum: nat
    var doneRetries: nat
    var errorLinks: seq<Link>

    /** `processNum` is the size of the CPU affinity set, which is never empty. */
    constructor (links: seq<Link>, totalLinks: nat, processNum: nat, http2: bool, maxRetries: int,
                 convert: bool, debug: bool)
      requires processNum >= 1
      ensures this.links == links && this.totalLinks == totalLinks && this.processNum == processNum
      ensures this.maxRetries == maxRetries && this.http2 == http2 && this.convert == convert && this.debug == debug
      ensures State() == Initial(totalLinks, processNum)
      ensures sent == 0 && doneRetries == 0 && errorLinks == [] && threadNum == Quota(totalLinks, processNum)
    {
      this.links := links;
      this.totalLinks := totalLinks;
      this.maxRetries := maxRetries;
      this.http2 := http2;
      this.convert := convert;
      this.sent := 0;
      this.processNum := processNum;
      this.threadNum := Quota(totalLinks - 0, processNum);
      this.debug := debug;
      this.doneRetries := 0;
      this.errorLinks := [];
    }

    ghost function State(): Progress
      reads this
    {
      Progress(sent, threadNum, doneRetries, errorLinks)
    }

    function JobOf(maps: map<Link, string>, prefix: string, cpus: seq<Cpu>, headerSize: nat): Job {
      Job(links, totalLinks, processNum, maxRetries, maps, prefix, cpus, headerSize)
    }

    method SetThreadNum(val: nat)
      modifies this`threadNum
      ensures threadNum == val
    {
      threadNum := val;
    }

    method SetTotalDownloadedLinksCount(val: int)
      modifies this`sent
      ensures sent == val
    {
      sent := val;
    }
  }

  /**
   * Submitting every batch of a round and waiting for all of them: each batch
   * runs `start_threads`, its failed links are queued by the done-callback and
   * its frames go to the coordinator (download_process.py lines 98-102, 129-139).
   */
  method RunBatches(batches: seq<Batch>, maps: map<Link, string>, prefix: string, existing: set<Path>,
                    fetch: FetchOracle, headerSize: nat)
    returns (doneQueue: seq<Link>, transmissions: seq<Transmission>)
    requires AllBatchesMapped(batches, maps)
    requires forall j :: 0 <= j < |batches| ==> Distinct(batches[j].links)
    ensures doneQueue == BatchFailures(batches, maps, prefix, existing, fetch)
    ensures transmissions == BatchReports(batches, maps, prefix, existing, fetch, headerSize)
  {
    doneQueue := [];
    transmissions := [];
    for i := 0 to |batches|
      invariant AllBatchesMapped(batches[..i], maps)
      invariant doneQueue == BatchFailures(batches[..i], maps, prefix, existing, fetch)
      invariant transmissions == BatchReports(batches[..i], maps, prefix, existing, fetch, headerSize)
    {
      var failed, sent := StartThreads(batches[i].links, maps, prefix, existing, fetch, headerSize);
      BatchFailuresSnoc(batches[..i], batches[i], maps, prefix, existing, fetch);
      BatchReportsSnoc(batches[..i], batches[i], maps, prefix, existing, fetch, headerSize);
      assert batches[..i + 1] == batches[..i] + [batches[i]];
      doneQueue := doneQueue + failed;
      transmissions := transmissions + sent;
    }
    assert batches[..|batches|] == batches;
  }

  /**
   * The first half of a round: take the error links (clearing them) or all
   * links, shuffle them, cut them into batches and run every batch
   * (download_process.py lines 111-139).
   */
  method DispatchRound(manager: DownloadProcess, fileMaps: map<Link, string>, directory: string,
                       cpus: seq<Cpu>, headerSize: nat, env: Env)
    returns (doneQueue: seq<Link>, transmissions: seq<Transmission>)
    requires WellFormed(manager.JobOf(fileMaps, directory, cpus, headerSize)) && Shuffles(env)
    requires Consistent(manager.JobOf(fileMaps, directory, cpus, headerSize), manager.State())
    modifies manager`errorLinks
    ensures manager.State() == old(manager.State()).(errorLinks := [])
    ensures var job := manager.JobOf(fileMaps, directory, cpus, headerSize);
      var round := Round(job, env, old(manager.State()));
      Settle(job.totalLinks, job.processNum, old(manager.State()), doneQueue) == round.progress
      && transmissions == round.sent
  {
    var job := manager.JobOf(fileMaps, directory, cpus, headerSize);
    ghost var head := manager.State();
    RoundBatchesReady(job, env, head);
    var downloadLinks: seq<Link>;
    if |manager.errorLinks| > 0 {
      downloadLinks := env.shuffle(manager.doneRetries, manager.errorLinks);
      manager.errorLinks := [];
    } else {
      downloadLinks := env.shuffle(manager.doneRetries, manager.links);
    }
    assert downloadLinks == ActiveLinks(job, env, head);
    var processFutures := Partition(downloadLinks, manager.threadNum, cpus);
    assert processFutures == RoundBatches(job, env, head);
    doneQueue, transmissions := RunBatches(processFutures, fileMaps, directory, env.existing,
                                           env.fetch(manager.doneRetries), headerSize);
  }

  /**
   * The second half of a round: append the merged failures to the (cleared)
   * error links, recount the downloaded links and, when any failed, recompute
   * the quota and count a retry (download_process.py lines 141-158).
   */
  method SettleRound(manager: DownloadProcess, doneQueue: seq<Link>)
    requires manager.errorLinks == [] && manager.processNum >= 1
    modifies manager`errorLinks, manager`sent, manager`threadNum, manager`doneRetries
    ensures manager.State() == Settle(manager.totalLinks, manager.processNum, old(manager.State()), doneQueue)
  {
    var queue := doneQueue;
    while queue != []
      invariant manager.errorLinks + queue == doneQueue
      invariant unchanged(manager`sent, manager`threadNum, manager`doneRetries)
    {
      var link := queue[0];
      queue := queue[1..];
      manager.errorLinks := manager.errorLinks + [link];
    }
    assert manager.errorLinks == doneQueue;
    manager.SetTotalDownloadedLinksCount(manager.totalLinks - |manager.errorLinks|);
    if |manager.errorLinks| > 0 {
      manager.SetThreadNum(Quota(manager.totalLinks - manager.sent, manager.processNum));
      manager.doneRetries := manager.doneRetries + 1;
    }
  }

  /** One whole pass of the retry loop's body, as `Round` specifies it (download_process.py lines 111-158). */
  method RetryRound(manager: DownloadProcess, fileMaps: map<Link, string>, directory: string,
                    cpus: seq<Cpu>, headerSize: nat, env: Env)
    returns (transmissions: seq<Transmission>)
    requires WellFormed(manager.JobOf(fileMaps, directory, cpus, headerSize)) && Shuffles(env)
    requires Consistent(manager.JobOf(fileMaps, directory, cpus, headerSize), manager.State())
    modifies manager
    ensures var round := Round(manager.JobOf(fileMaps, directory, cpus, headerSize), env, old(manager.State()));
      manager.State() == round.progress && transmissions == round.sent
  {
    var doneQueue;
    doneQueue, transmissions := DispatchRound(manager, fileMaps, directory, cpus, headerSize, env);
    SettleRound(manager, doneQueue);
  }

  /**
   * The retry loop: rounds while retries remain, leaving the loop after a
   * round with no error links (download_process.py lines 104-160).
   */
  method ProcessPoolExecutorHandler(manager: DownloadProcess, fileMaps: map<Link, string>, directory: string,
                                    cpus: seq<Cpu>, headerSize: nat, env: Env)
    returns (transmissions: seq<Transmission>)
    requires WellFormed(manager.JobOf(fileMaps, directory, cpus, headerSize)) && Shuffles(env)
    requires Consistent(manager.JobOf(fileMaps, directory, cpus, headerSize), manager.State())
    requires manager.doneRetries <= manager.maxRetries
    modifies manager
    ensures var r := Run(manager.JobOf(fileMaps, directory, cpus, headerSize), env, old(manager.State()));
      manager.State() == r.progress && transmissions == r.sent
  {
    var job := manager.JobOf(fileMaps, directory, cpus, headerSize);
    ghost var whole := Run(job, env, manager.State());
    transmissions := [];
    while manager.doneRetries != manager.maxRetries
      invariant Consistent(job, manager.State())
      invariant manager.doneRetries <= manager.maxRetries
      invariant Run(job, env, manager.State()).progress == whole.progress
      invariant transmissions + Run(job, env, manager.State()).sent == whole.sent
      decreases manager.maxRetries - manager.doneRetries
    {
      RunStep(job, env, manager.State());
      var sent := RetryRound(manager, fileMaps, directory, cpus, headerSize, env);
      transmissions := transmissions + sent;
      if |manager.errorLinks| == 0 {
        break;
      }
    }
  }

  lemma {:induction false} BatchFailuresSnoc(bs: seq<Batch>, b: Batch, maps: map<Link, string>, prefix: string, existing: set<Path>,
                                             fetch: FetchOracle)
    requires AllBatchesMapped(bs, maps) && AllMapped(b.links, maps)
    ensures AllBatchesMapped(bs + [b], maps)
    ensures BatchFailures(bs + [b], maps, prefix, existing, fetch)
      == BatchFailures(bs, maps, prefix, existing, fetch) + FailedLinks(b.links, maps, prefix, existing, fetch)
  {
    if bs == [] {
      assert bs + [b] == [b];
      assert [b][1..] == [];
    } else {
      assert (bs + [b])[1..] == bs[1..] + [b];
      BatchFailuresSnoc(bs[1..], b, maps, prefix, existing, fetch);
    }
  }

  lemma {:induction false} BatchReportsSnoc(bs: seq<Batch>, b: Batch, maps: map<Link, string>, prefix: string, existing: set<Path>,
                                            fetch: FetchOracle, headerSize: nat)
    requires AllBatchesMapped(bs, maps) && AllMapped(b.links, maps)
    ensures AllBatchesMapped(bs + [b], maps)
    ensures BatchReports(bs + [b], maps, prefix, existing, fetch, headerSize)
      == BatchReports(bs, maps, prefix, existing, fetch, headerSize)
         + [Frame(EncodeHeader(PostFilenames, headerSize)), Payload(ReportedPaths(b.links, maps, prefix, existing, fetch))]
  {
    if bs == [] {
      assert bs + [b] == [b];
      assert [b][1..] == [];
    } else {
      assert (bs + [b])[1..] == bs[1..] + [b];
      BatchReportsSnoc(bs[1..], b, maps, prefix, existing, fetch, headerSize);
    }
  }

  /**
   * `download_process`: build the manager, run the retry loop, then send the
   * coordinator a STOP_QUEUE frame carrying the downloaded count.
   */
  method Download(links: seq<Link>, totalLinks: nat, http2: bool, maxRetries: int, convert: bool,
                  fileLinkMaps: map<Link, string>, pathPrefix: string, debug: bool,
                  processNum: nat, cpus: seq<Cpu>, headerSize: nat, env: Env)
    returns (transmissions: seq<Transmission>)
    requires processNum >= 1 && |cpus| > 0 && Distinct(links) && AllMapped(links, fileLinkMaps)
    requires 0 <= maxRetries && Shuffles(env)
    ensures var job := Job(links, totalLinks, processNum, maxRetries, fileLinkMaps, pathPrefix, cpus, headerSize);
      var r := Run(job, env, Initial(totalLinks, processNum));
      transmissions == r.sent + [Frame(EncodeHeader(Stop(r.progress.sent), headerSize))]
  {
    var downloadManager := new DownloadProcess(links, totalLinks, processNum, http2, maxRetries, convert, debug);
    var reports := ProcessPoolExecutorHandler(downloadManager, fileLinkMaps, pathPrefix, cpus, headerSize, env);
    transmissions := reports + [Frame(EncodeHeader(Stop(downloadManager.sent), headerSize))];
  }
}
