/**
 * The thread dispatcher of one worker process: every link of its batch is
 * fetched (unless its destination file already exists), the failed links are
 * returned, and the destination paths of the others are reported to the
 * coordinator (download_process.py lines 163-206).
 *
 * The network fetch and the file-existence test are foreign calls: a fetch is
 * an oracle `fetch(link, path)` (true when the transfer succeeded) and the
 * files that already exist are a set of paths.
 */
module Threads {
  import opened Types
  import opened Framing

  /** The outcome of one call to the external fetcher: true when the transfer succeeded. */
  type FetchOracle = (Link, Path) -> bool

  /** POSIX `os.path.join` of two components. */
  function Join(prefix: string, name: string): Path {
    if name != [] && name[0] == '/' then name
    else if prefix == [] || prefix[|prefix| - 1] == '/' then prefix + name
    else prefix + "/" + name
  }

  /**
   * A joined path ends with the file name; an absolute name replaces the
   * prefix, a relative one is placed under it.
   */
  lemma JoinShape(prefix: string, name: string)
    ensures var r := Join(prefix, name);
      && |name| <= |r| && r[|r| - |name|..] == name
      && (name != [] && name[0] == '/' ==> r == name)
      && (!(name != [] && name[0] == '/') ==> |prefix| <= |r| && r[..|prefix|] == prefix)
  {
  }

  /** Where the file of `link` goes. */
  function Destination(maps: map<Link, string>, prefix: string, link: Link): Path
    requires link in maps
  {
    Join(prefix, maps[link])
  }

  /**
   * One fetch task: an existing destination file counts as success without a
   * fetch; otherwise the fetcher decides.  A failure carries the link itself.
   */
  function DownloadThread(filePath: Path, link: Link, existing: set<Path>, fetch: FetchOracle): (r: Option<Link>)
    ensures r == None || r == Some(link)
    ensures filePath in existing ==> r == None
    ensures filePath !in existing ==> (r == None <==> fetch(link, filePath))
  {
    if filePath in existing then None
    else if fetch(link, filePath) then None
    else Some(link)
  }

  /** Running `DownloadThread` again on a link whose file exists gives success whatever the fetcher would do. */
  lemma ExistingSkipsFetch(filePath: Path, link: Link, existing: set<Path>, fetch1: FetchOracle, fetch2: FetchOracle)
    requires filePath in existing
    ensures DownloadThread(filePath, link, existing, fetch1) == DownloadThread(filePath, link, existing, fetch2) == None
  {
  }

  ghost predicate AllMapped(links: seq<Link>, maps: map<Link, string>) {
    forall l :: l in links ==> l in maps
  }

  predicate Fails(link: Link, maps: map<Link, string>, prefix: string, existing: set<Path>, fetch: FetchOracle)
    requires link in maps
  {
    DownloadThread(Destination(maps, prefix, link), link, existing, fetch).Some?
  }

  /** The links of a batch whose fetch task failed, in batch order. */
  function FailedLinks(links: seq<Link>, maps: map<Link, string>, prefix: string, existing: set<Path>, fetch: FetchOracle): seq<Link>
    requires AllMapped(links, maps)
  {
    if links == [] then []
    else
      var head := if Fails(links[0], maps, prefix, existing, fetch) then [links[0]] else [];
      head + FailedLinks(links[1..], maps, prefix, existing, fetch)
  }

  /** The links of a batch whose fetch task succeeded, in batch order. */
  function SucceededLinks(links: seq<Link>, maps: map<Link, string>, prefix: string, existing: set<Path>, fetch: FetchOracle): seq<Link>
    requires AllMapped(links, maps)
  {
    if links == [] then []
    else
      var head := if Fails(links[0], maps, prefix, existing, fetch) then [] else [links[0]];
      head + SucceededLinks(links[1..], maps, prefix, existing, fetch)
  }

  /** The destination paths a batch reports: those of its succeeded links, in batch order. */
  function ReportedPaths(links: seq<Link>, maps: map<Link, string>, prefix: string, existing: set<Path>, fetch: FetchOracle): seq<Path>
    requires AllMapped(links, maps)
  {
    if links == [] then []
    else
      var head := if Fails(links[0], maps, prefix, existing, fetch) then [] else [Destination(maps, prefix, links[0])];
      head + ReportedPaths(links[1..], maps, prefix, existing, fetch)
  }

  lemma {:induction false} FailedLinksAppend(a: seq<Link>, b: seq<Link>, maps: map<Link, string>, prefix: string, existing: set<Path>, fetch: FetchOracle)
    requires AllMapped(a + b, maps)
    ensures FailedLinks(a + b, maps, prefix, existing, fetch)
      == FailedLinks(a, maps, prefix, existing, fetch) + FailedLinks(b, maps, prefix, existing, fetch)
  {
    if a == [] {
      assert a + b == b;
    } else {
      var ab := a + b;
      assert ab[0] == a[0] && ab[1..] == a[1..] + b;
      FailedLinksAppend(a[1..], b, maps, prefix, existing, fetch);
    }
  }

  lemma FailedLinksSnoc(s: seq<Link>, x: Link, maps: map<Link, string>, prefix: string, existing: set<Path>, fetch: FetchOracle)
    requires AllMapped(s, maps) && x in maps
    ensures AllMapped(s + [x], maps)
    ensures FailedLinks(s + [x], maps, prefix, existing, fetch)
      == FailedLinks(s, maps, prefix, existing, fetch) + (if Fails(x, maps, prefix, existing, fetch) then [x] else [])
  {
    assert AllMapped([x], maps);
    FailedLinksAppend(s, [x], maps, prefix, existing, fetch);
    assert [x][1..] == [];
  }

  /** A link is among the failed ones exactly when it is in the batch, its file does not exist and its fetch failed. */
  lemma {:induction false} FailedLinksMember(links: seq<Link>, maps: map<Link, string>, prefix: string, existing: set<Path>, fetch: FetchOracle, l: Link)
    requires AllMapped(links, maps)
    ensures l in FailedLinks(links, maps, prefix, existing, fetch)
      <==> l in links && Destination(maps, prefix, l) !in existing && !fetch(l, Destination(maps, prefix, l))
  {
    if links != [] {
      FailedLinksMember(links[1..], maps, prefix, existing, fetch, l);
      assert l in links <==> l == links[0] || l in links[1..];
    }
  }

  /** The batch splits into failed and succeeded links with nothing lost or repeated. */
  lemma {:induction false} SplitIsPartition(links: seq<Link>, maps: map<Link, string>, prefix: string, existing: set<Path>, fetch: FetchOracle)
    requires AllMapped(links, maps)
    ensures multiset(FailedLinks(links, maps, prefix, existing, fetch)) + multiset(SucceededLinks(links, maps, prefix, existing, fetch))
      == multiset(links)
  {
    if links != [] {
      SplitIsPartition(links[1..], maps, prefix, existing, fetch);
      assert links == [links[0]] + links[1..];
    }
  }

  /** The report holds the destination path of each succeeded link, one for one and in order. */
  lemma {:induction false} ReportedAreSucceeded(links: seq<Link>, maps: map<Link, string>, prefix: string, existing: set<Path>, fetch: FetchOracle)
    requires AllMapped(links, maps)
    ensures var ok := SucceededLinks(links, maps, prefix, existing, fetch);
      var paths := ReportedPaths(links, maps, prefix, existing, fetch);
      && |paths| == |ok|
      && (forall k :: 0 <= k < |ok| ==> ok[k] in maps && paths[k] == Destination(maps, prefix, ok[k]))
  {
    if links != [] {
      ReportedAreSucceeded(links[1..], maps, prefix, existing, fetch);
      var ok := SucceededLinks(links, maps, prefix, existing, fetch);
      var paths := ReportedPaths(links, maps, prefix, existing, fetch);
      var ok' := SucceededLinks(links[1..], maps, prefix, existing, fetch);
      var paths' := ReportedPaths(links[1..], maps, prefix, existing, fetch);
      if !Fails(links[0], maps, prefix, existing, fetch) {
        assert ok == [links[0]] + ok' && paths == [Destination(maps, prefix, links[0])] + paths';
        forall k | 0 <= k < |ok| ensures ok[k] in maps && paths[k] == Destination(maps, prefix, ok[k]) {
          if k > 0 {
            assert ok[k] == ok'[k - 1] && paths[k] == paths'[k - 1];
          }
        }
      }
    }
  }

  /** A link whose destination file already exists never fails. */
  lemma ExistingNeverFails(links: seq<Link>, maps: map<Link, string>, prefix: string, existing: set<Path>, fetch: FetchOracle, l: Link)
    requires AllMapped(links, maps)
    requires l in maps && Destination(maps, prefix, l) in existing
    ensures l !in FailedLinks(links, maps, prefix, existing, fetch)
  {
    FailedLinksMember(links, maps, prefix, existing, fetch, l);
  }

  lemma DistinctNotEarlier(s: seq<Link>, k: nat)
    requires Distinct(s) && k < |s|
    ensures s[k] !in s[..k]
  {
    assert s == s[..k] + s[k..];
    assert multiset(s) == multiset(s[..k]) + multiset(s[k..]);
    assert s[k..][0] == s[k];
    assert multiset(s)[s[k]] <= 1;
  }

  /** Python's `list(d.values())` for a dict whose keys were inserted in the order `order`. */
  function ValuesInOrder(order: seq<Link>, d: map<Link, Path>): seq<Path> {
    if order == [] then []
    else (if order[0] in d then [d[order[0]]] else []) + ValuesInOrder(order[1..], d)
  }

  lemma {:induction false} ValuesAreReported(links: seq<Link>, d: map<Link, Path>, maps: map<Link, string>, prefix: string, existing: set<Path>, fetch: FetchOracle)
    requires AllMapped(links, maps)
    requires forall l :: l in links ==> (l in d <==> !Fails(l, maps, prefix, existing, fetch))
    requires forall l :: l in links && l in d ==> d[l] == Destination(maps, prefix, l)
    ensures ValuesInOrder(links, d) == ReportedPaths(links, maps, prefix, existing, fetch)
  {
    if links != [] {
      ValuesAreReported(links[1..], d, maps, prefix, existing, fetch);
    }
  }

  /**
   * The thread pool of `start_threads`: for each link, record its destination
   * path and fetch it; the done-callback queues every failed link.
   */
  method SubmitAll(links: seq<Link>, maps: map<Link, string>, filePathPrefix: string,
                   existing: set<Path>, fetch: FetchOracle)
    returns (failedQueue: seq<Link>, sentLinks: map<Link, Path>)
    requires AllMapped(links, maps)
    ensures failedQueue == FailedLinks(links, maps, filePathPrefix, existing, fetch)
    ensures forall l :: l in sentLinks <==> l in links
    ensures forall l :: l in sentLinks ==> l in maps && sentLinks[l] == Destination(maps, filePathPrefix, l)
  {
    failedQueue := [];
    sentLinks := map[];
    for i := 0 to |links|
      invariant forall l :: l in sentLinks <==> l in links[..i]
      invariant forall l :: l in sentLinks ==> l in maps && sentLinks[l] == Destination(maps, filePathPrefix, l)
      invariant failedQueue == FailedLinks(links[..i], maps, filePathPrefix, existing, fetch)
    {
      var link := links[i];
      var tempPath := Join(filePathPrefix, maps[link]);
      sentLinks := sentLinks[link := tempPath];
      var result := DownloadThread(tempPath, link, existing, fetch);
      assert links[..i + 1] == links[..i] + [link];
      FailedLinksSnoc(links[..i], link, maps, filePathPrefix, existing, fetch);
      if result.Some? {
        failedQueue := failedQueue + [result.value];
      }
    }
    assert links[..|links|] == links;
  }

  /**
   * The loop of `start_threads` over the failure queue: delete each failed
   * link from the link-to-path dict and collect it, in queue order.  The
   * deletion has no guard, so every queued link must still be in the dict.
   */
  method DropFailed(sentLinks: map<Link, Path>, failedQueue: seq<Link>) returns (failed: seq<Link>, remaining: map<Link, Path>)
    requires Distinct(failedQueue)
    requires forall l :: l in failedQueue ==> l in sentLinks
    ensures failed == failedQueue
    ensures forall l :: l in remaining <==> l in sentLinks && l !in failedQueue
    ensures forall l :: l in remaining ==> remaining[l] == sentLinks[l]
  {
    remaining := sentLinks;
    failed := [];
    for k := 0 to |failedQueue|
      invariant failed == failedQueue[..k]
      invariant forall l :: l in remaining <==> l in sentLinks && l !in failedQueue[..k]
      invariant forall l :: l in remaining ==> remaining[l] == sentLinks[l]
    {
      var link := failedQueue[k];
      DistinctNotEarlier(failedQueue, k);
      assert link in remaining;
      remaining := remaining - {link};
      failed := failed + [link];
      assert failedQueue[..k + 1] == failedQueue[..k] + [link];
    }
    assert failedQueue[..|failedQueue|] == failedQueue;
  }

  /**
   * `start_threads`: fetch every link of the batch, drop the failed links from
   * the link-to-path dict, send its remaining paths to the coordinator after a
   * POST_FILENAME_QUEUE header, and return the failed links.
   */
  method StartThreads(links: seq<Link>, maps: map<Link, string>, filePathPrefix: string,
                      existing: set<Path>, fetch: FetchOracle, headerSize: nat)
    returns (failed: seq<Link>, sent: seq<Transmission>)
    requires Distinct(links)
    requires AllMapped(links, maps)
    ensures failed == FailedLinks(links, maps, filePathPrefix, existing, fetch)
    ensures sent == [Frame(EncodeHeader(PostFilenames, headerSize)),
                     Payload(ReportedPaths(links, maps, filePathPrefix, existing, fetch))]
  {
    var failedQueue, sentLinks := SubmitAll(links, maps, filePathPrefix, existing, fetch);
    assert Distinct(failedQueue) && forall l :: l in failedQueue ==> l in links by {
      SplitIsPartition(links, maps, filePathPrefix, existing, fetch);
      DistinctWithin(failedQueue, links);
      forall l | l in failedQueue ensures l in links {
        FailedLinksMember(links, maps, filePathPrefix, existing, fetch, l);
      }
    }

    failed, sentLinks := DropFailed(sentLinks, failedQueue);

    forall l | l in links ensures l in sentLinks <==> !Fails(l, maps, filePathPrefix, existing, fetch) {
      FailedLinksMember(links, maps, filePathPrefix, existing, fetch, l);
    }
    ValuesAreReported(links, sentLinks, maps, filePathPrefix, existing, fetch);
    var sendData := ValuesInOrder(links, sentLinks);
    var msg := EncodeHeader(PostFilenames, headerSize);
    sent := [Frame(msg), Payload(sendData)];
  }
}
