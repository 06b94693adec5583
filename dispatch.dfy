/**
 * The process dispatcher's partition of one round's active link list into
 * consecutive batches of `threadNum` links, batch i pinned to CPU
 * `cpus[i % |cpus|]` (download_process.py lines 119-137).
 */
module Dispatch {
  import opened Types

  /** One batch of a round: the links one worker process fetches, and the CPU it is pinned to. */
  datatype Batch = Batch(links: seq<Link>, cpu: Cpu)

  function CpuFor(cpus: seq<Cpu>, i: nat): Cpu
    requires |cpus| > 0
  {
    cpus[i % |cpus|]
  }

  /**
   * The batches the partition loop submits for the list `s`, numbering them
   * from `i`.  With a quota of 0 every iteration of the loop submits an empty
   * slice without advancing, so the loop runs out its `|s|` iterations.
   */
  function Batches(s: seq<Link>, q: nat, cpus: seq<Cpu>, i: nat): seq<Batch>
    requires |cpus| > 0
    decreases |s|
  {
    if s == [] then []
    else if q == 0 then [Batch([], CpuFor(cpus, i))] + Batches(s[1..], q, cpus, i + 1)
    else if |s| <= q then [Batch(s, CpuFor(cpus, i))]
    else [Batch(s[..q], CpuFor(cpus, i))] + Batches(s[q..], q, cpus, i + 1)
  }

  /** The links of all batches, in batch order: everything the round dispatches. */
  function Dispatched(bs: seq<Batch>): seq<Link> {
    if bs == [] then [] else bs[0].links + Dispatched(bs[1..])
  }

  lemma {:induction false} DispatchedAppend(a: seq<Batch>, b: seq<Batch>)
    ensures Dispatched(a + b) == Dispatched(a) + Dispatched(b)
  {
    if a == [] {
      assert a + b == b;
    } else {
      assert (a + b)[1..] == a[1..] + b;
      DispatchedAppend(a[1..], b);
    }
  }

  /** With a positive quota the batches, concatenated, are exactly the active list. */
  lemma {:induction false} BatchesCover(s: seq<Link>, q: nat, cpus: seq<Cpu>, i: nat)
    requires |cpus| > 0 && q >= 1
    ensures Dispatched(Batches(s, q, cpus, i)) == s
    decreases |s|
  {
    if s != [] && |s| > q {
      BatchesCover(s[q..], q, cpus, i + 1);
      assert s == s[..q] + s[q..];
    }
  }

  /**
   * With a positive quota every batch but the last holds exactly `q` links,
   * the last holds between 1 and `q`, and there are ceil(|s| / q) batches,
   * never more than |s|.
   */
  lemma {:induction false} BatchesShape(s: seq<Link>, q: nat, cpus: seq<Cpu>, i: nat)
    requires |cpus| > 0 && q >= 1
    ensures var bs := Batches(s, q, cpus, i);
      && |bs| <= |s|
      && (s == [] <==> bs == [])
      && (s != [] ==> (|bs| - 1) * q < |s| <= |bs| * q)
      && (forall j :: 0 <= j < |bs| - 1 ==> |bs[j].links| == q)
      && (bs != [] ==> 1 <= |bs[|bs| - 1].links| <= q)
    decreases |s|
  {
    if s != [] && |s| > q {
      var rest := Batches(s[q..], q, cpus, i + 1);
      BatchesShape(s[q..], q, cpus, i + 1);
      var bs := Batches(s, q, cpus, i);
      assert bs == [Batch(s[..q], CpuFor(cpus, i))] + rest;
      assert (|bs| - 1) * q == (|rest| - 1) * q + q;
      assert |bs| * q == |rest| * q + q;
      forall j | 0 <= j < |bs| - 1 ensures |bs[j].links| == q {
        if j > 0 {
          assert bs[j] == rest[j - 1];
        }
      }
    }
  }

  /**
   * With a quota of 0 the loop submits |s| batches, all of them empty: no
   * link of the active list is dispatched.
   */
  lemma {:induction false} ZeroQuotaBatches(s: seq<Link>, cpus: seq<Cpu>, i: nat)
    requires |cpus| > 0
    ensures var bs := Batches(s, 0, cpus, i);
      && |bs| == |s|
      && (forall j :: 0 <= j < |bs| ==> bs[j].links == [])
      && Dispatched(bs) == []
    decreases |s|
  {
    if s != [] {
      ZeroQuotaBatches(s[1..], cpus, i + 1);
    }
  }

  /** Batch j (counting from `i`) is pinned to `cpus[(i + j) % |cpus|]`: round-robin pinning. */
  lemma {:induction false} BatchesCpus(s: seq<Link>, q: nat, cpus: seq<Cpu>, i: nat)
    requires |cpus| > 0
    ensures var bs := Batches(s, q, cpus, i);
      forall j :: 0 <= j < |bs| ==> bs[j].cpu == cpus[(i + j) % |cpus|]
    decreases |s|
  {
    var bs := Batches(s, q, cpus, i);
    if s != [] && (q == 0 || |s| > q) {
      var rest := if q == 0 then s[1..] else s[q..];
      BatchesCpus(rest, q, cpus, i + 1);
      forall j | 0 <= j < |bs| ensures bs[j].cpu == cpus[(i + j) % |cpus|] {
        if j > 0 {
          assert bs[j] == Batches(rest, q, cpus, i + 1)[j - 1];
        }
      }
    }
  }

  /** Every batch is a piece of the active list, so it repeats no link the list does not repeat. */
  lemma {:induction false} BatchesWithin(s: seq<Link>, q: nat, cpus: seq<Cpu>, i: nat)
    requires |cpus| > 0
    ensures forall j :: 0 <= j < |Batches(s, q, cpus, i)| ==> multiset(Batches(s, q, cpus, i)[j].links) <= multiset(s)
    decreases |s|
  {
    var bs := Batches(s, q, cpus, i);
    if s != [] && (q == 0 || |s| > q) {
      var rest := if q == 0 then s[1..] else s[q..];
      BatchesWithin(rest, q, cpus, i + 1);
      assert s == s[..|s| - |rest|] + rest;
      forall j | 0 <= j < |bs| ensures multiset(bs[j].links) <= multiset(s) {
        if j > 0 {
          assert bs[j] == Batches(rest, q, cpus, i + 1)[j - 1];
        } else if q > 0 {
          assert s == s[..q] + s[q..];
        }
      }
    }
  }

  /**
   * One iteration of the partition loop: the slice from `start` to `end` is the
   * next batch, and the rest of the list (from the next cursor) gives the others.
   */
  lemma BatchesStep(s: seq<Link>, q: nat, cpus: seq<Cpu>, k: nat, start: nat, end: nat)
    requires |cpus| > 0
    requires start < |s| && end == if start + q > |s| then |s| else start + q
    requires q == 0 ==> start == 0 && k < |s|
    ensures Batches(s[if q == 0 then k else start..], q, cpus, k)
      == [Batch(s[start..end], CpuFor(cpus, k))] + Batches(s[if q == 0 then k + 1 else end..], q, cpus, k + 1)
  {
    if q == 0 {
      assert s[k..][1..] == s[k + 1..];
    } else {
      var rest := s[start..];
      if |rest| > q {
        assert rest[..q] == s[start..end];
        assert rest[q..] == s[end..];
      } else {
        assert rest == s[start..end];
        assert s[end..] == [];
      }
    }
  }

  /** The partition loop of the round: slices of `threadNum` links, batch i on `cpus[i % |cpus|]`. */
  method Partition(downloadLinks: seq<Link>, threadNum: nat, cpus: seq<Cpu>) returns (batches: seq<Batch>)
    requires |cpus| > 0
    ensures batches == Batches(downloadLinks, threadNum, cpus, 0)
  {
    batches := [];
    var start := 0;
    ghost var cursor := 0;
    for tempNum := 0 to |downloadLinks|
      invariant start <= |downloadLinks|
      invariant downloadLinks == [] || start < |downloadLinks|
      invariant threadNum == 0 ==> start == 0 && cursor == tempNum
      invariant threadNum > 0 ==> tempNum <= start && cursor == start
      invariant Batches(downloadLinks, threadNum, cpus, 0)
        == batches + Batches(downloadLinks[cursor..], threadNum, cpus, tempNum)
    {
      var end := start + threadNum;
      if end > |downloadLinks| {
        end := |downloadLinks|;
      }
      var cpuNum := cpus[tempNum % |cpus|];
      BatchesStep(downloadLinks, threadNum, cpus, tempNum, start, end);
      batches := batches + [Batch(downloadLinks[start..end], cpuNum)];
      start := end;
      cursor := if threadNum == 0 then tempNum + 1 else end;
      if end >= |downloadLinks| {
        break;
      }
    }
  }
}
