/** Value types shared by the whole downloader model. */
module Types {

  /** A URL to fetch. */
  type Link = string

  /** A destination file path. */
  type Path = string

  /** A CPU identifier, as returned by the affinity query. */
  type Cpu = int

  datatype Option<+T> = None | Some(value: T)

  /** No element occurs twice: every link of a job is unique. */
  ghost predicate Distinct(s: seq<Link>) {
    forall x :: multiset(s)[x] <= 1
  }

  /** A sub-multiset of a list without repetitions has none either. */
  lemma DistinctWithin(a: seq<Link>, b: seq<Link>)
    requires multiset(a) <= multiset(b)
    requires Distinct(b)
    ensures Distinct(a)
  {
    forall x ensures multiset(a)[x] <= 1 {
      assert multiset(a)[x] <= multiset(b)[x];
    }
  }
}
