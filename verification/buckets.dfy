/**
 * Run buckets: every runnable thread is counted in the total `Run` bucket
 * and in the bucket of its class (fixed-priority, or timeshare foreground,
 * default, utility, background), with a weight of one or, for a thread that
 * keeps an SMT core to itself, its saved run weight.
 */
module RunBuckets {
  import opened SchedTypes

  /** The bucket `sched_update_thread_bucket` files a thread under. */
  function BucketFor(b: Bands, mode: Mode, basePri: int): (k: Bucket)
    requires b.Valid() && ValidMode(mode)
    ensures k != Run
    ensures k == FixPri <==> mode != Timeshare
    ensures k == ShareFG <==> mode == Timeshare && basePri > b.basePriDefault
    ensures k == ShareDF <==> mode == Timeshare && b.basePriUtility < basePri <= b.basePriDefault
    ensures k == ShareUT <==> mode == Timeshare && b.maxPriThrottle < basePri <= b.basePriUtility
    ensures k == ShareBG <==> mode == Timeshare && basePri <= b.maxPriThrottle
  {
    match mode
    case Fixed => FixPri
    case Realtime => FixPri
    case Timeshare =>
      if basePri > b.basePriDefault then ShareFG
      else if basePri > b.basePriUtility then ShareDF
      else if basePri > b.maxPriThrottle then ShareUT
      else ShareBG
  }

  /** A higher base priority never files a timeshare thread in a lower class. */
  lemma BucketForMonotone(b: Bands, p: int, q: int)
    requires b.Valid()
    requires p <= q
    ensures Index(BucketFor(b, Timeshare, q)) <= Index(BucketFor(b, Timeshare, p))
  {
  }

  /** The total bucket holds the sum of the per-class buckets. */
  predicate Balanced(c: seq<int>)
    requires |c| == NUM_BUCKETS
  {
    c[5] == c[0] + c[1] + c[2] + c[3] + c[4]
  }

  /** The counters after adding `w` to one per-class bucket. */
  function Added(c: seq<int>, k: Bucket, w: int): (r: seq<int>)
    requires |c| == NUM_BUCKETS && k != Run
    ensures |r| == NUM_BUCKETS
    ensures r[Index(k)] == c[Index(k)] + w
    ensures forall j :: 0 <= j < NUM_BUCKETS && j != Index(k) ==> r[j] == c[j]
  {
    c[Index(k) := c[Index(k)] + w]
  }

  /** The counters after a thread of class `k` and weight `w` becomes runnable (`w < 0`: stops being runnable). */
  function RunAdded(c: seq<int>, k: Bucket, w: int): (r: seq<int>)
    requires |c| == NUM_BUCKETS && k != Run
    ensures |r| == NUM_BUCKETS
    ensures r[Index(Run)] == c[Index(Run)] + w
    ensures r[Index(k)] == c[Index(k)] + w
    ensures forall j :: 0 <= j < NUM_BUCKETS && j != Index(k) && j != Index(Run) ==> r[j] == c[j]
  {
    Added(c, k, w)[5 := c[5] + w]
  }

  /** The counters after a runnable thread of weight `w` moves from class `from` to class `to`. */
  function Moved(c: seq<int>, from: Bucket, to: Bucket, w: int): (r: seq<int>)
    requires |c| == NUM_BUCKETS && from != Run && to != Run
    ensures |r| == NUM_BUCKETS
    ensures r[Index(Run)] == c[Index(Run)]
    ensures forall j :: 0 <= j < NUM_BUCKETS && j != Index(from) && j != Index(to) ==> r[j] == c[j]
  {
    Added(Added(c, from, -w), to, w)
  }

  /** Counting a thread in and out keeps the total equal to the sum, and the two undo each other. */
  lemma RunAddedBalanced(c: seq<int>, k: Bucket, w: int)
    requires |c| == NUM_BUCKETS && k != Run
    ensures Balanced(RunAdded(c, k, w)) <==> Balanced(c)
    ensures RunAdded(c, k, w)[5] == c[5] + w
    ensures RunAdded(c, k, w)[Index(k)] == c[Index(k)] + w
    ensures forall j :: 0 <= j < 5 && j != Index(k) ==> RunAdded(c, k, w)[j] == c[j]
    ensures RunAdded(RunAdded(c, k, w), k, -w) == c
  {
    var r := RunAdded(c, k, w);
    assert forall j :: 0 <= j < 5 && j != Index(k) ==> r[j] == c[j];
    assert r[Index(k)] == c[Index(k)] + w;
    var r' := RunAdded(r, k, -w);
    assert forall j :: 0 <= j < NUM_BUCKETS ==> r'[j] == c[j];
  }

  /** Moving a thread between classes keeps the counters balanced and the total unchanged; moving it back undoes it. */
  lemma MovedBalanced(c: seq<int>, from: Bucket, to: Bucket, w: int)
    requires |c| == NUM_BUCKETS && from != Run && to != Run
    ensures Balanced(Moved(c, from, to, w)) <==> Balanced(c)
    ensures Moved(c, from, to, w)[5] == c[5]
    ensures from != to ==> Moved(c, from, to, w)[Index(from)] == c[Index(from)] - w
    ensures Moved(c, from, to, w)[Index(to)] == c[Index(to)] + (if from == to then 0 else w)
    ensures forall j :: 0 <= j < 5 && j != Index(from) && j != Index(to) ==> Moved(c, from, to, w)[j] == c[j]
    ensures Moved(Moved(c, from, to, w), to, from, w) == c
  {
    var a := Added(c, from, -w);
    var r := Added(a, to, w);
    assert forall j :: 0 <= j < NUM_BUCKETS && j != Index(from) && j != Index(to) ==> r[j] == c[j];
    var back := Moved(r, to, from, w);
    assert forall j :: 0 <= j < NUM_BUCKETS ==> back[j] == c[j];
  }

  /**
   * `sched_run_buckets`: the global counter array, one slot per bucket.
   * The counters are updated in place; the per-class helpers refuse the
   * total bucket, as the kernel's assertions do.
   */
  class RunCounters {
    const counts: array<int>

    ghost predicate Valid()
      reads this
    {
      counts.Length == NUM_BUCKETS
    }

    constructor ()
      ensures Valid() && fresh(counts)
      ensures counts[..] == [0, 0, 0, 0, 0, 0]
    {
      counts := new int[NUM_BUCKETS](_ => 0);
    }

    /** `sched_incr_bucket` */
    method IncrBucket(k: Bucket)
      requires Valid() && k != Run
      modifies counts
      ensures counts[..] == Added(old(counts[..]), k, 1)
    {
      counts[Index(k)] := counts[Index(k)] + 1;
    }

    /** `sched_decr_bucket` */
    method DecrBucket(k: Bucket)
      requires Valid() && k != Run
      requires counts[Index(k)] > 0
      modifies counts
      ensures counts[..] == Added(old(counts[..]), k, -1)
    {
      counts[Index(k)] := counts[Index(k)] - 1;
    }

    /** `sched_add_bucket` */
    method AddBucket(k: Bucket, w: nat)
      requires Valid() && k != Run
      modifies counts
      ensures counts[..] == Added(old(counts[..]), k, w)
    {
      counts[Index(k)] := counts[Index(k)] + w;
    }

    /** `sched_sub_bucket`: the kernel only asserts the bucket is non-empty before taking `w` away. */
    method SubBucket(k: Bucket, w: nat)
      requires Valid() && k != Run
      requires counts[Index(k)] > 0
      modifies counts
      ensures counts[..] == Added(old(counts[..]), k, -(w as int))
    {
      counts[Index(k)] := counts[Index(k)] - w;
    }
  }
}
