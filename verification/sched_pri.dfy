/**
 * The scheduled priority of a thread (`thread_recompute_sched_pri`) and the
 * rules that produce a new base priority (`sched_set_thread_base_priority`,
 * `sched_set_kernel_thread_priority`).
 */
module SchedPri {
  import opened SchedTypes

  /**
   * The priority after poll-depression and kernel (mutex) promotion, before
   * the promote-reason floors: poll-depress drops to DEPRESSPRI; a kernel
   * promotion raises to `kern_promotion_schedpri` but, for a thread that is
   * not realtime, never beyond MAXPRI_PROMOTE.
   */
  function PromotedBase(b: Bands, mode: Mode, pollDepress: bool, start: int, kernPromotion: int): (p: int)
    ensures kernPromotion <= 0 ==> p == (if pollDepress then b.depressPri else start)
    ensures kernPromotion > 0 && mode == Realtime ==> p >= kernPromotion
    ensures kernPromotion > 0 && mode != Realtime ==> p >= Min(kernPromotion, b.maxPriPromote) && p <= b.maxPriPromote
    ensures kernPromotion > 0 ==> p == kernPromotion || p == b.maxPriPromote || p == (if pollDepress then b.depressPri else start)
    ensures var priority := if pollDepress then b.depressPri else start;
            kernPromotion > 0 ==> p >= (if mode == Realtime then priority else Min(priority, b.maxPriPromote))
    ensures var priority := if pollDepress then b.depressPri else start;
            kernPromotion > 0 ==> p <= Max(priority, kernPromotion)
  {
    var priority := if pollDepress then b.depressPri else start;
    if kernPromotion > 0 then
      var raised := Max(priority, kernPromotion);
      if mode != Realtime then Min(raised, b.maxPriPromote) else raised
    else
      priority
  }

  /**
   * The priority `thread_recompute_sched_pri` hands to `set_sched_pri`.
   * `start` is the base priority, or the timeshare priority for a
   * timeshare thread. An explicit depression beats everything; otherwise
   * each active promote reason lifts the result to at least its floor.
   */
  function ScheduledPriority(b: Bands, mode: Mode, flags: set<SFlag>, start: int, kernPromotion: int): (p: int)
    requires b.Valid()
    ensures Depress in flags ==> p == b.depressPri
    ensures Depress !in flags ==>
              forall r :: r in flags && r in PROMOTE_REASON_MASK ==> p >= b.PromotionFloor(r)
    ensures Depress !in flags && kernPromotion > 0 ==>
              p >= (if mode == Realtime then kernPromotion else Min(kernPromotion, b.maxPriPromote))
    ensures Depress !in flags && PollDepress !in flags && kernPromotion <= 0 && flags * PROMOTE_REASON_MASK == {} ==>
              p == start
  {
    if Depress in flags then
      b.depressPri
    else
      assert flags * PROMOTE_REASON_MASK == {} ==>
        RwPromoted !in flags && WaitqPromoted !in flags && ExecPromoted !in flags && FloorPromoted !in flags by {
        if flags * PROMOTE_REASON_MASK == {} {
          assert RwPromoted !in flags * PROMOTE_REASON_MASK && WaitqPromoted !in flags * PROMOTE_REASON_MASK;
          assert ExecPromoted !in flags * PROMOTE_REASON_MASK && FloorPromoted !in flags * PROMOTE_REASON_MASK;
        }
      }
      var p0 := PromotedBase(b, mode, PollDepress in flags, start, kernPromotion);
      var p1 := if RwPromoted in flags then Max(p0, b.minPriRwLock) else p0;
      var p2 := if WaitqPromoted in flags then Max(p1, b.minPriWaitq) else p1;
      var p3 := if ExecPromoted in flags then Max(p2, b.minPriExec) else p2;
      var p4 := if FloorPromoted in flags then Max(p3, b.minPriFloor) else p3;
      p4
  }

  /**
   * Without an explicit depression the scheduled priority is the least value
   * that respects the promoted base and every active reason floor: it is
   * one of them, and at least all of them.
   */
  lemma ScheduledPriorityAttained(b: Bands, mode: Mode, flags: set<SFlag>, start: int, kernPromotion: int)
    requires b.Valid()
    requires Depress !in flags
    ensures var p := ScheduledPriority(b, mode, flags, start, kernPromotion);
            var base := PromotedBase(b, mode, PollDepress in flags, start, kernPromotion);
            && p >= base
            && (p == base || exists r :: r in flags && r in PROMOTE_REASON_MASK && p == b.PromotionFloor(r))
  {
    var p := ScheduledPriority(b, mode, flags, start, kernPromotion);
    var base := PromotedBase(b, mode, PollDepress in flags, start, kernPromotion);
    var p1 := if RwPromoted in flags then Max(base, b.minPriRwLock) else base;
    var p2 := if WaitqPromoted in flags then Max(p1, b.minPriWaitq) else p1;
    var p3 := if ExecPromoted in flags then Max(p2, b.minPriExec) else p2;
    assert p == (if FloorPromoted in flags then Max(p3, b.minPriFloor) else p3);
    if p != base {
      if FloorPromoted in flags && p == b.minPriFloor {
        assert b.PromotionFloor(FloorPromoted) == p;
      } else if ExecPromoted in flags && p == b.minPriExec {
        assert b.PromotionFloor(ExecPromoted) == p;
      } else if WaitqPromoted in flags && p == b.minPriWaitq {
        assert b.PromotionFloor(WaitqPromoted) == p;
      } else {
        assert RwPromoted in flags && p == b.minPriRwLock;
        assert b.PromotionFloor(RwPromoted) == p;
      }
    }
  }

  /** A higher starting priority never yields a lower scheduled priority. */
  lemma ScheduledPriorityMonotone(b: Bands, mode: Mode, flags: set<SFlag>, start: int, start': int, kernPromotion: int)
    requires b.Valid()
    requires start <= start'
    ensures ScheduledPriority(b, mode, flags, start, kernPromotion) <= ScheduledPriority(b, mode, flags, start', kernPromotion)
  {
    var q := PromotedBase(b, mode, PollDepress in flags, start, kernPromotion);
    var q' := PromotedBase(b, mode, PollDepress in flags, start', kernPromotion);
    assert q <= q';
  }

  /**
   * Without depression, promotion never takes a thread below its start
   * priority, except that a kernel promotion caps a thread that is not
   * realtime at MAXPRI_PROMOTE.
   */
  lemma ScheduledPriorityKeepsStart(b: Bands, mode: Mode, flags: set<SFlag>, start: int, kernPromotion: int)
    requires b.Valid()
    requires Depress !in flags && PollDepress !in flags
    ensures ScheduledPriority(b, mode, flags, start, kernPromotion)
            >= (if mode == Realtime || kernPromotion <= 0 then start else Min(start, b.maxPriPromote))
  {
  }

  /** Adding a promote reason never lowers the scheduled priority. */
  lemma PromoteReasonRaises(b: Bands, mode: Mode, flags: set<SFlag>, start: int, kernPromotion: int, r: SFlag)
    requires b.Valid()
    requires r in PROMOTE_REASON_MASK
    ensures ScheduledPriority(b, mode, flags, start, kernPromotion) <= ScheduledPriority(b, mode, flags + {r}, start, kernPromotion)
  {
    var flags' := flags + {r};
    assert (Depress in flags') == (Depress in flags) && (PollDepress in flags') == (PollDepress in flags);
  }

  /**
   * The base priority `sched_set_thread_base_priority` stores: the request,
   * except that a frozen base priority may not go down.
   */
  function EffectiveBasePriority(frozen: bool, oldBase: int, requested: int): (r: int)
    ensures r >= requested
    ensures frozen ==> r >= oldBase
    ensures r == requested || (frozen && r == oldBase)
  {
    if frozen then Max(requested, oldBase) else requested
  }

  /**
   * The base priority `sched_set_kernel_thread_priority` asks for: the
   * request, capped by the thread's `max_priority`; on a build that is not
   * macOS it is then raised to at least MAXPRI_THROTTLE.
   */
  function KernelThreadPriority(b: Bands, osx: bool, requested: int, maxPriority: int): (r: int)
    ensures osx ==> r <= maxPriority && r <= requested
    ensures !osx ==> r >= b.maxPriThrottle
    ensures !osx ==> (r <= maxPriority && r <= requested) || r == b.maxPriThrottle
    ensures requested <= maxPriority && (osx || requested >= b.maxPriThrottle) ==> r == requested
    ensures requested > maxPriority && (osx || maxPriority >= b.maxPriThrottle) ==> r == maxPriority
  {
    var capped := if requested > maxPriority then maxPriority else requested;
    if !osx && capped < b.maxPriThrottle then b.maxPriThrottle else capped
  }
}
