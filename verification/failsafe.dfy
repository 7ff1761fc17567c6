/**
 * The realtime / fixed-priority fail-safe: a thread of those modes that
 * runs too long without blocking is demoted to timeshare until a release
 * time, checked at quantum expiry; `update_priority` lifts the demotion
 * once that time has passed.
 */
module FailsafeGuard {
  import opened SchedTypes
  import opened ModeDemotion

  /**
   * The CPU time charged to the thread since its computation epoch: the
   * elapsed time plus the metered time, less the interrupt time taken since
   * the interrupt epoch. All `uint64_t`, so each step wraps.
   */
  function Computation(ctime: u64, epoch: u64, metered: u64, intrNow: u64, intrEpoch: u64): (c: u64)
    ensures epoch <= ctime && ctime - epoch + metered < TWO_64 && intrEpoch <= intrNow
            && intrNow - intrEpoch <= ctime - epoch + metered
            ==> c == ctime - epoch + metered - (intrNow - intrEpoch)
  {
    var run := Wrap64(Wrap64(ctime - epoch) + metered);
    Wrap64(run - Wrap64(intrNow - intrEpoch))
  }

  /**
   * A thread the fail-safe watches: realtime or fixed, with no kernel
   * promotion, no promote reason and not marked system-critical.
   */
  predicate Watched(mode: Mode, kernPromotion: int, flags: set<SFlag>, systemCritical: bool)
    ensures Watched(mode, kernPromotion, flags, systemCritical) ==> ValidMode(mode) && mode != Timeshare
    ensures Watched(mode, kernPromotion, flags, systemCritical) ==> forall r :: r in PROMOTE_REASON_MASK ==> r !in flags
  {
    assert forall r :: r in PROMOTE_REASON_MASK && r in flags ==> r in flags * PROMOTE_REASON_MASK;
    && (mode == Realtime || mode == Fixed)
    && kernPromotion == 0
    && flags * PROMOTE_REASON_MASK == {}
    && !systemCritical
  }

  /**
   * The fail-safe check of `thread_quantum_expire`: `Some(safe_release)` when
   * the thread must be demoted, `None` otherwise.
   */
  function FailsafeTrip(cfg: Config, mode: Mode, kernPromotion: int, flags: set<SFlag>, systemCritical: bool,
                        ctime: u64, computation: u64): (r: Option<u64>)
    ensures r.Some? <==>
              && Watched(mode, kernPromotion, flags, systemCritical)
              && computation > (if mode == Realtime then cfg.maxUnsafeRtComputation else cfg.maxUnsafeFixedComputation)
    ensures r.Some? && mode == Realtime && ctime + cfg.safeRtDuration < TWO_64 ==>
              r.value == ctime + cfg.safeRtDuration
    ensures r.Some? && mode == Fixed && ctime + cfg.safeFixedDuration < TWO_64 ==>
              r.value == ctime + cfg.safeFixedDuration
  {
    if !Watched(mode, kernPromotion, flags, systemCritical) then
      None
    else if mode == Realtime then
      if computation > cfg.maxUnsafeRtComputation then Some(Wrap64(ctime + cfg.safeRtDuration)) else None
    else
      if computation > cfg.maxUnsafeFixedComputation then Some(Wrap64(ctime + cfg.safeFixedDuration)) else None
  }

  /**
   * The fail-safe release check of `update_priority`: only a thread the
   * fail-safe demoted is ever released.
   */
  predicate FailsafeReleaseDue(flags: set<SFlag>, now: u64, safeRelease: u64)
    ensures FailsafeReleaseDue(flags, now, safeRelease) ==> Failsafe in flags * DEMOTED_MASK
    ensures FailsafeReleaseDue(flags, now, safeRelease) ==> safeRelease <= now
  {
    Failsafe in flags && now >= safeRelease
  }

  /**
   * A trip is always allowed to demote (the thread does not already carry the
   * fail-safe reason); once demoted the thread is timeshare and cannot trip
   * again; and when the release is due, lifting the demotion restores the
   * thread's mode (if nothing else demotes it) and re-arms fail-safe
   * reporting.
   */
  lemma FailsafeCycle(cfg: Config, s: ModeState, kernPromotion: int, systemCritical: bool,
                        ctime: u64, computation: u64, later: u64, now: u64)
    requires s.Valid()
    requires FailsafeTrip(cfg, s.mode, kernPromotion, s.flags, systemCritical, ctime, computation).Some?
    ensures Failsafe !in s.flags && !s.Demoted()
    ensures !s.policyReset ==>
            var d := s.Demote(Failsafe);
            && d.mode == Timeshare
            && FailsafeTrip(cfg, d.mode, kernPromotion, d.flags, systemCritical, later, computation) == None
    ensures !s.policyReset ==>
            var d := s.Demote(Failsafe);
            var release := FailsafeTrip(cfg, s.mode, kernPromotion, s.flags, systemCritical, ctime, computation).value;
            FailsafeReleaseDue(d.flags, now, release) <==> now >= release
    ensures !s.policyReset ==>
            var u := s.Demote(Failsafe).Undemote(Failsafe);
            u.mode == s.mode && !u.Demoted() && Failsafe !in u.flags && FailsafeReported !in u.flags
  {
    assert s.mode != Timeshare;
    if !s.policyReset {
      DemoteUndemoteRoundTrip(s, Failsafe);
    }
  }
}
