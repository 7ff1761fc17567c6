/**
 * The per-thread scheduling record and the operations of the priority
 * engine that update it in place, under the thread lock: priority
 * recomputation, tick-driven usage ageing, base-priority changes, mode
 * demotion, promotion reasons, the fail-safe and run-bucket bookkeeping.
 */
module ThreadSched {
  import opened SchedTypes
  import opened Decay
  import opened TimesharePri
  import opened SchedPri
  import opened ModeDemotion
  import opened FailsafeGuard
  import opened RunBuckets

  /** Advancing the stamp by the (wrapped) tick gap lands exactly on the current tick. */
  lemma StampCatchesUp(stamp: u32, tick: u32)
    ensures Wrap32(stamp + Wrap32(tick - stamp)) == tick
  {
    WrapAdd(tick - stamp, stamp);
  }

  /** A thread's bucket, its `pri_shift` and the global run counters, as one value. */
  datatype Filing = Filing(bucket: Bucket, priShift: nat, counts: seq<int>)

  /**
   * Where a bucket update leaves the filing: the bucket the mode and base
   * priority call for; if that is a different bucket, the `pri_shift` of the
   * new bucket and, for a runnable thread, its weight moved from the old
   * bucket to the new one; otherwise nothing changes.
   */
  function Refiled(cfg: Config, f: Filing, mode: Mode, basePri: int, runnable: bool, weight: int): (r: Filing)
    requires cfg.Valid() && ValidMode(mode)
    requires |f.counts| == NUM_BUCKETS
    requires runnable ==> f.bucket != Run
    ensures r.bucket == BucketFor(cfg.bands, mode, basePri)
    ensures |r.counts| == NUM_BUCKETS
    ensures r.bucket == f.bucket ==> r == f
    ensures r.bucket != f.bucket ==> r.priShift == cfg.PriShift(r.bucket)
    ensures r.counts[5] == f.counts[5]
    ensures Balanced(r.counts) <==> Balanced(f.counts)
    ensures !runnable ==> r.counts == f.counts
    ensures runnable && r.bucket != f.bucket ==> r.counts == Moved(f.counts, f.bucket, r.bucket, weight)
  {
    var k := BucketFor(cfg.bands, mode, basePri);
    if k == f.bucket then
      f
    else if runnable then
      MovedBalanced(f.counts, f.bucket, k, weight);
      Filing(k, cfg.PriShift(k), Moved(f.counts, f.bucket, k, weight))
    else
      Filing(k, cfg.PriShift(k), f.counts)
  }

  class Thread {
    var mode: Mode              // sched_mode
    var savedMode: Mode         // saved_mode
    var flags: set<SFlag>       // sched_flags
    var policyReset: bool       // policy_reset
    var basePri: int            // base_pri
    var reqBasePri: int         // req_base_pri
    var schedPri: int           // sched_pri, as last handed to set_sched_pri
    var maxPriority: int        // max_priority
    var taskPriority: int       // task_priority
    var importance: int         // importance
    var taskMaxPri: int         // the owning task's max_priority
    var kernPromotion: int      // kern_promotion_schedpri
    var priShift: nat           // pri_shift
    var schedUsage: u32         // sched_usage
    var cpuUsage: u32           // cpu_usage
    var cpuDelta: u32           // cpu_delta
    var schedStamp: u32         // sched_stamp
    var bucket: Bucket          // th_sched_bucket
    var savedRunWeight: nat     // sched_saved_run_weight
    var runnable: bool          // (state & (TH_RUN | TH_IDLE)) == TH_RUN
    var noSmt: bool             // thread_no_smt(thread)
    var systemCritical: bool    // options & TH_OPT_SYSTEM_CRITICAL
    var safeRelease: u64        // safe_release
    var computationEpoch: u64   // computation_epoch
    var computationMetered: u64 // computation_metered
    var intrEpoch: u64          // computation_interrupt_epoch

    /**
     * The record's invariant: the mode state machine is consistent, the
     * base priority is a priority, and a runnable thread sits in a
     * per-class bucket.
     */
    ghost predicate Valid(cfg: Config)
      reads this
    {
      && cfg.Valid()
      && ModeView().Valid()
      && cfg.bands.minPri <= basePri <= cfg.bands.maxPri
      && (runnable ==> bucket != Run)
    }

    function ModeView(): ModeState
      reads this
    {
      ModeState(mode, savedMode, flags, policyReset)
    }

    function UsageView(): Usage
      reads this
    {
      Usage(schedUsage, cpuUsage, cpuDelta)
    }

    function FilingView(rb: RunCounters): Filing
      reads this, rb, rb.counts
    {
      Filing(bucket, priShift, rb.counts[..])
    }

    /** The weight a bucket update moves: the saved run weight where SMT run weights are kept, else one. */
    function RunWeight(cfg: Config): nat
      reads this
    {
      if cfg.build.smt then savedRunWeight else 1
    }

    /** The priority the thread's mode starts from: its timeshare priority, or its base priority. */
    function StartPriority(cfg: Config): int
      requires cfg.Valid() && cfg.bands.minPri <= basePri <= cfg.bands.maxPri
      reads this
    {
      if mode == Timeshare then TimesharePriority(cfg, basePri, priShift, schedUsage, taskMaxPri) else basePri
    }

    /** What `thread_recompute_sched_pri` would hand to `set_sched_pri` now. */
    function RecomputedPriority(cfg: Config): int
      requires cfg.Valid() && cfg.bands.minPri <= basePri <= cfg.bands.maxPri
      reads this
    {
      ScheduledPriority(cfg.bands, mode, flags, StartPriority(cfg), kernPromotion)
    }

    /**
     * `can_update_priority`: at most one full update per scheduler tick. It
     * holds exactly when the wrapped tick gap `update_priority` asserts
     * non-zero is non-zero.
     */
    predicate CanUpdatePriority(schedTick: u32)
      reads this
      ensures CanUpdatePriority(schedTick) <==> Wrap32(schedTick - schedStamp) != 0
    {
      assert schedTick - schedStamp == 0 <==> Wrap32(schedTick - schedStamp) == 0;
      schedTick != schedStamp
    }

    /** The kernel asserts a bucket it takes a thread out of is not empty. */
    predicate LeavesCounted(cfg: Config, rb: RunCounters, newMode: Mode, newBase: int)
      requires cfg.Valid() && rb.Valid() && ValidMode(newMode)
      reads this, rb, rb.counts
    {
      runnable && BucketFor(cfg.bands, newMode, newBase) != bucket ==> rb.counts[Index(bucket)] > 0
    }

    /** `thread_recompute_sched_pri`; `set_sched_pri` is reduced to storing the priority. */
    method RecomputeSchedPri(cfg: Config)
      requires Valid(cfg)
      modifies this`schedPri
      ensures schedPri == RecomputedPriority(cfg)
    {
      var priority := basePri;
      if mode == Timeshare {
        priority := TimesharePriority(cfg, basePri, priShift, schedUsage, taskMaxPri);
      }
      schedPri := ScheduledPriority(cfg.bands, mode, flags, priority, kernPromotion);
    }

    /** `sched_update_thread_bucket` */
    method UpdateThreadBucket(cfg: Config, rb: RunCounters)
      requires cfg.Valid() && rb.Valid() && ValidMode(mode)
      requires runnable ==> bucket != Run
      requires LeavesCounted(cfg, rb, mode, basePri)
      modifies this`bucket, this`priShift, rb.counts
      ensures FilingView(rb) == Refiled(cfg, old(FilingView(rb)), mode, basePri, runnable, 1)
    {
      var newBucket := BucketFor(cfg.bands, mode, basePri);
      if bucket != newBucket {
        var oldBucket := bucket;
        bucket := newBucket;
        priShift := cfg.PriShift(newBucket);
        if runnable {
          rb.DecrBucket(oldBucket);
          rb.IncrBucket(newBucket);
        }
      }
    }

    /** `sched_smt_update_thread_bucket`: as above, moving the saved run weight. */
    method SmtUpdateThreadBucket(cfg: Config, rb: RunCounters)
      requires cfg.Valid() && rb.Valid() && ValidMode(mode)
      requires runnable ==> bucket != Run
      requires LeavesCounted(cfg, rb, mode, basePri)
      modifies this`bucket, this`priShift, rb.counts
      ensures FilingView(rb) == Refiled(cfg, old(FilingView(rb)), mode, basePri, runnable, savedRunWeight)
    {
      var newBucket := BucketFor(cfg.bands, mode, basePri);
      if bucket != newBucket {
        var oldBucket := bucket;
        bucket := newBucket;
        priShift := cfg.PriShift(newBucket);
        if runnable {
          rb.SubBucket(oldBucket, savedRunWeight);
          rb.AddBucket(newBucket, savedRunWeight);
        }
      }
    }

    /** The scheduler's bucket update: the SMT variant where SMT run weights are kept. */
    method SchedUpdateThreadBucket(cfg: Config, rb: RunCounters)
      requires cfg.Valid() && rb.Valid() && ValidMode(mode)
      requires runnable ==> bucket != Run
      requires LeavesCounted(cfg, rb, mode, basePri)
      modifies this`bucket, this`priShift, rb.counts
      ensures FilingView(rb) == Refiled(cfg, old(FilingView(rb)), mode, basePri, runnable, RunWeight(cfg))
    {
      if cfg.build.smt {
        SmtUpdateThreadBucket(cfg, rb);
      } else {
        UpdateThreadBucket(cfg, rb);
      }
    }

    /** `sched_set_thread_mode`: the true mode changes and the thread is refiled. */
    method SetThreadMode(cfg: Config, newMode: Mode, rb: RunCounters)
      requires cfg.Valid() && rb.Valid() && ValidMode(newMode)
      requires runnable ==> bucket != Run
      requires LeavesCounted(cfg, rb, newMode, basePri)
      modifies this`mode, this`bucket, this`priShift, rb.counts
      ensures mode == newMode
      ensures FilingView(rb) == Refiled(cfg, old(FilingView(rb)), newMode, basePri, runnable, RunWeight(cfg))
    {
      mode := newMode;
      SchedUpdateThreadBucket(cfg, rb);
    }

    /** `sched_set_thread_mode_user`: while demoted only the saved mode changes. */
    method SetThreadModeUser(cfg: Config, newMode: Mode, rb: RunCounters)
      requires Valid(cfg) && rb.Valid() && ValidMode(newMode)
      requires !ModeView().Demoted() ==> LeavesCounted(cfg, rb, newMode, basePri)
      modifies this`savedMode, this`mode, this`bucket, this`priShift, rb.counts
      ensures Valid(cfg)
      ensures ModeView() == old(ModeView()).SetUserMode(newMode)
      ensures ModeView().UserMode() == newMode
      ensures FilingView(rb) == if old(ModeView().Demoted()) then old(FilingView(rb))
                                else Refiled(cfg, old(FilingView(rb)), newMode, basePri, runnable, RunWeight(cfg))
    {
      if ModeView().Demoted() {
        savedMode := newMode;
      } else {
        SetThreadMode(cfg, newMode, rb);
      }
    }

    /**
     * `sched_thread_mode_demote`. The run-queue removal and reinsertion and
     * `thread_recompute_priority` around the switch are not part of this model.
     */
    method ModeDemote(cfg: Config, reason: SFlag, rb: RunCounters)
      requires Valid(cfg) && rb.Valid()
      requires reason in DEMOTED_MASK && reason !in flags
      requires !policyReset && !ModeView().Demoted() ==> LeavesCounted(cfg, rb, Timeshare, basePri)
      modifies this`flags, this`savedMode, this`mode, this`bucket, this`priShift, rb.counts
      ensures Valid(cfg)
      ensures ModeView() == old(ModeView()).Demote(reason)
      ensures FilingView(rb) == if old(policyReset || ModeView().Demoted()) then old(FilingView(rb))
                                else Refiled(cfg, old(FilingView(rb)), Timeshare, basePri, runnable, RunWeight(cfg))
    {
      if policyReset {
        return;
      }
      if ModeView().Demoted() {
        flags := flags + {reason};
        return;
      }
      flags := flags + {reason};
      savedMode := mode;
      SetThreadMode(cfg, Timeshare, rb);
    }

    /**
     * `sched_thread_mode_undemote`: the last reason to go gives the thread
     * its saved mode back. Run-queue handling and `thread_recompute_priority`
     * are not part of this model.
     */
    method ModeUndemote(cfg: Config, reason: SFlag, rb: RunCounters)
      requires Valid(cfg) && rb.Valid()
      requires reason in DEMOTED_MASK && reason in flags && !policyReset
      requires !ModeView().Undemote(reason).Demoted() ==> LeavesCounted(cfg, rb, savedMode, basePri)
      modifies this`flags, this`savedMode, this`mode, this`bucket, this`priShift, rb.counts
      ensures Valid(cfg)
      ensures ModeView() == old(ModeView()).Undemote(reason)
      ensures FilingView(rb) == if ModeView().Demoted() then old(FilingView(rb))
                                else Refiled(cfg, old(FilingView(rb)), mode, basePri, runnable, RunWeight(cfg))
    {
      flags := flags - {reason} - (if reason == Failsafe then {FailsafeReported} else {});
      if ModeView().Demoted() {
        return;
      }
      SetThreadMode(cfg, savedMode, rb);
      savedMode := ModeNone;
    }

    /** `sched_thread_promote_reason` */
    method PromoteReason(cfg: Config, reason: SFlag)
      requires Valid(cfg)
      requires reason in PROMOTE_REASON_MASK && reason !in flags
      modifies this`flags, this`schedPri
      ensures Valid(cfg)
      ensures flags == old(flags) + {reason}
      ensures schedPri == RecomputedPriority(cfg)
      ensures Depress !in flags ==> schedPri >= cfg.bands.PromotionFloor(reason)
    {
      assert reason !in DEMOTED_MASK;
      flags := flags + {reason};
      assert flags * DEMOTED_MASK == old(flags) * DEMOTED_MASK;
      RecomputeSchedPri(cfg);
    }

    /** `sched_thread_unpromote_reason` */
    method UnpromoteReason(cfg: Config, reason: SFlag)
      requires Valid(cfg)
      requires reason in PROMOTE_REASON_MASK && reason in flags
      modifies this`flags, this`schedPri
      ensures Valid(cfg)
      ensures flags == old(flags) - {reason}
      ensures schedPri == RecomputedPriority(cfg)
    {
      assert reason !in DEMOTED_MASK;
      flags := flags - {reason};
      assert flags * DEMOTED_MASK == old(flags) * DEMOTED_MASK;
      RecomputeSchedPri(cfg);
    }

    /**
     * `sched_set_thread_base_priority`: record the request, apply the frozen
     * clamp, refile (except under the clutch scheduler, which refiles in
     * `set_sched_pri`) and recompute the scheduled priority.
     */
    method SetThreadBasePriority(cfg: Config, priority: int, rb: RunCounters)
      requires Valid(cfg) && rb.Valid()
      requires cfg.bands.minPri <= priority
      requires mode == Realtime ==> cfg.bands.basePriRtQueues <= priority <= cfg.bands.maxPri
      requires mode != Realtime ==> priority < cfg.bands.basePriRtQueues
      requires !cfg.build.clutch ==>
                 LeavesCounted(cfg, rb, mode, EffectiveBasePriority(BasePriFrozen in flags, basePri, priority))
      modifies this`reqBasePri, this`basePri, this`bucket, this`priShift, this`schedPri, rb.counts
      ensures Valid(cfg)
      ensures reqBasePri == priority
      ensures basePri == EffectiveBasePriority(BasePriFrozen in flags, old(basePri), priority)
      ensures BasePriFrozen in flags ==> basePri >= old(basePri)
      ensures FilingView(rb) == if cfg.build.clutch then old(FilingView(rb))
                                else Refiled(cfg, old(FilingView(rb)), mode, basePri, runnable, RunWeight(cfg))
      ensures schedPri == RecomputedPriority(cfg)
    {
      var effective := priority;
      reqBasePri := priority;
      if BasePriFrozen in flags {
        effective := Max(priority, basePri);
      }
      basePri := effective;
      if !cfg.build.clutch {
        SchedUpdateThreadBucket(cfg, rb);
      }
      RecomputeSchedPri(cfg);
    }

    /**
     * `sched_set_kernel_thread_priority`: cap the request by `max_priority`
     * (and lift it to MAXPRI_THROTTLE off macOS), derive the importance
     * from it, then set it as the base priority.
     */
    method SetKernelThreadPriority(cfg: Config, newPriority: int, rb: RunCounters)
      requires Valid(cfg) && rb.Valid()
      requires mode != Realtime
      requires cfg.bands.minPri <= KernelThreadPriority(cfg.bands, cfg.build.osx, newPriority, maxPriority) < cfg.bands.basePriRtQueues
      requires !cfg.build.clutch ==>
                 LeavesCounted(cfg, rb, mode, EffectiveBasePriority(BasePriFrozen in flags, basePri,
                                                                    KernelThreadPriority(cfg.bands, cfg.build.osx, newPriority, maxPriority)))
      modifies this`importance, this`reqBasePri, this`basePri, this`bucket, this`priShift, this`schedPri, rb.counts
      ensures Valid(cfg)
      ensures reqBasePri == KernelThreadPriority(cfg.bands, cfg.build.osx, newPriority, maxPriority)
      ensures importance == reqBasePri - taskPriority
      ensures basePri == EffectiveBasePriority(BasePriFrozen in flags, old(basePri), reqBasePri)
      ensures FilingView(rb) == if cfg.build.clutch then old(FilingView(rb))
                                else Refiled(cfg, old(FilingView(rb)), mode, basePri, runnable, RunWeight(cfg))
      ensures schedPri == RecomputedPriority(cfg)
    {
      var p := newPriority;
      if p > maxPriority {
        p := maxPriority;
      }
      if !cfg.build.osx && p < cfg.bands.maxPriThrottle {
        p := cfg.bands.maxPriThrottle;
      }
      importance := p - taskPriority;
      SetThreadBasePriority(cfg, p, rb);
    }

    /**
     * `lightweight_update_priority`: between ticks, charge the CPU time
     * `delta` (from `sched_tick_delta`) to a timeshare thread and recompute
     * its priority if its timeshare priority moved.
     */
    method LightweightUpdatePriority(cfg: Config, delta: u32)
      requires Valid(cfg)
      modifies this`schedUsage, this`cpuDelta, this`schedPri
      ensures Valid(cfg)
      ensures mode != Timeshare ==> schedUsage == old(schedUsage) && cpuDelta == old(cpuDelta) && schedPri == old(schedPri)
      ensures mode == Timeshare ==>
                && schedUsage == ChargeSchedUsage(old(schedUsage), delta, priShift, cfg.SmtBonus(noSmt), cfg.smtBonus16ths)
                && cpuDelta == Wrap32(old(cpuDelta) + delta)
                && schedPri == (if StartPriority(cfg) != old(schedPri) then RecomputedPriority(cfg) else old(schedPri))
    {
      if mode == Timeshare {
        schedUsage := ChargeSchedUsage(schedUsage, delta, priShift, cfg.SmtBonus(noSmt), cfg.smtBonus16ths);
        cpuDelta := Wrap32(cpuDelta + delta);
        var priority := TimesharePriority(cfg, basePri, priShift, schedUsage, taskMaxPri);
        if priority != schedPri {
          RecomputeSchedPri(cfg);
        }
      }
    }

    /** The first half of `update_priority`: catch the stamp up and age the usage counters. */
    method AgeUsage(cfg: Config, schedTick: u32, delta: u32)
      modifies this`schedStamp, this`schedUsage, this`cpuUsage, this`cpuDelta
      ensures schedStamp == schedTick
      ensures UsageView() == AgedUsage(ScaledTicks(cfg.ageFactor, Wrap32(schedTick - old(schedStamp))),
                                       old(UsageView()), delta, priShift, cfg.SmtBonus(noSmt), cfg.smtBonus16ths)
    {
      var ticks := Wrap32(schedTick - schedStamp);
      var aged := AgedUsage(ScaledTicks(cfg.ageFactor, ticks), UsageView(), delta, priShift, cfg.SmtBonus(noSmt), cfg.smtBonus16ths);
      StampCatchesUp(schedStamp, schedTick);
      schedStamp := Wrap32(schedStamp + ticks);
      schedUsage, cpuUsage, cpuDelta := aged.sched, aged.cpu, aged.delta;
    }

    /**
     * `update_priority`, once per scheduler tick: catch the stamp up, age
     * the usage over the (age-factor scaled) gap, lift an expired fail-safe
     * demotion, take the bucket's current `pri_shift` (supplied by the clutch
     * scheduler on clutch builds) and recompute a timeshare thread's priority.
     */
    method UpdatePriority(cfg: Config, schedTick: u32, delta: u32, now: u64, clutchPriShift: nat, rb: RunCounters)
      requires Valid(cfg) && rb.Valid()
      requires CanUpdatePriority(schedTick)
      requires FailsafeReleaseDue(flags, now, safeRelease) ==> !policyReset
      requires FailsafeReleaseDue(flags, now, safeRelease) && !ModeView().Undemote(Failsafe).Demoted() ==>
                 LeavesCounted(cfg, rb, savedMode, basePri)
      modifies this`schedStamp, this`schedUsage, this`cpuUsage, this`cpuDelta
      modifies this`flags, this`savedMode, this`mode, this`bucket, this`priShift, this`schedPri, rb.counts
      ensures Valid(cfg)
      ensures schedStamp == schedTick && !CanUpdatePriority(schedTick)
      ensures UsageView() == AgedUsage(ScaledTicks(cfg.ageFactor, Wrap32(schedTick - old(schedStamp))),
                                       old(UsageView()), delta, old(priShift), cfg.SmtBonus(noSmt), cfg.smtBonus16ths)
      ensures ModeView() == if old(FailsafeReleaseDue(flags, now, safeRelease)) then old(ModeView()).Undemote(Failsafe)
                            else old(ModeView())
      ensures var restored := old(FailsafeReleaseDue(flags, now, safeRelease)) && !ModeView().Demoted();
              var f := if restored then Refiled(cfg, old(FilingView(rb)), mode, basePri, runnable, RunWeight(cfg))
                       else old(FilingView(rb));
              bucket == f.bucket && rb.counts[..] == f.counts
      ensures priShift == if cfg.build.clutch then clutchPriShift else cfg.PriShift(bucket)
      ensures schedPri == if mode == Timeshare then RecomputedPriority(cfg) else old(schedPri)
    {
      ghost var aged := AgedUsage(ScaledTicks(cfg.ageFactor, Wrap32(schedTick - schedStamp)),
                                  UsageView(), delta, priShift, cfg.SmtBonus(noSmt), cfg.smtBonus16ths);
      AgeUsage(cfg, schedTick, delta);
      assert UsageView() == aged && schedStamp == schedTick;
      ReleaseAndReprioritise(cfg, now, clutchPriShift, rb);
    }

    /**
     * The second half of `update_priority`: the fail-safe release, the new
     * `pri_shift` and, for a timeshare thread, the priority recomputation.
     */
    method ReleaseAndReprioritise(cfg: Config, now: u64, clutchPriShift: nat, rb: RunCounters)
      requires Valid(cfg) && rb.Valid()
      requires FailsafeReleaseDue(flags, now, safeRelease) ==> !policyReset
      requires FailsafeReleaseDue(flags, now, safeRelease) && !ModeView().Undemote(Failsafe).Demoted() ==>
                 LeavesCounted(cfg, rb, savedMode, basePri)
      modifies this`flags, this`savedMode, this`mode, this`bucket, this`priShift, this`schedPri, rb.counts
      ensures Valid(cfg)
      ensures ModeView() == if old(FailsafeReleaseDue(flags, now, safeRelease)) then old(ModeView()).Undemote(Failsafe)
                            else old(ModeView())
      ensures var restored := old(FailsafeReleaseDue(flags, now, safeRelease)) && !ModeView().Demoted();
              var f := if restored then Refiled(cfg, old(FilingView(rb)), mode, basePri, runnable, RunWeight(cfg))
                       else old(FilingView(rb));
              bucket == f.bucket && rb.counts[..] == f.counts
      ensures priShift == if cfg.build.clutch then clutchPriShift else cfg.PriShift(bucket)
      ensures schedPri == if mode == Timeshare then RecomputedPriority(cfg) else old(schedPri)
    {
      ReleaseFailsafe(cfg, now, rb);
      if cfg.build.clutch {
        priShift := clutchPriShift;
      } else {
        priShift := cfg.PriShift(bucket);
      }
      if mode == Timeshare {
        RecomputeSchedPri(cfg);
      }
    }

    /** The fail-safe release check of `update_priority`: lift an expired fail-safe demotion. */
    method ReleaseFailsafe(cfg: Config, now: u64, rb: RunCounters)
      requires Valid(cfg) && rb.Valid()
      requires FailsafeReleaseDue(flags, now, safeRelease) ==> !policyReset
      requires FailsafeReleaseDue(flags, now, safeRelease) && !ModeView().Undemote(Failsafe).Demoted() ==>
                 LeavesCounted(cfg, rb, savedMode, basePri)
      modifies this`flags, this`savedMode, this`mode, this`bucket, this`priShift, rb.counts
      ensures Valid(cfg)
      ensures ModeView() == if old(FailsafeReleaseDue(flags, now, safeRelease)) then old(ModeView()).Undemote(Failsafe)
                            else old(ModeView())
      ensures FilingView(rb) == if old(FailsafeReleaseDue(flags, now, safeRelease)) && !ModeView().Demoted()
                                then Refiled(cfg, old(FilingView(rb)), mode, basePri, runnable, RunWeight(cfg))
                                else old(FilingView(rb))
    {
      if Failsafe in flags && now >= safeRelease {
        ModeUndemote(cfg, Failsafe, rb);
      }
    }

    /** The fail-safe verdict at quantum expiry at time `ctime`, with `intrNow` the interrupt time so far. */
    function TripAt(cfg: Config, ctime: u64, intrNow: u64): Option<u64>
      reads this
    {
      FailsafeTrip(cfg, mode, kernPromotion, flags, systemCritical, ctime,
                   Computation(ctime, computationEpoch, computationMetered, intrNow, intrEpoch))
    }

    /**
     * The fail-safe block of `thread_quantum_expire`: a realtime or fixed
     * thread over its budget gets a release time and is demoted to
     * timeshare, after which it cannot trip again.
     */
    method QuantumExpireFailsafe(cfg: Config, ctime: u64, intrNow: u64, rb: RunCounters)
      requires Valid(cfg) && rb.Valid()
      requires TripAt(cfg, ctime, intrNow).Some? && !policyReset ==> LeavesCounted(cfg, rb, Timeshare, basePri)
      modifies this`safeRelease, this`flags, this`savedMode, this`mode, this`bucket, this`priShift, rb.counts
      ensures Valid(cfg)
      ensures old(TripAt(cfg, ctime, intrNow)).None? ==>
                && ModeView() == old(ModeView()) && safeRelease == old(safeRelease) && FilingView(rb) == old(FilingView(rb))
      ensures old(TripAt(cfg, ctime, intrNow)).Some? ==>
                && safeRelease == old(TripAt(cfg, ctime, intrNow)).value
                && ModeView() == old(ModeView()).Demote(Failsafe)
      ensures old(TripAt(cfg, ctime, intrNow)).Some? && !policyReset ==>
                && mode == Timeshare && Failsafe in flags
                && forall later, intr :: TripAt(cfg, later, intr) == None
      ensures old(TripAt(cfg, ctime, intrNow)).Some? ==>
                FilingView(rb) == if policyReset then old(FilingView(rb))
                                  else Refiled(cfg, old(FilingView(rb)), Timeshare, basePri, runnable, RunWeight(cfg))
    {
      var computation := Computation(ctime, computationEpoch, computationMetered, intrNow, intrEpoch);
      var trip := FailsafeTrip(cfg, mode, kernPromotion, flags, systemCritical, ctime, computation);
      if trip.Some? {
        FailsafeCycle(cfg, ModeView(), kernPromotion, systemCritical, ctime, computation, ctime, ctime);
        safeRelease := trip.value;
        ModeDemote(cfg, Failsafe, rb);
      }
    }

    /** `sched_run_incr`: count a thread that became runnable; returns the new total. */
    method RunIncr(cfg: Config, rb: RunCounters) returns (newCount: int)
      requires Valid(cfg) && rb.Valid()
      requires runnable
      modifies rb.counts
      ensures rb.counts[..] == RunAdded(old(rb.counts[..]), bucket, 1)
      ensures newCount == rb.counts[Index(Run)] == old(rb.counts[Index(Run)]) + 1
      ensures Balanced(old(rb.counts[..])) ==> Balanced(rb.counts[..])
    {
      rb.counts[Index(Run)] := rb.counts[Index(Run)] + 1;
      newCount := rb.counts[Index(Run)];
      rb.IncrBucket(bucket);
      RunAddedBalanced(old(rb.counts[..]), bucket, 1);
    }

    /** `sched_run_decr`: uncount a thread that stopped being runnable; returns the new total. */
    method RunDecr(cfg: Config, rb: RunCounters) returns (newCount: int)
      requires Valid(cfg) && rb.Valid()
      requires !runnable && bucket != Run
      requires rb.counts[Index(bucket)] > 0
      modifies rb.counts
      ensures rb.counts[..] == RunAdded(old(rb.counts[..]), bucket, -1)
      ensures newCount == rb.counts[Index(Run)] == old(rb.counts[Index(Run)]) - 1
      ensures Balanced(old(rb.counts[..])) ==> Balanced(rb.counts[..])
    {
      rb.DecrBucket(bucket);
      rb.counts[Index(Run)] := rb.counts[Index(Run)] - 1;
      newCount := rb.counts[Index(Run)];
      RunAddedBalanced(old(rb.counts[..]), bucket, -1);
    }

    /**
     * `sched_smt_run_incr`: as `sched_run_incr` with a weight of two for a
     * thread that keeps its SMT core to itself; the weight is saved for the
     * matching decrement and bucket moves.
     */
    method SmtRunIncr(cfg: Config, rb: RunCounters) returns (newCount: int)
      requires Valid(cfg) && rb.Valid()
      requires runnable
      modifies this`savedRunWeight, rb.counts
      ensures Valid(cfg)
      ensures savedRunWeight == if cfg.SmtBonus(noSmt) then 2 else 1
      ensures rb.counts[..] == RunAdded(old(rb.counts[..]), bucket, savedRunWeight)
      ensures newCount == rb.counts[Index(Run)] == old(rb.counts[Index(Run)]) + savedRunWeight
      ensures Balanced(old(rb.counts[..])) ==> Balanced(rb.counts[..])
    {
      var weight: nat := if cfg.SmtBonus(noSmt) then 2 else 1;
      savedRunWeight := weight;
      rb.counts[Index(Run)] := rb.counts[Index(Run)] + weight;
      newCount := rb.counts[Index(Run)];
      rb.AddBucket(bucket, weight);
      RunAddedBalanced(old(rb.counts[..]), bucket, weight);
    }

    /** `sched_smt_run_decr`: take the saved run weight back out. */
    method SmtRunDecr(cfg: Config, rb: RunCounters) returns (newCount: int)
      requires Valid(cfg) && rb.Valid()
      requires !runnable && bucket != Run
      requires rb.counts[Index(bucket)] > 0
      modifies rb.counts
      ensures rb.counts[..] == RunAdded(old(rb.counts[..]), bucket, -(savedRunWeight as int))
      ensures newCount == rb.counts[Index(Run)] == old(rb.counts[Index(Run)]) - savedRunWeight
      ensures Balanced(old(rb.counts[..])) ==> Balanced(rb.counts[..])
    {
      rb.SubBucket(bucket, savedRunWeight);
      rb.counts[Index(Run)] := rb.counts[Index(Run)] - savedRunWeight;
      newCount := rb.counts[Index(Run)];
      RunAddedBalanced(old(rb.counts[..]), bucket, -(savedRunWeight as int));
    }
  }
}
