# XNU thread priority and usage decay, in Dafny

This project models the priority engine of the XNU Mach scheduler
(`osfmk/kern/priority.c`) and proves properties of that model. It covers:

- **Usage decay.** `update_priority` ages a thread's CPU usage counters
  once per scheduler tick, using the 32-row `sched_decay_shifts` table of
  shift pairs that approximates (5/8)^n. `lightweight_update_priority`
  charges CPU time between ticks.
- **Timeshare priority.** It is computed from the base priority, the
  bucket's `pri_shift` and the decayed usage, in the two build variants:
  the clamped one, and the decay-floor one with its throttle floor.
- **Scheduled priority.** `thread_recompute_sched_pri` derives it from the
  base or timeshare priority. It applies explicit and poll depression,
  kernel (mutex) promotion capped at MAXPRI_PROMOTE, and the floors of the
  promote reasons (rw-lock, wait queue, exec, floor).
- **Base-priority changes.** This covers `sched_set_thread_base_priority`
  with its frozen-base clamp, and `sched_set_kernel_thread_priority` with
  its `max_priority` cap and the throttle floor off macOS.
- **Mode demotion.** A mode demotion state machine in which several
  reasons (throttled, fail-safe, realtime-disallowed) share one
  `saved_mode` slot. It also covers the user-visible mode.
- **The realtime/fixed fail-safe.** A thread over its computation budget
  at quantum expiry is demoted to timeshare until a release time.
  `update_priority` lifts the demotion once that time has passed.
- **Run buckets.** `sched_run_buckets` counts runnable threads in total
  and per class (fixed, and timeshare foreground, default, utility and
  background). Under SMT a thread that keeps its core to itself counts
  double.

Values the source computes without side effects become functions on
datatypes. These include the decay step, the two timeshare variants, the
scheduled priority and the mode state machine. The thread record is a
`class` whose methods update its fields in place under field-granular
`modifies` clauses. The global run counters are an `array<int>` inside
the class `RunCounters`. Each method's postcondition ties the new state to
those functions: `ModeView()`, `UsageView()` and `FilingView(rb)` project
the fields a method touches onto the datatypes the lemmas are about.

Integer widths follow the source:

- The usage counters and the tick stamp are `uint32_t` and wrap
  (`Wrap32`).
- The fail-safe computation and release time are `uint64_t` and wrap
  (`Wrap64`).
- `(int)(usage >> shift)` is a two's-complement conversion (`Int32Of`).
- The shifts are logical (`Shr`).

The kernel's priority constants (MINPRI_USER, BASEPRI_DEFAULT,
MAXPRI_PROMOTE, DEPRESSPRI, ...) are parameters: the datatype `Bands`
holds them, with the ordering the kernel relies on as `Bands.Valid()`. The
tunables (`sched_pri_shifts`, the fail-safe budgets and durations, the SMT
bonus, `sched_decay_usage_age_factor`) are held in `Config`, together with
the build: macOS or not, clutch scheduler or not, SMT or not.

## Model

| member | source | states |
|---|---|---|
| Decay.DecayUsage | osfmk/kern/priority.c:687-699 | One decay step, `(u >> s1) ± (u >> s2)`, never increases the usage; it is exactly the sum or the difference of the two logical shifts. |
| Decay.DecayTableWellFormed | osfmk/kern/priority.c:510-543 | The table has SCHED_DECAY_TICKS rows. Each has a first shift of at least one and a non-zero second shift: when added it is no smaller than the first, when subtracted it is larger in magnitude, so the step cannot underflow. |
| Decay.DecayTableShrinks | osfmk/kern/priority.c:510-543 | Every row past the first adds a term shifted by at least two, so the two terms together keep less than the whole. |
| Decay.DecayStrict | osfmk/kern/priority.c:687-699 | Rows 1..31 of the table strictly shrink a non-zero usage. |
| Decay.DecayZero | osfmk/kern/priority.c:687-699 | Zero usage stays zero under every row. |
| Decay.DecayMonotone | osfmk/kern/priority.c:687-699 | The decay step is monotone in the usage, for every row. |
| Decay.ShrMonotone | osfmk/kern/priority.c:569 | A logical right shift is monotone in its operand. |
| Decay.ShrAntitone | osfmk/kern/priority.c:569 | A larger shift never gives a larger result. |
| Decay.ChargeSchedUsage | osfmk/kern/priority.c:474-480 | With `pri_shift >= INT8_MAX` (the bucket is uncontended) no usage is charged. Otherwise the charge is `delta` (plus the SMT bonus `delta*bonus>>4`), wrapped to 32 bits. |
| Decay.ScaledTicks | osfmk/kern/priority.c:651-654 | With an age factor above one the tick gap is multiplied by it (exactly, when the uint32 product does not wrap); otherwise it is unchanged. |
| Decay.AgedUsage | osfmk/kern/priority.c:660-703 | A scaled gap of SCHED_DECAY_TICKS or more forgets all usage. Otherwise the window's `delta` is charged to `sched_usage` (`ChargeSchedUsage`), and `delta` and the pending `cpu_delta` are folded into `cpu_usage`. Both counters are then decayed by table row `ticks` (`DecayUsage`), and `cpu_delta` is cleared. Neither counter ends above its charged value, and on an uncontended bucket the scheduling usage never grows. |
| Decay.AgedUsageIdle | osfmk/kern/priority.c:660-703 | A thread with no scheduling usage that ran nothing in the window keeps none. |
| Decay.AgedUsageDecays | osfmk/kern/priority.c:660-703 | With nothing charged to the scheduling usage (uncontended bucket), a gap of at least one tick strictly reduces it when it is non-zero. |
| Decay.AgedUsageMonotone | osfmk/kern/priority.c:660-703 | With nothing charged, more scheduling usage before ageing never gives less after. |
| TimesharePri.TimeshareClamped | osfmk/kern/priority.c:594-611 | The clamped timeshare priority lies in [MINPRI_USER, MAXPRI_KERNEL]. With `pri_shift == INT8_MAX` it is the clamped base priority. Otherwise, whenever the shifted usage fits a positive `int`, it is the base minus `usage >> pri_shift`, clamped to that band. |
| TimesharePri.TimeshareClampedNoGain | osfmk/kern/priority.c:594-611 | Usage never raises the clamped timeshare priority above the base priority (or MINPRI_USER, when the base is below it). |
| TimesharePri.TimeshareClampedAntitone | osfmk/kern/priority.c:594-611 | More usage never gives a higher clamped timeshare priority. |
| TimesharePri.DecayLimit | osfmk/kern/priority.c:558-564 | The limit is at least the band limit and equals it up to BASEPRI_FOREGROUND, so the lowest priority decay can reach is the band limit below BASEPRI_FOREGROUND (or below the base, when that is lower). |
| TimesharePri.CappedDecay | osfmk/kern/priority.c:566-574 | The decay taken off the base is at most the limit. At `pri_shift == INT8_MAX` it is zero (or the limit, if that is negative). Otherwise, when the shifted usage fits a positive `int`, it is `min(usage >> shift, limit)`. |
| TimesharePri.CappedDecayMonotone | osfmk/kern/priority.c:566-574 | The capped decay is monotone in the usage. |
| TimesharePri.ThrottleFloor | osfmk/kern/priority.c:579-587 | The value by cases: a priority in [MAXPRI_THROTTLE, MAXPRI_KERNEL] is returned unchanged, and one above MAXPRI_KERNEL becomes MAXPRI_KERNEL. One below MAXPRI_THROTTLE becomes MAXPRI_THROTTLE when the task's maximum priority is above it, and is otherwise raised to at least MINPRI_USER. |
| TimesharePri.ThrottleFloorMonotone | osfmk/kern/priority.c:579-587 | The throttle floor is monotone. |
| TimesharePri.TimeshareDecayFloor | osfmk/kern/priority.c:556-590 | When the shifted usage fits a positive `int` and the bucket is contended, the result is the throttle floor applied to the base minus `min(usage >> pri_shift, decay limit)`. That value is returned unchanged when it falls in [MAXPRI_THROTTLE, MAXPRI_KERNEL]. Always: the result lies in [MINPRI_USER, MAXPRI_KERNEL], is never lower than the base minus the decay limit, and is never below MAXPRI_THROTTLE when the task may run above it. |
| TimesharePri.TimeshareDecayFloorUncontended | osfmk/kern/priority.c:556-590 | With `pri_shift == INT8_MAX` (and a non-negative band limit), a base priority in the user band is returned unchanged. |
| TimesharePri.TimeshareDecayFloorAntitone | osfmk/kern/priority.c:556-590 | More usage never gives a higher decay-floor priority. |
| TimesharePri.TimesharePriority | osfmk/kern/priority.c:552-611 | The decay-floor variant is used on builds that are neither macOS nor clutch, and the clamped one otherwise. Either way the result lies in [MINPRI_USER, MAXPRI_KERNEL]. |
| TimesharePri.TimeshareIdle | osfmk/kern/priority.c:552-611 | In either variant, a thread whose base priority is in the user band and that has no usage gets its base priority back. |
| SchedPri.PromotedBase | osfmk/kern/priority.c:398-409 | Poll depression drops to DEPRESSPRI. A kernel promotion gives exactly the higher of that priority and `kern_promotion_schedpri`: never below either, never above both. For a thread that is not realtime the result is then capped at MAXPRI_PROMOTE. |
| SchedPri.ScheduledPriority | osfmk/kern/priority.c:383-431 | Explicit depression gives DEPRESSPRI. Otherwise every active promote reason's floor and the kernel promotion are respected. With no depression, promotion or reason, the start priority is used unchanged. |
| SchedPri.ScheduledPriorityAttained | osfmk/kern/priority.c:411-427 | Without depression the scheduled priority is at least the promoted base and equals either it or the floor of an active reason. It is therefore the least value meeting all of them. |
| SchedPri.ScheduledPriorityMonotone | osfmk/kern/priority.c:383-431 | A higher start priority never gives a lower scheduled priority. |
| SchedPri.ScheduledPriorityKeepsStart | osfmk/kern/priority.c:398-427 | Without depression the scheduled priority is never below the start priority. The one exception is a non-realtime thread under kernel promotion, which may be capped at MAXPRI_PROMOTE. |
| SchedPri.PromoteReasonRaises | osfmk/kern/priority.c:411-427 | Adding a promote reason never lowers the scheduled priority. |
| SchedPri.EffectiveBasePriority | osfmk/kern/priority.c:296-301 | A frozen base priority may rise but not fall; an unfrozen one takes the request. |
| SchedPri.KernelThreadPriority | osfmk/kern/priority.c:350-357 | The request is capped by `max_priority`. Off macOS the result is then raised to MAXPRI_THROTTLE, and it is exactly the request when that is in range. |
| ModeDemotion.ModeState.UserMode | osfmk/kern/priority.c:989-997 | The user-visible mode is the saved mode while demoted and the true mode otherwise, in both directions. It is always a valid mode. |
| ModeDemotion.ModeState.SetUserMode | osfmk/kern/priority.c:975-987 | Setting the user mode keeps the state valid and makes the user-visible mode the new one. While demoted, the true mode is left alone. |
| ModeDemotion.ModeState.Demote | osfmk/kern/priority.c:1003-1048 | Demotion keeps the state valid, the policy-reset flag and the user-visible mode. After a policy reset it changes nothing. Otherwise the thread becomes timeshare, exactly the reason is added to the flags, and the first reason parks the true mode. |
| ModeDemotion.ModeState.Undemote | osfmk/kern/priority.c:1064-1107 | The new flags are the old ones less the reason, and less the fail-safe report when the reason is the fail-safe; nothing else in the flags changes. The last reason restores the parked mode and empties the slot. The user-visible mode and the policy-reset flag are unchanged. |
| ModeDemotion.ModeState.HasDemotion | osfmk/kern/priority.c:1054-1058 | A thread carrying a demotion reason is demoted, and so (in a valid state) timeshare. |
| ModeDemotion.DemoteUndemoteRoundTrip | osfmk/kern/priority.c:1003-1107 | Demoting an undemoted thread and lifting the same reason restores its mode and flags, apart from a re-armed fail-safe report. |
| ModeDemotion.NestedDemotion | osfmk/kern/priority.c:1003-1107 | Two reasons lifted in either order keep the thread timeshare until the last one goes, then restore its mode. |
| ModeDemotion.SetUserModeWhileDemoted | osfmk/kern/priority.c:975-987 | A mode set while demoted leaves the thread timeshare, and lifting the demotion installs that mode. |
| FailsafeGuard.Computation | osfmk/kern/priority.c:162-169 | The computation is elapsed plus metered time, less interrupt time; it is exact when no uint64 wrap occurs. |
| FailsafeGuard.Watched | osfmk/kern/priority.c:157-160 | A watched thread is realtime or fixed, never timeshare, and carries no promote reason. |
| FailsafeGuard.FailsafeTrip | osfmk/kern/priority.c:156-185 | A trip happens exactly when a watched realtime or fixed thread is over its mode's budget. The release time is `ctime` plus the mode's safe duration. |
| FailsafeGuard.FailsafeCycle | osfmk/kern/priority.c:156-195 | A tripping thread is never already demoted. After the demotion it is timeshare and cannot trip again. The release is due exactly once the release time is reached, and lifting the demotion restores the mode and re-arms reporting. |
| FailsafeGuard.FailsafeReleaseDue | osfmk/kern/priority.c:705-711 | A release is due only for a thread the fail-safe demoted, and only once its release time has been reached. |
| RunBuckets.BucketFor | osfmk/kern/priority.c:843-881 | A non-timeshare thread is filed as fixed-priority. A timeshare thread is filed by its base priority: above BASEPRI_DEFAULT foreground, above BASEPRI_UTILITY default, above MAXPRI_THROTTLE utility, else background (each as an iff). |
| RunBuckets.BucketForMonotone | osfmk/kern/priority.c:843-881 | A higher base priority never files a timeshare thread in a lower class. |
| RunBuckets.Added | osfmk/kern/priority.c:746-784 | Adding to one per-class counter changes that counter by the weight and no other. |
| RunBuckets.RunAdded | osfmk/kern/priority.c:786-841 | Counting a thread in (or out) changes the total and the thread's class counter by its weight and leaves the other classes unchanged. |
| RunBuckets.Moved | osfmk/kern/priority.c:843-921 | Moving a thread between classes keeps the total and leaves every class other than the two involved unchanged. |
| RunBuckets.RunAddedBalanced | osfmk/kern/priority.c:786-841 | Counting a thread in or out changes the total and the thread's class by its weight and no other class. It keeps the total equal to the sum of the classes, and in and out undo each other. |
| RunBuckets.MovedBalanced | osfmk/kern/priority.c:843-921 | Moving a runnable thread between classes keeps the total and the balance. The old class loses exactly the weight and the new class gains it, no other class changes, and the move back undoes it. |
| RunBuckets.RunCounters.constructor | osfmk/kern/priority.c:744 | The counters start at zero. |
| RunBuckets.RunCounters.IncrBucket | osfmk/kern/priority.c:746-753 | Adds one to a per-class counter only. |
| RunBuckets.RunCounters.DecrBucket | osfmk/kern/priority.c:755-763 | Takes one from a non-empty per-class counter only. |
| RunBuckets.RunCounters.AddBucket | osfmk/kern/priority.c:766-773 | Adds the weight to a per-class counter only. |
| RunBuckets.RunCounters.SubBucket | osfmk/kern/priority.c:775-784 | Takes the weight from a non-empty per-class counter only. |
| ThreadSched.StampCatchesUp | osfmk/kern/priority.c:646-649 | Adding the wrapped tick gap to the stamp lands exactly on the current tick. |
| ThreadSched.Refiled | osfmk/kern/priority.c:843-921 | A bucket update files the thread where its mode and base priority say. On a change it takes the new bucket's `pri_shift`, and a runnable thread's weight is moved from the old class to the new one (`Moved`). Otherwise nothing changes; the total and the balance are kept. |
| ThreadSched.Thread.CanUpdatePriority | osfmk/kern/priority.c:622-631 | A full update is allowed exactly when the tick has moved on since the stamp, that is, when the wrapped tick gap `update_priority` asserts non-zero is non-zero. |
| ThreadSched.Thread.RecomputeSchedPri | osfmk/kern/priority.c:383-431 | Stores the scheduled priority of the thread's mode, base or timeshare priority, flags and kernel promotion. |
| ThreadSched.Thread.UpdateThreadBucket | osfmk/kern/priority.c:843-881 | Refiles the thread with weight one. |
| ThreadSched.Thread.SmtUpdateThreadBucket | osfmk/kern/priority.c:883-921 | Refiles the thread with its saved run weight. |
| ThreadSched.Thread.SchedUpdateThreadBucket | osfmk/kern/priority.c:843-921 | Refiles the thread with the weight the build keeps. |
| ThreadSched.Thread.SetThreadMode | osfmk/kern/priority.c:945-967 | Sets the true mode and refiles the thread. |
| ThreadSched.Thread.SetThreadModeUser | osfmk/kern/priority.c:975-987 | The thread's mode state becomes `SetUserMode`, and it is refiled only when not demoted. |
| ThreadSched.Thread.ModeDemote | osfmk/kern/priority.c:1003-1048 | The thread's mode state becomes `Demote(reason)`, and it is refiled as timeshare only on the first demotion. |
| ThreadSched.Thread.ModeUndemote | osfmk/kern/priority.c:1064-1107 | The thread's mode state becomes `Undemote(reason)`, and it is refiled only when the last reason goes. |
| ThreadSched.Thread.PromoteReason | osfmk/kern/priority.c:1119-1151 | Adds the reason and recomputes the scheduled priority, which then reaches the reason's floor unless explicitly depressed. |
| ThreadSched.Thread.UnpromoteReason | osfmk/kern/priority.c:1160-1193 | Removes the reason and recomputes the scheduled priority. |
| ThreadSched.Thread.SetThreadBasePriority | osfmk/kern/priority.c:284-330 | Records the request, stores the frozen-clamped base priority, refiles (except under clutch) and recomputes the scheduled priority. |
| ThreadSched.Thread.SetKernelThreadPriority | osfmk/kern/priority.c:340-365 | Requests the capped and floored priority, sets the importance relative to the task priority, and sets the base priority. |
| ThreadSched.Thread.LightweightUpdatePriority | osfmk/kern/priority.c:457-500 | Charges usage to a timeshare thread only, and recomputes its priority when its timeshare priority moved. |
| ThreadSched.Thread.AgeUsage | osfmk/kern/priority.c:644-703 | The stamp catches up with the tick, and the counters become `AgedUsage` over the scaled gap. |
| ThreadSched.Thread.UpdatePriority | osfmk/kern/priority.c:641-730 | Ages the usage, lifts an expired fail-safe demotion, installs the bucket's (or clutch's) `pri_shift` and recomputes a timeshare thread's priority. Afterwards no second update is due in the same tick. |
| ThreadSched.Thread.ReleaseAndReprioritise | osfmk/kern/priority.c:705-729 | The fail-safe release, then the new `pri_shift`, then the recomputation for a timeshare thread. |
| ThreadSched.Thread.ReleaseFailsafe | osfmk/kern/priority.c:705-712 | Lifts the fail-safe demotion exactly when the release time has been reached. |
| ThreadSched.Thread.QuantumExpireFailsafe | osfmk/kern/priority.c:156-195 | Without a trip nothing changes. On a trip the release time is stored and the thread demoted. Unless the policy was reset, it is refiled as timeshare and can no longer trip. |
| ThreadSched.Thread.RunIncr | osfmk/kern/priority.c:786-796 | Counts the thread in with weight one, returns the new total and keeps the counters balanced. |
| ThreadSched.Thread.RunDecr | osfmk/kern/priority.c:798-808 | Counts the thread out with weight one, returns the new total and keeps the counters balanced. |
| ThreadSched.Thread.SmtRunIncr | osfmk/kern/priority.c:810-827 | Saves the run weight (two for a thread that keeps its SMT core to itself), counts the thread in with it and keeps the counters balanced. |
| ThreadSched.Thread.SmtRunDecr | osfmk/kern/priority.c:829-841 | Counts the thread out with its saved weight and keeps the counters balanced. |

## Left out

- The ledger, recount, timer, AST and perfcontrol work of `thread_quantum_expire`. Only its fail-safe block (lines 156-195) is modelled.
- Clocks: `mach_absolute_time()`, the quantum-expiry time and the interrupt time (`recount_current_thread_interrupt_time_mach`) are parameters. `sched_tick_delta` and `sched_tick` are parameters too.
- `set_sched_pri` is reduced to storing the priority. Its run-queue reinsertion, preemption and clutch refiling are not part of this model.
- `thread_run_queue_remove` / `thread_run_queue_reinsert` and `thread_recompute_priority` are not part of this model. The demote and undemote paths call them around the mode switch.
- The clutch scheduler (`sched_clutch_*`) is not part of this model. Its `pri_shift` is a parameter of `UpdatePriority`.
- `work_interval_auto_join_demote` (called by the demotion path) is not part of this model.
- Kdebug tracing and the `last_basepri_change_time` bookkeeping are not modelled.
- The perfcontrol callout of `sched_set_thread_base_priority` (`machine_switch_perfcontrol_state_update`, made when the current thread's base priority changes) is a call into platform code and is not part of this model; neither is the `mach_approximate_time()` read that feeds it.
- The `SCHED()` dispatch table is not modelled. The bucket update picks the SMT variant exactly on SMT builds, and `thread_no_smt` becomes a field.
- `sched_run_buckets` is not modelled at its real width. The counters are unbounded integers updated one call at a time, so neither the atomics nor the uint32 wrap-around are modelled.
- The `int16_t` fields (`base_pri`, `sched_pri`, `importance`) are unbounded integers. The preconditions keep priorities in the kernel's range, where no truncation happens.
- The priority constants and tunables are parameters rather than XNU's values. Their ordering is stated in `Bands.Valid()` and `Config.Valid()`.
- Shifts by 32 or more (undefined in C) are not modelled: `pri_shift` values are taken from the configuration, and `Shr` is the mathematical logical shift.
- The demote, undemote, promote and unpromote operations take one reason each. The C API takes a `uint32_t` bit mask, and the kernel only asserts that it meets the demotion or promotion mask and is not yet (or already) set. Restricting it to a single reason is this model's own choice. Those assertions become the preconditions `reason in DEMOTED_MASK` / `reason in PROMOTE_REASON_MASK` and `reason !in flags` / `reason in flags`.
- The kernel's `assert`s on thread state (runnable for `sched_run_incr`, not runnable for `sched_run_decr`) and on non-empty buckets become preconditions.
- TimesharePri.TimeshareClampedNoGain: proved only for inputs with `usage >> pri_shift` below 2^31 (it excludes, for instance, `pri_shift` 0 with a usage of 2^31 or more). On the excluded inputs the C conversion to `int` wraps and the subtraction can raise the priority. The wrapping `sched_usage` counter is not bounded by anything in this model.
- TimesharePri.TimeshareClampedAntitone: proved only when the larger usage shifted by `pri_shift` is below 2^31, for the same reason.
- TimesharePri.CappedDecayMonotone: proved only when the larger usage shifted by `pri_shift` is below 2^31. Beyond that the signed conversion makes the decay amount negative, so it is not monotone.
- TimesharePri.TimeshareDecayFloorAntitone: proved only when the larger usage shifted by `pri_shift` is below 2^31, for the same reason.
- RunBuckets.RunCounters.SubBucket: mirrors the kernel, which only asserts that the bucket is non-empty before taking a weight of up to two away. The result can therefore go negative, which the model permits.
- `bsd/sys/kdebug_kernel.h`, `pexpert/pexpert/arm64/H15.h` and the recount test utilities are not part of this model.
