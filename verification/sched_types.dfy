/**
 * Vocabulary shared by the model of the priority and decay engine:
 * machine integer widths, scheduling modes, the `sched_flags` bits,
 * run buckets, the priority bands and the scheduler tunables.
 */
module SchedTypes {

  /** `uint32_t` and `uint64_t` values. */
  type u32 = x: nat | x < 0x1_0000_0000
  type u64 = x: nat | x < 0x1_0000_0000_0000_0000

  const TWO_32: nat := 0x1_0000_0000
  const TWO_31: nat := 0x8000_0000
  const TWO_64: nat := 0x1_0000_0000_0000_0000

  /** The `pri_shift` sentinel meaning "no contention: do not age or charge usage". */
  const INT8_MAX: nat := 127

  /** Number of rows of the usage decay table; a tick gap this large resets usage. */
  const SCHED_DECAY_TICKS: nat := 32

  /** Arithmetic modulo 2^32, as `uint32_t` arithmetic wraps. */
  function Wrap32(x: int): (r: u32)
    ensures 0 <= x < TWO_32 ==> r == x
  {
    x % TWO_32
  }

  /** Wrapping an intermediate result does not change the final wrapped value. */
  lemma WrapAdd(x: int, y: int)
    ensures Wrap32(Wrap32(x) + y) == Wrap32(x + y)
  {
    var q := x / TWO_32;
    assert x == q * TWO_32 + Wrap32(x);
    var z := x + y;
    assert Wrap32(x) + y == z - q * TWO_32;
    var a, r := z / TWO_32, z % TWO_32;
    assert z - q * TWO_32 == (a - q) * TWO_32 + r;
  }

  /** The product of two naturals is a natural (a hint for the non-linear arithmetic of tick scaling). */
  lemma MulNonNegative(a: nat, b: nat)
    ensures a * b >= 0
    ensures b >= 1 ==> a * b >= a
  {
    if b >= 1 {
      assert a * b == a + a * (b - 1);
    }
  }

  /** Arithmetic modulo 2^64, as `uint64_t` arithmetic wraps. */
  function Wrap64(x: int): (r: u64)
    ensures 0 <= x < TWO_64 ==> r == x
  {
    x % TWO_64
  }

  /** Two's-complement reading of a 32-bit pattern, as a `uint32_t` stored into an `int`. */
  function Int32Of(x: u32): (r: int)
    ensures -(TWO_31 as int) <= r < TWO_31
    ensures x < TWO_31 ==> r == x
    ensures x >= TWO_31 ==> r == x - TWO_32
  {
    if x < TWO_31 then x else x - TWO_32
  }

  function Max(a: int, b: int): (m: int)
    ensures m >= a && m >= b
    ensures m == a || m == b
  {
    if a >= b then a else b
  }

  function Min(a: int, b: int): (m: int)
    ensures m <= a && m <= b
    ensures m == a || m == b
  {
    if a <= b then a else b
  }

  /** Scheduling modes; `ModeNone` only ever appears as the saved mode of an undemoted thread. */
  datatype Mode = ModeNone | Fixed | Timeshare | Realtime

  /** A mode that `sched_validate_mode` accepts. */
  predicate ValidMode(m: Mode) { m == Fixed || m == Timeshare || m == Realtime }

  /** The bits of `sched_flags` that the engine reads or writes. */
  datatype SFlag =
    | Depress          // explicit depression (thread_yield_internal)
    | PollDepress      // poll-depress, overridden by promotions
    | RwPromoted
    | WaitqPromoted
    | ExecPromoted
    | FloorPromoted
    | Throttled        // demotion reasons ...
    | Failsafe
    | RtDisallowed
    | FailsafeReported // a fail-safe trip has been logged
    | BasePriFrozen    // base priority may not decrease

  /** TH_SFLAG_DEMOTED_MASK */
  const DEMOTED_MASK: set<SFlag> := {Throttled, Failsafe, RtDisallowed}

  /** TH_SFLAG_PROMOTE_REASON_MASK */
  const PROMOTE_REASON_MASK: set<SFlag> := {RwPromoted, WaitqPromoted, ExecPromoted, FloorPromoted}

  /** Run buckets: the total of runnable threads, and one bucket per class of them. */
  datatype Bucket = FixPri | ShareFG | ShareDF | ShareUT | ShareBG | Run

  const NUM_BUCKETS: nat := 6

  /** Position of a bucket in `sched_run_buckets` and `sched_pri_shifts`. */
  function Index(b: Bucket): (i: nat)
    ensures i < NUM_BUCKETS
    ensures (b == Run) <==> i == 5
  {
    match b
    case FixPri => 0
    case ShareFG => 1
    case ShareDF => 2
    case ShareUT => 3
    case ShareBG => 4
    case Run => 5
  }

  /**
   * The priority constants the engine compares against. Their numeric values
   * live outside this file; the model keeps them symbolic and assumes only the
   * ordering that the platform's priority bands have.
   */
  datatype Bands = Bands(
    minPri: int,            // MINPRI
    maxPri: int,            // MAXPRI
    basePriRtQueues: int,   // BASEPRI_RTQUEUES
    maxPriKernel: int,      // MAXPRI_KERNEL
    minPriUser: int,        // MINPRI_USER
    maxPriThrottle: int,    // MAXPRI_THROTTLE
    basePriUtility: int,    // BASEPRI_UTILITY
    basePriDefault: int,    // BASEPRI_DEFAULT
    basePriForeground: int, // BASEPRI_FOREGROUND
    depressPri: int,        // DEPRESSPRI
    maxPriPromote: int,     // MAXPRI_PROMOTE
    minPriRwLock: int,      // MINPRI_RWLOCK
    minPriWaitq: int,       // MINPRI_WAITQ
    minPriExec: int,        // MINPRI_EXEC
    minPriFloor: int        // MINPRI_FLOOR
  ) {
    predicate Valid() {
      && 0 <= minPri <= minPriUser <= maxPriThrottle
      && maxPriThrottle < basePriUtility < basePriDefault < basePriForeground
      && basePriForeground <= maxPriKernel < basePriRtQueues <= maxPri < 0x8000
      && minPri <= depressPri <= maxPri
      && minPri <= maxPriPromote <= maxPri
      && minPri <= minPriRwLock <= maxPri
      && minPri <= minPriWaitq <= maxPri
      && minPri <= minPriExec <= maxPri
      && minPri <= minPriFloor <= maxPri
    }

    /** The priority floor a promotion reason guarantees. */
    function PromotionFloor(r: SFlag): int
      requires r in PROMOTE_REASON_MASK
    {
      match r
      case RwPromoted => minPriRwLock
      case WaitqPromoted => minPriWaitq
      case ExecPromoted => minPriExec
      case FloorPromoted => minPriFloor
    }
  }

  /** Build configuration: the conditional-compilation choices the engine depends on. */
  datatype Build = Build(
    osx: bool,    // XNU_TARGET_OS_OSX
    clutch: bool, // CONFIG_SCHED_CLUTCH
    smt: bool     // CONFIG_SCHED_SMT
  )

  /** Priority bands, build options and the scheduler's global tunables. */
  datatype Config = Config(
    bands: Bands,
    build: Build,
    decayBandLimit: int,          // sched_pri_decay_band_limit
    ageFactor: u32,               // sched_decay_usage_age_factor
    smtTimeshareEnabled: bool,    // smt_timeshare_enabled
    smtBonus16ths: u32,           // smt_sched_bonus_16ths
    priShifts: seq<nat>,          // sched_pri_shifts, indexed by bucket
    maxUnsafeRtComputation: u64,  // max_unsafe_rt_computation
    maxUnsafeFixedComputation: u64,
    safeRtDuration: u64,          // sched_safe_rt_duration
    safeFixedDuration: u64
  ) {
    predicate Valid() {
      bands.Valid() && |priShifts| == NUM_BUCKETS
    }

    /** The decay-floor timeshare computation is built on non-macOS, non-clutch kernels. */
    predicate DecayFloorVariant() {
      !build.osx && !build.clutch
    }

    /** Whether a no-SMT thread is charged the SMT usage bonus and run weight. */
    predicate SmtBonus(noSmt: bool) {
      build.smt && noSmt && smtTimeshareEnabled
    }

    function PriShift(b: Bucket): nat
      requires Valid()
    {
      priShifts[Index(b)]
    }
  }

  datatype Option<T> = None | Some(value: T)
}
