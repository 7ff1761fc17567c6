/**
 * The timeshare priority of a thread: its base priority lowered by its
 * decayed CPU usage scaled by the load-dependent `pri_shift`. Two build
 * variants exist; both are modelled.
 */
module TimesharePri {
  import opened SchedTypes
  import opened Decay

  function Clamp(x: int, lo: int, hi: int): (r: int)
    requires lo <= hi
    ensures lo <= r <= hi
    ensures lo <= x <= hi ==> r == x
  {
    if x < lo then lo else if x > hi then hi else x
  }

  /**
   * The macOS / clutch variant: base priority minus `usage >> pri_shift`,
   * clamped to [MINPRI_USER, MAXPRI_KERNEL]. The C subtracts a `uint32_t`
   * from an `int`, so the difference is formed modulo 2^32 and read back as
   * a signed value; that is written out here.
   */
  function TimeshareClamped(b: Bands, basePri: int, priShift: nat, usage: u32): (p: int)
    requires b.Valid()
    requires b.minPri <= basePri <= b.maxPri
    ensures b.minPriUser <= p <= b.maxPriKernel
    ensures priShift == INT8_MAX ==> p == Clamp(basePri, b.minPriUser, b.maxPriKernel)
    ensures priShift != INT8_MAX && Shr(usage, priShift) < TWO_31 ==>
              p == Clamp(basePri - Shr(usage, priShift), b.minPriUser, b.maxPriKernel)
  {
    NoSignWrap(basePri, Shr(usage, priShift));
    var priority := if priShift != INT8_MAX then Int32Of(Wrap32(basePri - Shr(usage, priShift))) else basePri;
    Clamp(priority, b.minPriUser, b.maxPriKernel)
  }

  /** While the shifted usage stays below 2^31 the signed reading is the plain difference. */
  lemma NoSignWrap(basePri: int, x: nat)
    requires 0 <= basePri < 0x8000
    ensures x < TWO_31 ==> Int32Of(Wrap32(basePri - x)) == basePri - x
  {
    if x < TWO_31 && basePri - x < 0 {
      assert Wrap32(basePri - x) == basePri - x + TWO_32;
    }
  }

  /** Usage never raises the clamped timeshare priority above its base (or the user floor). */
  lemma TimeshareClampedNoGain(b: Bands, basePri: int, priShift: nat, usage: u32)
    requires b.Valid()
    requires b.minPri <= basePri <= b.maxPri
    requires Shr(usage, priShift) < TWO_31
    ensures TimeshareClamped(b, basePri, priShift, usage) <= Max(basePri, b.minPriUser)
  {
    NoSignWrap(basePri, Shr(usage, priShift));
  }

  /** More usage never gives a higher clamped timeshare priority. */
  lemma TimeshareClampedAntitone(b: Bands, basePri: int, priShift: nat, u: u32, v: u32)
    requires b.Valid()
    requires b.minPri <= basePri <= b.maxPri
    requires u <= v
    requires Shr(v, priShift) < TWO_31
    ensures TimeshareClamped(b, basePri, priShift, v) <= TimeshareClamped(b, basePri, priShift, u)
  {
    ShrMonotone(u, v, priShift);
    var x, y := Shr(u, priShift), Shr(v, priShift);
    NoSignWrap(basePri, x);
    NoSignWrap(basePri, y);
    var px := if priShift != INT8_MAX then basePri - x else basePri;
    var py := if priShift != INT8_MAX then basePri - y else basePri;
    assert TimeshareClamped(b, basePri, priShift, u) == Clamp(px, b.minPriUser, b.maxPriKernel);
    assert TimeshareClamped(b, basePri, priShift, v) == Clamp(py, b.minPriUser, b.maxPriKernel);
  }

  /** `decay_limit`: the band limit, widened by how far the base sits above BASEPRI_FOREGROUND. */
  function DecayLimit(b: Bands, bandLimit: int, basePri: int): (l: int)
    ensures l >= bandLimit
    ensures basePri <= b.basePriForeground ==> l == bandLimit
    ensures basePri - l == Min(basePri, b.basePriForeground) - bandLimit
  {
    if basePri > b.basePriForeground then bandLimit + (basePri - b.basePriForeground) else bandLimit
  }

  /**
   * The decay-floor variant (non-macOS, non-clutch): the amount subtracted is
   * capped by `DecayLimit`; a result below MAXPRI_THROTTLE is lifted to
   * MAXPRI_THROTTLE when the task may run above it, else to MINPRI_USER.
   */
  function TimeshareDecayFloor(b: Bands, bandLimit: int, basePri: int, priShift: nat, usage: u32, taskMaxPri: int): (p: int)
    requires b.Valid()
    requires b.minPri <= basePri <= b.maxPri
    ensures b.minPriUser <= p <= b.maxPriKernel
    ensures p >= Min(basePri - DecayLimit(b, bandLimit, basePri), b.maxPriKernel)
    ensures taskMaxPri > b.maxPriThrottle ==> p >= b.maxPriThrottle
    ensures var amount := Min(Shr(usage, priShift), DecayLimit(b, bandLimit, basePri));
            priShift != INT8_MAX && Shr(usage, priShift) < TWO_31 ==>
              && p == ThrottleFloor(b, basePri - amount, taskMaxPri)
              && (b.maxPriThrottle <= basePri - amount <= b.maxPriKernel ==> p == basePri - amount)
  {
    ThrottleFloor(b, basePri - CappedDecay(DecayLimit(b, bandLimit, basePri), priShift, usage), taskMaxPri)
  }

  /** The amount the decay-floor variant subtracts: the signed shifted usage, capped by the limit. */
  function CappedDecay(limit: int, priShift: nat, usage: u32): (a: int)
    ensures a <= limit
    ensures priShift == INT8_MAX ==> a == Min(0, limit)
    ensures priShift != INT8_MAX && Shr(usage, priShift) < TWO_31 ==> a == Min(Shr(usage, priShift), limit)
  {
    var amount := if priShift == INT8_MAX then 0 else Int32Of(Shr(usage, priShift));
    if amount > limit then limit else amount
  }

  /** More usage never gives a smaller capped decay amount. */
  lemma CappedDecayMonotone(limit: int, priShift: nat, u: u32, v: u32)
    requires u <= v
    requires Shr(v, priShift) < TWO_31
    ensures CappedDecay(limit, priShift, u) <= CappedDecay(limit, priShift, v)
  {
    ShrMonotone(u, v, priShift);
  }

  /** The final clamp of the decay-floor variant. */
  function ThrottleFloor(b: Bands, priority: int, taskMaxPri: int): (p: int)
    requires b.Valid()
    ensures b.minPriUser <= p <= b.maxPriKernel
    ensures p >= Min(priority, b.maxPriKernel)
    ensures taskMaxPri > b.maxPriThrottle ==> p >= b.maxPriThrottle
    ensures b.maxPriThrottle <= priority <= b.maxPriKernel ==> p == priority
    ensures priority > b.maxPriKernel ==> p == b.maxPriKernel
    ensures priority < b.maxPriThrottle && taskMaxPri > b.maxPriThrottle ==> p == b.maxPriThrottle
    ensures priority < b.maxPriThrottle && taskMaxPri <= b.maxPriThrottle ==> p == Max(priority, b.minPriUser)
  {
    if priority < b.maxPriThrottle then
      if taskMaxPri > b.maxPriThrottle then b.maxPriThrottle
      else if priority < b.minPriUser then b.minPriUser
      else priority
    else if priority > b.maxPriKernel then b.maxPriKernel
    else priority
  }

  lemma ThrottleFloorMonotone(b: Bands, x: int, y: int, taskMaxPri: int)
    requires b.Valid()
    requires x <= y
    ensures ThrottleFloor(b, x, taskMaxPri) <= ThrottleFloor(b, y, taskMaxPri)
  {
  }

  /** Without contention (and a non-negative band limit) the decay-floor result is the base priority. */
  lemma TimeshareDecayFloorUncontended(b: Bands, bandLimit: int, basePri: int, usage: u32, taskMaxPri: int)
    requires b.Valid()
    requires b.maxPriThrottle <= basePri <= b.maxPriKernel
    requires bandLimit >= 0
    ensures TimeshareDecayFloor(b, bandLimit, basePri, INT8_MAX, usage, taskMaxPri) == basePri
  {
  }

  /** More usage never gives a higher decay-floor timeshare priority. */
  lemma TimeshareDecayFloorAntitone(b: Bands, bandLimit: int, basePri: int, priShift: nat, u: u32, v: u32, taskMaxPri: int)
    requires b.Valid()
    requires b.minPri <= basePri <= b.maxPri
    requires u <= v
    requires Shr(v, priShift) < TWO_31
    ensures TimeshareDecayFloor(b, bandLimit, basePri, priShift, v, taskMaxPri)
            <= TimeshareDecayFloor(b, bandLimit, basePri, priShift, u, taskMaxPri)
  {
    var limit := DecayLimit(b, bandLimit, basePri);
    CappedDecayMonotone(limit, priShift, u, v);
    ThrottleFloorMonotone(b, basePri - CappedDecay(limit, priShift, v), basePri - CappedDecay(limit, priShift, u), taskMaxPri);
  }

  /** The timeshare priority the build uses. */
  function TimesharePriority(cfg: Config, basePri: int, priShift: nat, usage: u32, taskMaxPri: int): (p: int)
    requires cfg.Valid()
    requires cfg.bands.minPri <= basePri <= cfg.bands.maxPri
    ensures cfg.bands.minPriUser <= p <= cfg.bands.maxPriKernel
  {
    if cfg.DecayFloorVariant() then
      TimeshareDecayFloor(cfg.bands, cfg.decayBandLimit, basePri, priShift, usage, taskMaxPri)
    else
      TimeshareClamped(cfg.bands, basePri, priShift, usage)
  }

  /** With no usage charged, the timeshare priority of a thread in the user band is its base priority. */
  lemma TimeshareIdle(cfg: Config, basePri: int, priShift: nat, taskMaxPri: int)
    requires cfg.Valid()
    requires cfg.bands.maxPriThrottle <= basePri <= cfg.bands.maxPriKernel
    requires cfg.decayBandLimit >= 0
    ensures TimesharePriority(cfg, basePri, priShift, 0, taskMaxPri) == basePri
  {
    ShrZero(priShift);
    NoSignWrap(basePri, 0);
  }
}
