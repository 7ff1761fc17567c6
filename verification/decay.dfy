/**
 * Shift-based usage aging: the logical right shift, the 32-row
 * `sched_decay_shifts` table approximating (5/8)^n, and the usage
 * bookkeeping of one scheduler-tick update.
 */
module Decay {
  import opened SchedTypes

  /** `u >> s` on an unsigned value, as repeated halving. */
  function Shr(u: nat, s: nat): (r: nat)
    ensures r <= u
    decreases s
  {
    if s == 0 then u else Shr(u / 2, s - 1)
  }

  lemma {:induction false} ShrStep(u: nat, s: nat)
    ensures Shr(u, s + 1) == Shr(u, s) / 2
    decreases s
  {
    if s > 0 {
      ShrStep(u / 2, s - 1);
    }
  }

  /** Shifting further never gives more. */
  lemma {:induction false} ShrAntitone(u: nat, s: nat, t: nat)
    requires s <= t
    ensures Shr(u, t) <= Shr(u, s)
    decreases t - s
  {
    if s < t {
      ShrAntitone(u, s, t - 1);
      ShrStep(u, t - 1);
    }
  }

  /** Shifting a larger value never gives less. */
  lemma {:induction false} ShrMonotone(u: nat, v: nat, s: nat)
    requires u <= v
    ensures Shr(u, s) <= Shr(v, s)
    decreases s
  {
    if s > 0 {
      ShrMonotone(u / 2, v / 2, s - 1);
    }
  }

  lemma {:induction false} ShrZero(s: nat)
    ensures Shr(0, s) == 0
    decreases s
  {
    if s > 0 {
      ShrZero(s - 1);
    }
  }

  /** A shift by at least one halves: two of them fit in the original. */
  lemma ShrHalf(u: nat, s: nat)
    requires s >= 1
    ensures 2 * Shr(u, s) <= u
  {
    ShrAntitone(u, 1, s);
    assert Shr(u, 1) == u / 2;
  }

  /** A shift by at least two quarters. */
  lemma ShrQuarter(u: nat, s: nat)
    requires s >= 2
    ensures 4 * Shr(u, s) <= u
  {
    ShrAntitone(u, 2, s);
    ShrStep(u, 1);
    assert Shr(u, 1) == u / 2;
  }

  /** One row of the decay table: usage = (usage >> shift1) +/- (usage >> |shift2|). */
  datatype ShiftData = ShiftData(shift1: int, shift2: int)

  /** The table `sched_decay_shifts`; row n approximates multiplication by (5/8)^n. */
  const DECAY_SHIFTS: seq<ShiftData> := [
    ShiftData(1, 1),   ShiftData(1, 3),   ShiftData(1, -3),  ShiftData(2, -7),
    ShiftData(3, 5),   ShiftData(3, -5),  ShiftData(4, -8),  ShiftData(5, 7),
    ShiftData(5, -7),  ShiftData(6, -10), ShiftData(7, 10),  ShiftData(7, -9),
    ShiftData(8, -11), ShiftData(9, 12),  ShiftData(9, -11), ShiftData(10, -13),
    ShiftData(11, 14), ShiftData(11, -13), ShiftData(12, -15), ShiftData(13, 17),
    ShiftData(13, -15), ShiftData(14, -17), ShiftData(15, 19), ShiftData(16, 18),
    ShiftData(16, -19), ShiftData(17, 22), ShiftData(18, 20), ShiftData(18, -20),
    ShiftData(19, 26), ShiftData(20, 22), ShiftData(20, -22), ShiftData(21, -27)
  ]

  /**
   * The shape every row must have for the update to stay within [0, usage]:
   * a positive second shift is no smaller than the first, and a negative one
   * is larger in magnitude than the first, so the subtraction cannot underflow.
   */
  predicate RowWellFormed(row: ShiftData) {
    && 1 <= row.shift1
    && row.shift2 != 0
    && (row.shift2 > 0 ==> row.shift2 >= row.shift1)
    && (row.shift2 < 0 ==> -row.shift2 > row.shift1)
  }

  lemma DecayTableWellFormed()
    ensures |DECAY_SHIFTS| == SCHED_DECAY_TICKS
    ensures forall i :: 0 <= i < |DECAY_SHIFTS| ==> RowWellFormed(DECAY_SHIFTS[i])
  {
  }

  /** Every row past the first shifts by at least two on the "plus" side. */
  lemma DecayTableShrinks()
    ensures forall i :: 1 <= i < |DECAY_SHIFTS| && DECAY_SHIFTS[i].shift2 > 0 ==> DECAY_SHIFTS[i].shift2 >= 2
  {
  }

  /**
   * One decay step on a 32-bit usage counter, with the C expression's
   * unsigned wrap-around written out. The result never exceeds the input.
   */
  function DecayUsage(u: u32, row: ShiftData): (r: u32)
    requires RowWellFormed(row)
    ensures r <= u
    ensures row.shift2 > 0 ==> r == Shr(u, row.shift1) + Shr(u, row.shift2)
    ensures row.shift2 < 0 ==> r == Shr(u, row.shift1) - Shr(u, -row.shift2)
  {
    if row.shift2 > 0 then
      ShrHalf(u, row.shift1);
      ShrAntitone(u, row.shift1, row.shift2);
      Wrap32(Shr(u, row.shift1) + Shr(u, row.shift2))
    else
      ShrAntitone(u, row.shift1, -row.shift2);
      Wrap32(Shr(u, row.shift1) - Shr(u, -row.shift2))
  }

  /** Past the first row a decay step strictly shrinks any positive usage. */
  lemma DecayStrict(u: u32, i: nat)
    requires 1 <= i < |DECAY_SHIFTS|
    requires u > 0
    ensures DecayUsage(u, DECAY_SHIFTS[i]) < u
  {
    DecayTableWellFormed();
    DecayTableShrinks();
    var row := DECAY_SHIFTS[i];
    ShrHalf(u, row.shift1);
    if row.shift2 > 0 {
      ShrQuarter(u, row.shift2);
      assert Shr(u, row.shift1) <= u / 2;
      assert Shr(u, row.shift2) <= u / 4;
    } else {
      ShrAntitone(u, row.shift1, -row.shift2);
    }
  }

  /** Zero usage stays zero. */
  lemma DecayZero(i: nat)
    requires i < |DECAY_SHIFTS|
    ensures DecayUsage(0, DECAY_SHIFTS[i]) == 0
  {
    DecayTableWellFormed();
    ShrZero(DECAY_SHIFTS[i].shift1);
    ShrZero(if DECAY_SHIFTS[i].shift2 > 0 then DECAY_SHIFTS[i].shift2 else -DECAY_SHIFTS[i].shift2);
  }

  /** Decay is monotone: more usage before never means less after. */
  lemma DecayMonotone(u: u32, v: u32, i: nat)
    requires i < |DECAY_SHIFTS|
    requires u <= v
    ensures DecayUsage(u, DECAY_SHIFTS[i]) <= DecayUsage(v, DECAY_SHIFTS[i])
  {
    DecayTableWellFormed();
    var row := DECAY_SHIFTS[i];
    ShrMonotone(u, v, row.shift1);
    if row.shift2 > 0 {
      ShrMonotone(u, v, row.shift2);
    } else {
      ShrDifferenceMonotone(u, v, row.shift1, -row.shift2);
    }
  }

  /** (u >> a) - (u >> b), for a <= b, grows with u. */
  lemma {:induction false} ShrDifferenceMonotone(u: nat, v: nat, a: nat, b: nat)
    requires u <= v && a <= b
    ensures Shr(u, a) - Shr(u, b) <= Shr(v, a) - Shr(v, b)
    decreases b
  {
    ShrAntitone(u, a, b);
    ShrAntitone(v, a, b);
    if a == b {
    } else {
      ShrDifferenceMonotone(u, v, a, b - 1);
      ShrStep(u, b - 1);
      ShrStep(v, b - 1);
      ShrAntitone(u, a, b - 1);
      ShrAntitone(v, a, b - 1);
      ShrMonotone(u, v, b - 1);
      HalfComplementMonotone(Shr(u, a), Shr(u, b - 1), Shr(v, a), Shr(v, b - 1));
    }
  }

  /** Halving the subtracted terms keeps the order of the differences. */
  lemma HalfComplementMonotone(p: nat, x: nat, q: nat, y: nat)
    requires p - x <= q - y
    requires x <= y
    ensures p - x / 2 <= q - y / 2
  {
  }

  /** The usage counters a tick update ages: `sched_usage`, `cpu_usage`, `cpu_delta`. */
  datatype Usage = Usage(sched: u32, cpu: u32, delta: u32)

  /**
   * Charging a window's CPU time to `sched_usage`: only while the thread's
   * bucket is contended (`pri_shift < INT8_MAX`), plus the SMT bonus of
   * `(delta * bonus16ths) >> 4` for a thread that keeps its core to itself.
   * The counter is a `uint32_t` and wraps.
   */
  function ChargeSchedUsage(usage: u32, delta: u32, priShift: nat, bonus: bool, bonus16ths: u32): (r: u32)
    ensures priShift >= INT8_MAX ==> r == usage
    ensures priShift < INT8_MAX && !bonus ==> r == Wrap32(usage + delta)
    ensures priShift < INT8_MAX && bonus ==> r == Wrap32(usage + Wrap32(delta * bonus16ths) / 16 + delta)
  {
    if priShift < INT8_MAX then
      var withBonus := if bonus then Wrap32(usage + Wrap32(delta * bonus16ths) / 16) else usage;
      WrapAdd(usage + Wrap32(delta * bonus16ths) / 16, delta);
      Wrap32(withBonus + delta)
    else
      usage
  }

  /** The tick gap after `sched_decay_usage_age_factor` acceleration (32-bit multiply). */
  function ScaledTicks(ageFactor: u32, ticks: u32): (r: u32)
    ensures ageFactor <= 1 ==> r == ticks
    ensures ageFactor > 1 && ticks * ageFactor < TWO_32 ==> r == ticks * ageFactor
  {
    if ageFactor > 1 then MulNonNegative(ticks, ageFactor); Wrap32(ticks * ageFactor) else ticks
  }

  /**
   * The usage counters after one `update_priority` over a (scaled) gap of
   * `ticks` scheduler ticks: charge the window, fold `cpu_delta` into
   * `cpu_usage`, then age both by row `ticks` of the decay table; a gap of
   * SCHED_DECAY_TICKS or more forgets all usage.
   */
  function AgedUsage(ticks: u32, u: Usage, delta: u32, priShift: nat, bonus: bool, bonus16ths: u32): (r: Usage)
    ensures ticks >= SCHED_DECAY_TICKS ==> r == Usage(0, 0, 0)
    ensures ticks < SCHED_DECAY_TICKS ==>
              && r.delta == 0
              && r.sched <= ChargeSchedUsage(u.sched, delta, priShift, bonus, bonus16ths)
              && r.cpu <= Wrap32(u.cpu + delta + u.delta)
    ensures ticks < SCHED_DECAY_TICKS && priShift >= INT8_MAX ==> r.sched <= u.sched
    ensures ticks < SCHED_DECAY_TICKS ==>
              RowWellFormed(DECAY_SHIFTS[ticks])
              && r == Usage(DecayUsage(ChargeSchedUsage(u.sched, delta, priShift, bonus, bonus16ths), DECAY_SHIFTS[ticks]),
                            DecayUsage(Wrap32(u.cpu + delta + u.delta), DECAY_SHIFTS[ticks]),
                            0)
  {
    if ticks < SCHED_DECAY_TICKS then
      DecayTableWellFormed();
      var row := DECAY_SHIFTS[ticks];
      var sched := ChargeSchedUsage(u.sched, delta, priShift, bonus, bonus16ths);
      var cpu := Wrap32(u.cpu + delta + u.delta);
      Usage(DecayUsage(sched, row), DecayUsage(cpu, row), 0)
    else
      Usage(0, 0, 0)
  }

  /** A thread that did not run in the window and had no usage keeps none. */
  lemma AgedUsageIdle(ticks: u32, u: Usage, priShift: nat, bonus: bool, bonus16ths: u32)
    requires u.sched == 0
    ensures AgedUsage(ticks, u, 0, priShift, bonus, bonus16ths).sched == 0
  {
    if ticks < SCHED_DECAY_TICKS {
      DecayZero(ticks);
    }
  }

  /** Over a gap of at least one tick, positive uncharged usage strictly decays. */
  lemma AgedUsageDecays(ticks: u32, u: Usage, delta: u32, bonus: bool, bonus16ths: u32, priShift: nat)
    requires 1 <= ticks
    requires priShift >= INT8_MAX
    requires u.sched > 0
    ensures AgedUsage(ticks, u, delta, priShift, bonus, bonus16ths).sched < u.sched
  {
    if ticks < SCHED_DECAY_TICKS {
      DecayStrict(u.sched, ticks);
    }
  }

  /** Ageing is monotone in the usage carried in. */
  lemma AgedUsageMonotone(ticks: u32, u: Usage, v: Usage, priShift: nat)
    requires priShift >= INT8_MAX
    requires u.sched <= v.sched
    ensures AgedUsage(ticks, u, 0, priShift, false, 0).sched <= AgedUsage(ticks, v, 0, priShift, false, 0).sched
  {
    if ticks < SCHED_DECAY_TICKS {
      DecayMonotone(u.sched, v.sched, ticks);
    }
  }
}
