/**
 * The scheduling-mode demotion state machine: a set of demotion reasons
 * shares one `saved_mode` slot. The first reason parks the thread's true
 * mode there and makes it timeshare; the last reason to go restores it.
 * While demoted, the mode a user sets or reads is the saved one.
 */
module ModeDemotion {
  import opened SchedTypes

  /** The part of a thread record the state machine reads and writes. */
  datatype ModeState = ModeState(mode: Mode, saved: Mode, flags: set<SFlag>, policyReset: bool) {

    /** Some demotion reason (a bit of DEMOTED_MASK) is active. */
    predicate Demoted()
      ensures Demoted() <==> flags * DEMOTED_MASK != {}
    {
      assert Throttled in flags ==> Throttled in flags * DEMOTED_MASK;
      assert Failsafe in flags ==> Failsafe in flags * DEMOTED_MASK;
      assert RtDisallowed in flags ==> RtDisallowed in flags * DEMOTED_MASK;
      Throttled in flags || Failsafe in flags || RtDisallowed in flags
    }

    /**
     * The state the transitions keep: the true mode is a valid mode; a
     * demoted thread runs timeshare with its own mode parked in `saved`,
     * an undemoted one has nothing parked.
     */
    predicate Valid() {
      && ValidMode(mode)
      && (Demoted() ==> mode == Timeshare && ValidMode(saved))
      && (!Demoted() ==> saved == ModeNone)
    }

    /** `sched_get_thread_mode_user`: the mode the user asked for. */
    function UserMode(): (m: Mode)
      requires Valid()
      ensures ValidMode(m)
      ensures !Demoted() ==> m == mode
      ensures Demoted() ==> m == saved
    {
      if Demoted() then saved else mode
    }

    /**
     * `sched_set_thread_mode_user`: while demoted only the parked mode
     * changes; otherwise the true mode does.
     */
    function SetUserMode(m: Mode): (s: ModeState)
      requires Valid()
      requires ValidMode(m)
      ensures s.Valid()
      ensures s.UserMode() == m
      ensures s.flags == flags && s.policyReset == policyReset
      ensures Demoted() ==> s.mode == mode
    {
      if Demoted() then this.(saved := m) else this.(mode := m)
    }

    /**
     * `sched_thread_mode_demote`: nothing happens once the policy has been
     * reset; a further reason only adds its bit; the first reason parks the
     * true mode and switches to timeshare.
     */
    function Demote(reason: SFlag): (s: ModeState)
      requires Valid()
      requires reason in DEMOTED_MASK
      requires reason !in flags
      ensures s.Valid()
      ensures s.UserMode() == UserMode()
      ensures s.policyReset == policyReset
      ensures policyReset ==> s == this
      ensures !policyReset ==> s.Demoted() && s.mode == Timeshare && s.flags == flags + {reason}
      ensures !policyReset ==> s.saved == (if Demoted() then saved else mode)
    {
      if policyReset then
        this
      else if Demoted() then
        this.(flags := flags + {reason})
      else
        assert reason in (flags + {reason}) * DEMOTED_MASK;
        this.(flags := flags + {reason}, saved := mode, mode := Timeshare)
    }

    /** `sched_thread_mode_has_demotion`: a thread carrying a demotion reason is demoted, hence timeshare. */
    predicate HasDemotion(reason: SFlag)
      requires reason in DEMOTED_MASK
      ensures HasDemotion(reason) ==> Demoted()
      ensures Valid() && HasDemotion(reason) ==> mode == Timeshare
    {
      assert reason in flags ==> reason in flags * DEMOTED_MASK;
      reason in flags
    }

    /**
     * `sched_thread_mode_undemote`: clear the reason (re-arming fail-safe
     * reporting when the reason is the fail-safe); when no reason is left,
     * restore the parked mode and empty the slot.
     */
    function Undemote(reason: SFlag): (s: ModeState)
      requires Valid()
      requires reason in DEMOTED_MASK
      requires reason in flags
      requires !policyReset
      ensures s.Valid()
      ensures s.UserMode() == UserMode()
      ensures reason !in s.flags
      ensures s.flags == flags - {reason} - (if reason == Failsafe then {FailsafeReported} else {})
      ensures s.policyReset == policyReset
      ensures s.Demoted() ==> s.mode == Timeshare && s.saved == saved
      ensures !s.Demoted() ==> s.mode == saved && s.saved == ModeNone
    {
      assert reason in flags * DEMOTED_MASK;
      var cleared := flags - {reason} - (if reason == Failsafe then {FailsafeReported} else {});
      if this.(flags := cleared).Demoted() then
        this.(flags := cleared)
      else
        this.(flags := cleared, mode := saved, saved := ModeNone)
    }
  }

  /**
   * Demoting an undemoted thread and lifting the same reason gives the
   * thread back its mode and flags (less a fail-safe report, which the
   * fail-safe undemotion re-arms).
   */
  lemma DemoteUndemoteRoundTrip(s: ModeState, reason: SFlag)
    requires s.Valid()
    requires !s.Demoted() && !s.policyReset
    requires reason in DEMOTED_MASK
    ensures reason !in s.flags
    ensures s.Demote(reason).Undemote(reason)
            == s.(flags := s.flags - (if reason == Failsafe then {FailsafeReported} else {}))
  {
    assert reason in s.flags ==> reason in s.flags * DEMOTED_MASK;
    var d := s.Demote(reason);
    assert d.flags - {reason} == s.flags;
    var cleared := d.flags - {reason} - (if reason == Failsafe then {FailsafeReported} else {});
    assert cleared * DEMOTED_MASK == {};
  }

  /**
   * Two nested demotions, lifted in either order: the thread stays timeshare
   * with its mode parked until the last reason goes, and then gets that
   * mode back.
   */
  lemma NestedDemotion(s: ModeState, r1: SFlag, r2: SFlag, liftFirst: bool)
    requires s.Valid()
    requires !s.Demoted() && !s.policyReset
    requires r1 in DEMOTED_MASK && r2 in DEMOTED_MASK && r1 != r2
    ensures r1 !in s.flags && r2 !in s.flags
    ensures var d := s.Demote(r1).Demote(r2);
            var first := if liftFirst then r1 else r2;
            var second := if liftFirst then r2 else r1;
            && d.Undemote(first).Demoted()
            && d.Undemote(first).mode == Timeshare
            && d.Undemote(first).saved == s.mode
            && d.Undemote(first).Undemote(second).mode == s.mode
            && !d.Undemote(first).Undemote(second).Demoted()
  {
    assert r1 in s.flags ==> r1 in s.flags * DEMOTED_MASK;
    assert r2 in s.flags ==> r2 in s.flags * DEMOTED_MASK;
    var d1 := s.Demote(r1);
    assert r2 !in d1.flags;
    var d := d1.Demote(r2);
    var first := if liftFirst then r1 else r2;
    var second := if liftFirst then r2 else r1;
    var u := d.Undemote(first);
    assert second in u.flags && second in u.flags * DEMOTED_MASK;
    assert u.saved == s.mode;
    var w := u.Undemote(second);
    assert !w.Demoted();
  }

  /** While demoted, setting the user mode leaves the true (timeshare) mode alone and is what undemotion restores. */
  lemma SetUserModeWhileDemoted(s: ModeState, m: Mode, reason: SFlag)
    requires s.Valid()
    requires ValidMode(m)
    requires reason in DEMOTED_MASK && s.flags * DEMOTED_MASK == {reason}
    requires !s.policyReset
    ensures s.SetUserMode(m).mode == Timeshare
    ensures s.SetUserMode(m).Undemote(reason).mode == m
  {
    assert reason in s.flags * DEMOTED_MASK;
    var t := s.SetUserMode(m);
    var cleared := t.flags - {reason} - (if reason == Failsafe then {FailsafeReported} else {});
    assert cleared * DEMOTED_MASK == {};
  }
}
