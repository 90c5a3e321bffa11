/** A workspace from its creation to its archive and back, and nothing ever goes wrong: it is
    provisioned, started, worked in, stopped, archived and restored, each operation observed to
    its end. */
module Life {
  import opened Domain
  import opened Archive
  import opened Planner
  import opened Actuator
  import opened Controller
  import opened System
  import opened Safety
  import opened Staleness
  import opened Contents
  import opened Convergence

  predicate Faultless(s: Sys, step: Step) {
    Careful(s, step) && OnTime(s, step)
  }

  /** An effect that brings no volume, packs nothing over a whole archive, and about which the
      environment has nothing to decide is always allowed. */
  lemma PlainAct(s: Sys)
    requires s.wc.Busy? && (s.wc.tick.pc.Mount? || s.wc.tick.pc.CreateContainer? ==> s.res.volume.Some?)
    requires s.wc.tick.pc.PutTar? && s.wc.tick.action.operation == Archiving ==>
               BothPresent(SlotOf(s.res, s.wc.tick.opId)) ==> VolumeIsHome(s)
    ensures Careful(s, Act(NO_CHOICE)) && OnTime(s, Act(NO_CHOICE))
    ensures GcTimely(s, Act(NO_CHOICE)) && SealKeeps(s, Act(NO_CHOICE))
  {
  }

  ghost predicate Allows(rule: (Sys, Step) -> bool) {
    forall s, step :: Faultless(s, step) ==> rule(s, step)
  }

  /** After an observation that nothing disturbs. */
  function Looked(s: Sys): Sys
    requires s.row.Some?
  {
    s.(row := Some(s.row.value.(conditions := Faithful(s.res))), tainted := s.tainted && OperationUnderWay(s))
  }

  lemma ListingIsFaultless(s: Sys, step: Step)
    requires step.ObserveBegin? || step.ListContainer? || step.ListArchive? || step.ListVolume?
    requires step.ListVolume? && Live(s.row) && CurrentOperation(s) == Archiving && StoredDone(s.row.value.conditions) ==>
               s.res.volume.None?
    ensures Faultless(s, step)
  {
  }

  lemma ReachListed(s: Sys, rule: (Sys, Step) -> bool)
    requires Reachable(s, rule) && Allows(rule) && Live(s.row) && s.obs.NoListing?
    requires CurrentOperation(s) == Archiving && StoredDone(s.row.value.conditions) ==> s.res.volume.None?
    ensures var seen := Faithful(s.res);
            Reachable(s.(obs := Listing(Some(seen.container), Some(seen.volume), Some(seen.archive), !OperationUnderWay(s))), rule)
  {
    hide DoLoad, DoAct, DoSave, DoObserveWrite, Reachable, Faultless;
    var s1 := s.(obs := Listing(None, None, None, !OperationUnderWay(s)));
    var s2 := s1.(obs := s1.obs.(container := Some(ContainerSection(s.res))));
    var s3 := s2.(obs := s2.obs.(volume := Some(VolumeSection(s.res))));
    var s4 := s3.(obs := s3.obs.(archive := Some(ArchiveSection(s.res))));
    ListingIsFaultless(s, ObserveBegin);
    Reach(s, ObserveBegin, s1, rule);
    ListingIsFaultless(s1, ListContainer);
    Reach(s1, ListContainer, s2, rule);
    ListingIsFaultless(s2, ListVolume);
    Reach(s2, ListVolume, s3, rule);
    ListingIsFaultless(s3, ListArchive);
    Reach(s3, ListArchive, s4, rule);
  }

  lemma ReachLooked(s: Sys, rule: (Sys, Step) -> bool)
    requires Reachable(s, rule) && Allows(rule) && Live(s.row) && s.obs.NoListing?
    requires if CurrentOperation(s) == Archiving then StoredDone(s.row.value.conditions) ==> s.res.volume.None?
             else s.home != EMPTY_HOME && s.res.volume.None? ==> s.res.tars.Keys != {}
    ensures Reachable(Looked(s), rule)
  {
    hide DoLoad, DoAct, DoSave;
    ReachListed(s, rule);
    var seen := Faithful(s.res);
    var listed := s.(obs := Listing(Some(seen.container), Some(seen.volume), Some(seen.archive), !OperationUnderWay(s)));
    assert Faultless(listed, ObserveWrite);
    Reach(listed, ObserveWrite, Looked(s), rule);
  }

  lemma ReachSaved(s: Sys, stamp: int, uuid: OpId, rule: (Sys, Step) -> bool)
    requires Reachable(s, rule) && Allows(rule) && Enabled(s, Save(stamp, uuid))
    ensures Reachable(Apply(s, Save(stamp, uuid)), rule)
  {
    hide Reachable, Apply, Enabled;
    assert Faultless(s, Save(stamp, uuid));
    Reach(s, Save(stamp, uuid), Apply(s, Save(stamp, uuid)), rule);
  }

  lemma ReachLoaded(s: Sys, uuid: OpId, timeout: int, rule: (Sys, Step) -> bool)
    requires Reachable(s, rule) && Allows(rule) && Enabled(s, Load(uuid, timeout)) && OnTime(s, Load(uuid, timeout))
    ensures Reachable(Apply(s, Load(uuid, timeout)), rule)
  {
    hide Reachable, Apply, Enabled, Plan, CheckCompletion, IsTimeout;
    assert Faultless(s, Load(uuid, timeout));
    Reach(s, Load(uuid, timeout), Apply(s, Load(uuid, timeout)), rule);
  }

  /** The tick can go on to its end without bringing a volume or packing over a whole archive. */
  predicate Undisturbed(s: Sys) {
    && s.wc.Busy? && PcFits(s.wc.tick.action.operation, s.wc.tick.pc)
    && (s.wc.tick.action.operation == Starting ==> s.res.volume.Some?)
    && (s.wc.tick.action.operation == Archiving ==>
          && (s.wc.tick.pc.Enter? || s.wc.tick.pc.Mount? ==> s.res.volume.Some?)
          && (s.wc.tick.pc.PutTar? && BothPresent(SlotOf(s.res, s.wc.tick.opId)) ==> VolumeIsHome(s)))
  }

  lemma StaysUndisturbed(s: Sys)
    requires Undisturbed(s) && Enabled(s, Act(NO_CHOICE))
    ensures Undisturbed(Apply(s, Act(NO_CHOICE))) && Apply(s, Act(NO_CHOICE)).wc.Busy? && Faultless(s, Act(NO_CHOICE))
  {
    hide Careful, OnTime, DoLoad, DoSave, DoObserveWrite;
    PlainAct(s);
  }

  lemma {:induction false} ReachDone(s: Sys, bound: nat, rule: (Sys, Step) -> bool)
    requires Reachable(s, rule) && Allows(rule) && s.wc.Busy? && Undisturbed(s)
    ensures Reachable(ActUntilDone(s, bound), rule)
    decreases bound
  {
    hide Reachable, Undisturbed, Faultless, Apply;
    if bound > 0 && !s.wc.tick.pc.Finished? && !s.wc.tick.pc.Failed? {
      StaysUndisturbed(s);
      Reach(s, Act(NO_CHOICE), Apply(s, Act(NO_CHOICE)), rule);
      ReachDone(Apply(s, Act(NO_CHOICE)), bound - 1, rule);
    }
  }

  const WORK: Home := map["notes" := "done"]
  const PACKED := Blob(WORK, 0)

  // The row: created, provisioning, observed; standby, starting, observed; running, to be
  // archived, stopping, observed; standby, archiving, observed; archived, wanted again,
  // restoring, observed; standby.
  const R0 := NewRow(0)
  const R1 := R0.(operation := Provisioning, opStartedAt := Some(0), opId := Some("a"))
  const R2 := R1.(conditions := Conditions(None, Some(true), None))
  const R3 := R2.(phase := Phase.Standby, operation := NoOperation, opStartedAt := None, phaseChangedAt := Some(0))
  const R4 := R3.(operation := Starting, opStartedAt := Some(0), opId := Some("e"))
  const R5 := R4.(conditions := Conditions(Some(true), Some(true), None))
  const R6 := R5.(phase := Phase.Running, operation := NoOperation, opStartedAt := None)
  const R7 := R6.(desired := Desired.Archived)
  const R8 := R7.(operation := Stopping, opStartedAt := Some(0), opId := Some("i"))
  const R9 := R8.(conditions := Conditions(None, Some(true), None))
  const R10 := R9.(phase := Phase.Standby, operation := NoOperation, opStartedAt := None)
  const R11 := R10.(operation := Archiving, opStartedAt := Some(0), opId := Some("m"), archiveKey := Some("m"))
  const R12 := R11.(conditions := Conditions(None, None, Some(true)))
  const R13 := R12.(phase := Phase.Archived, operation := NoOperation, opStartedAt := None)
  const R14 := R13.(desired := Desired.Standby)
  const R15 := R14.(operation := Restoring, opStartedAt := Some(0), opId := Some("q"), restoreMarker := Some("m"))
  const R16 := R15.(conditions := Conditions(None, Some(true), Some(true)))
  const R17 := R16.(phase := Phase.Standby, operation := NoOperation, opStartedAt := None)

  // Its ticks as loaded, two of them also with the key or the marker in hand.
  const T0 := Tick(R0, Begin(Provisioning, Phase.Pending, Some("a")), "a", Enter)
  const T1 := Tick(R2, Idle(Phase.Standby, None, true), "a", Finished)
  const T2 := Tick(R3, Begin(Starting, Phase.Standby, Some("e")), "e", Enter)
  const T3 := Tick(R5, Idle(Phase.Running, None, true), "e", Finished)
  const T4 := Tick(R7, Begin(Stopping, Phase.Running, Some("i")), "i", Enter)
  const T5 := Tick(R9, Idle(Phase.Standby, None, true), "i", Finished)
  const T6 := Tick(R10, Begin(Archiving, Phase.Standby, Some("m")), "m", Enter)
  const T7 := T6.(action := T6.action.(archiveKey := Some("m")))
  const T8 := Tick(R12, Idle(Phase.Archived, None, true), "m", Finished)
  const T9 := Tick(R14, Begin(Restoring, Phase.Archived, Some("q")), "q", Enter)
  const T10 := T9.(action := T9.action.(restoreMarker := Some("m")))
  const T11 := Tick(R16, Idle(Phase.Standby, None, true), "q", Finished)

  // Its resources.
  const X1 := NO_RESOURCES.(volume := Some(EMPTY_HOME))
  const X3 := X1.(container := Some(true))
  const X4 := X3.(volume := Some(WORK))
  const X6 := X4.(container := None)
  const X7 := X6.(tars := map["m" := PACKED])
  const X8 := X7.(metas := map["m" := Sha256(PACKED)])
  const X9 := X8.(volume := None)
  const X11 := X9.(volume := Some(WORK))

  // Uuids drawn so far.
  const U1: set<OpId> := {"a", "b"}
  const U2: set<OpId> := {"a", "b", "c", "d"}
  const U3: set<OpId> := {"a", "b", "c", "d", "e", "f"}
  const U4: set<OpId> := {"a", "b", "c", "d", "e", "f", "g", "h"}
  const U5: set<OpId> := {"a", "b", "c", "d", "e", "f", "g", "h", "i", "j"}
  const U6: set<OpId> := {"a", "b", "c", "d", "e", "f", "g", "h", "i", "j", "k", "l"}
  const U7: set<OpId> := {"a", "b", "c", "d", "e", "f", "g", "h", "i", "j", "k", "l", "m", "n"}
  const U8: set<OpId> := {"a", "b", "c", "d", "e", "f", "g", "h", "i", "j", "k", "l", "m", "n", "o", "p"}
  const U9: set<OpId> := {"a", "b", "c", "d", "e", "f", "g", "h", "i", "j", "k", "l", "m", "n", "o", "p", "q", "r"}
  const U10: set<OpId> := {"a", "b", "c", "d", "e", "f", "g", "h", "i", "j", "k", "l", "m", "n", "o", "p", "q", "r", "s", "t"}

  const CREATED := INIT.(row := Some(R0))
  const WORKED := INIT.(row := Some(R7), res := X6, home := WORK)
  const ARCHIVED := INIT.(row := Some(R11), res := X9, used := U7, home := WORK, volumeDir := Down)
  const RESTORED := ARCHIVED.(row := Some(R17), res := X11, used := U10, volumeDir := Up)

  // The states of the run, in order; the first is INIT.
  const S1 := CREATED
  const S2 := CREATED.(wc := Busy(T0), began := Some(0), used := {"a"})
  const S3 := CREATED.(res := X1, wc := Busy(T0.(pc := Finished)), began := Some(0), used := {"a"})
  const S4 := INIT.(row := Some(R1), res := X1, used := U1)
  const S5 := INIT.(row := Some(R2), res := X1, used := U1)
  const S6 := INIT.(row := Some(R2), res := X1, wc := Busy(T1), began := Some(0), used := U1 + {"c"})
  const S7 := INIT.(row := Some(R3), res := X1, used := U2)
  const S8 := INIT.(row := Some(R3), res := X1, wc := Busy(T2), began := Some(0), used := U2 + {"e"})
  const S9 := INIT.(row := Some(R3), res := X3, wc := Busy(T2.(pc := Finished)), began := Some(0),
                    used := U2 + {"e"})
  const S10 := INIT.(row := Some(R4), res := X3, used := U3)
  const S11 := INIT.(row := Some(R5), res := X3, used := U3)
  const S12 := INIT.(row := Some(R5), res := X3, wc := Busy(T3), began := Some(0), used := U3 + {"g"})
  const S13 := INIT.(row := Some(R6), res := X3, used := U4)
  const S14 := WORKED.(row := Some(R6), res := X4, used := U4)
  const S15 := WORKED.(res := X4, used := U4)
  const S16 := WORKED.(res := X4, wc := Busy(T4), began := Some(0), used := U4 + {"i"})
  const S17 := WORKED.(wc := Busy(T4.(pc := Finished)), began := Some(0), used := U4 + {"i"})
  const S18 := WORKED.(row := Some(R8), used := U5)
  const S19 := WORKED.(row := Some(R9), used := U5)
  const S20 := WORKED.(row := Some(R9), wc := Busy(T5), began := Some(0), used := U5 + {"k"})
  const S21 := WORKED.(row := Some(R10), used := U6)
  const S22 := WORKED.(row := Some(R10), wc := Busy(T6), began := Some(0), used := U6 + {"m"}, volumeDir := Down)
  const S23 := ARCHIVED.(row := Some(R10), wc := Busy(T7.(pc := Finished)), began := Some(0), used := U6 + {"m"})
  const S24 := ARCHIVED
  const S25 := ARCHIVED.(row := Some(R12))
  const S26 := ARCHIVED.(row := Some(R12), wc := Busy(T8), began := Some(0), used := U7 + {"o"})
  const S27 := ARCHIVED.(row := Some(R13), used := U8)
  const S28 := ARCHIVED.(row := Some(R14), used := U8)
  const S29 := WORKED.(row := Some(R14), res := X9, wc := Busy(T9), began := Some(0), used := U8 + {"q"})
  const S30 := RESTORED.(row := Some(R14), wc := Busy(T10.(pc := Finished)), began := Some(0), used := U8 + {"q"})
  const S31 := RESTORED.(row := Some(R15), used := U9)
  const S32 := RESTORED.(row := Some(R16), used := U9)
  const S33 := RESTORED.(row := Some(R16), wc := Busy(T11), began := Some(0), used := U9 + {"s"})
  const S34 := RESTORED

  lemma ReachS1()
    ensures Reachable(S1, Faultless)
  {
    hide DoLoad, DoAct, DoSave, DoObserveWrite;
    ReachInit(Faultless);
    Reach(INIT, ApiCreate, S1, Faultless);
  }

  lemma ReachS2()
    ensures Reachable(S2, Faultless)
  {
    hide Reachable, Faultless, Uncut, ActUntilDone, DoAct, DoSave, DoObserveWrite;
    ReachS1();
    ReachLoaded(S1, "a", 600, Faultless);
    assert Apply(S1, Load("a", 600)) == S2;
  }

  lemma ReachS4()
    ensures Reachable(S4, Faultless)
  {
    hide Reachable, Faultless, Plan, Uncut, ActUntilDone, DoLoad, DoObserveWrite;
    ReachS2();
    ReachDone(S2, LONGEST_ATTEMPT, Faultless);
    ActsAreUncut(S2, LONGEST_ATTEMPT);
    UncutProvisioning(S2.res, T0);
    assert ActUntilDone(S2, LONGEST_ATTEMPT) == S3;
    ReachSaved(S3, 0, "b", Faultless);
    assert Apply(S3, Save(0, "b")) == S4;
  }

  lemma ReachS5()
    ensures Reachable(S5, Faultless)
  {
    hide Reachable, Faultless, Plan, Uncut, ActUntilDone, DoLoad, DoAct, DoSave, DoObserveWrite;
    ReachS4();
    ReachLooked(S4, Faultless);
    assert Looked(S4) == S5;
  }

  lemma ReachS6()
    ensures Reachable(S6, Faultless)
  {
    hide Reachable, Faultless, Uncut, ActUntilDone, DoAct, DoSave, DoObserveWrite;
    ReachS5();
    ReachLoaded(S5, "c", 600, Faultless);
    assert Apply(S5, Load("c", 600)) == S6;
  }

  lemma ReachS8()
    ensures Reachable(S8, Faultless)
  {
    hide Reachable, Faultless, Uncut, ActUntilDone, DoAct, DoObserveWrite;
    ReachS6();
    ReachSaved(S6, 0, "d", Faultless);
    assert Apply(S6, Save(0, "d")) == S7;
    ReachLoaded(S7, "e", 600, Faultless);
    assert Apply(S7, Load("e", 600)) == S8;
  }

  lemma ReachS10()
    ensures Reachable(S10, Faultless)
  {
    hide Reachable, Faultless, Plan, Uncut, ActUntilDone, DoLoad, DoObserveWrite;
    ReachS8();
    ReachDone(S8, LONGEST_ATTEMPT, Faultless);
    ActsAreUncut(S8, LONGEST_ATTEMPT);
    UncutStarting(S8.res, T2);
    assert ActUntilDone(S8, LONGEST_ATTEMPT) == S9;
    ReachSaved(S9, 0, "f", Faultless);
    assert Apply(S9, Save(0, "f")) == S10;
  }

  lemma ReachS12()
    ensures Reachable(S12, Faultless)
  {
    hide Reachable, Faultless, Uncut, ActUntilDone, DoAct, DoSave, DoObserveWrite;
    ReachS10();
    ReachLooked(S10, Faultless);
    assert Looked(S10) == S11;
    ReachLoaded(S11, "g", 600, Faultless);
    assert Apply(S11, Load("g", 600)) == S12;
  }

  lemma ReachS13()
    ensures Reachable(S13, Faultless)
  {
    hide Reachable, Faultless, Plan, Uncut, ActUntilDone, DoLoad, DoAct, DoObserveWrite;
    ReachS12();
    ReachSaved(S12, 0, "h", Faultless);
    assert Apply(S12, Save(0, "h")) == S13;
  }

  lemma ReachS15()
    ensures Reachable(S15, Faultless)
  {
    hide DoLoad, DoAct, DoSave, DoObserveWrite;
    ReachS13();
    Reach(S13, UserWrite(WORK), S14, Faultless);
    Reach(S14, SetDesired(Desired.Archived), S15, Faultless);
  }

  lemma ReachS16()
    ensures Reachable(S16, Faultless)
  {
    hide Reachable, Faultless, Uncut, ActUntilDone, DoAct, DoSave, DoObserveWrite;
    ReachS15();
    ReachLoaded(S15, "i", 600, Faultless);
    assert Apply(S15, Load("i", 600)) == S16;
  }

  lemma ReachS18()
    ensures Reachable(S18, Faultless)
  {
    hide Reachable, Faultless, Plan, Uncut, ActUntilDone, DoLoad, DoObserveWrite;
    ReachS16();
    ReachDone(S16, LONGEST_ATTEMPT, Faultless);
    ActsAreUncut(S16, LONGEST_ATTEMPT);
    UncutStopping(S16.res, T4);
    assert ActUntilDone(S16, LONGEST_ATTEMPT) == S17;
    ReachSaved(S17, 0, "j", Faultless);
    assert Apply(S17, Save(0, "j")) == S18;
  }

  lemma ReachS20()
    ensures Reachable(S20, Faultless)
  {
    hide Reachable, Faultless, Uncut, ActUntilDone, DoAct, DoSave, DoObserveWrite;
    ReachS18();
    ReachLooked(S18, Faultless);
    assert Looked(S18) == S19;
    ReachLoaded(S19, "k", 600, Faultless);
    assert Apply(S19, Load("k", 600)) == S20;
  }

  lemma ReachS22()
    ensures Reachable(S22, Faultless)
  {
    hide Reachable, Faultless, Uncut, ActUntilDone, DoAct, DoObserveWrite;
    ReachS20();
    ReachSaved(S20, 0, "l", Faultless);
    assert Apply(S20, Save(0, "l")) == S21;
    ReachLoaded(S21, "m", 600, Faultless);
    assert Apply(S21, Load("m", 600)) == S22;
  }

  lemma ReachS23()
    ensures Reachable(S23, Faultless)
  {
    hide Reachable, Faultless, Plan, Uncut, ActUntilDone, DoLoad, DoSave, DoObserveWrite;
    ReachS22();
    ReachDone(S22, LONGEST_ATTEMPT, Faultless);
    ActsAreUncut(S22, LONGEST_ATTEMPT);
    UncutArchiving(S22.res, T6);
    assert ActUntilDone(S22, LONGEST_ATTEMPT) == S23;
  }

  lemma ReachS24()
    ensures Reachable(S24, Faultless)
  {
    hide Reachable, Faultless, Plan, Uncut, ActUntilDone, DoLoad, DoAct, DoObserveWrite;
    ReachS23();
    ReachSaved(S23, 0, "n", Faultless);
    assert Apply(S23, Save(0, "n")) == S24;
  }

  lemma ReachS26()
    ensures Reachable(S26, Faultless)
  {
    hide Reachable, Faultless, Uncut, ActUntilDone, DoAct, DoSave, DoObserveWrite;
    ReachS24();
    assert "m" in X9.tars.Keys;
    ReachLooked(S24, Faultless);
    assert Looked(S24) == S25;
    ReachLoaded(S25, "o", 600, Faultless);
    assert Apply(S25, Load("o", 600)) == S26;
  }

  lemma ReachS27()
    ensures Reachable(S27, Faultless)
  {
    hide Reachable, Faultless, Plan, Uncut, ActUntilDone, DoLoad, DoAct, DoObserveWrite;
    ReachS26();
    ReachSaved(S26, 0, "p", Faultless);
    assert Apply(S26, Save(0, "p")) == S27;
  }

  lemma ReachS28()
    ensures Reachable(S28, Faultless)
  {
    hide DoLoad, DoAct, DoSave, DoObserveWrite;
    ReachS27();
    Reach(S27, SetDesired(Desired.Standby), S28, Faultless);
  }

  lemma ReachS29()
    ensures Reachable(S29, Faultless)
  {
    hide Reachable, Faultless, Uncut, ActUntilDone, DoAct, DoSave, DoObserveWrite;
    ReachS28();
    ReachLoaded(S28, "q", 600, Faultless);
    assert Apply(S28, Load("q", 600)) == S29;
  }

  lemma ReachS30()
    ensures Reachable(S30, Faultless)
  {
    hide Reachable, Faultless, Plan, Uncut, ActUntilDone, DoLoad, DoSave, DoObserveWrite;
    ReachS29();
    ReachDone(S29, LONGEST_ATTEMPT, Faultless);
    ActsAreUncut(S29, LONGEST_ATTEMPT);
    UncutRestoring(S29.res, T9, "m");
    assert ActUntilDone(S29, LONGEST_ATTEMPT) == S30;
  }

  lemma ReachS31()
    ensures Reachable(S31, Faultless)
  {
    hide Reachable, Faultless, Plan, Uncut, ActUntilDone, DoLoad, DoAct, DoObserveWrite;
    ReachS30();
    ReachSaved(S30, 0, "r", Faultless);
    assert Apply(S30, Save(0, "r")) == S31;
  }

  lemma ReachS33()
    ensures Reachable(S33, Faultless)
  {
    hide Reachable, Faultless, Uncut, ActUntilDone, DoAct, DoSave, DoObserveWrite;
    ReachS31();
    assert "m" in X11.tars.Keys;
    ReachLooked(S31, Faultless);
    assert Looked(S31) == S32;
    ReachLoaded(S32, "s", 600, Faultless);
    assert Apply(S32, Load("s", 600)) == S33;
  }

  lemma ReachS34()
    ensures Reachable(S34, Faultless)
  {
    hide Reachable, Faultless, Plan, Uncut, ActUntilDone, DoLoad, DoAct, DoObserveWrite;
    ReachS33();
    ReachSaved(S33, 0, "t", Faultless);
    assert Apply(S33, Save(0, "t")) == S34;
  }

  /** The workspace once its archiving tick is saved. */
  lemma ReachArchived()
    ensures Reachable(ARCHIVED, Faultless)
  {
    ReachS24();
    assert S24 == ARCHIVED;
  }

  /** One whole cycle: what the user wrote is back on a volume made anew from the archive. */
  lemma ReachRestored()
    ensures Reachable(RESTORED, Faultless) && Live(RESTORED.row) && !OperationUnderWay(RESTORED)
    ensures RESTORED.res.volume == Some(WORK) && RESTORED.home == WORK && WORK != EMPTY_HOME
    ensures RESTORED.row.value.archiveKey == Some("m") && RESTORED.row.value.restoreMarker == Some("m")
  {
    ReachS34();
    assert S34 == RESTORED;
    assert "notes" in WORK && "notes" !in EMPTY_HOME;
  }
}
