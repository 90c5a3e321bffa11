/** Runs that go on where `Life` has its archive, or shortly before, each breaking one clause of
    `Careful` or none, and what becomes of the workspace. */
module Mishaps {
  import opened Domain
  import opened Archive
  import opened Planner
  import opened Actuator
  import opened Controller
  import opened System
  import opened Safety
  import opened Staleness
  import opened Contents
  import opened Life
  import opened Convergence

  predicate Rest(s: Sys, step: Step) {
    !step.Crash? && (step.SetDesired? ==> step.desired != Desired.Deleted) && UserKeeps(s, step)
  }

  // All of `Careful` but one clause; five of them without any timeout.

  predicate ButMounts(s: Sys, step: Step) {
    Rest(s, step) && Sound(s, step) && Tidy(s, step) && TarKeeps(s, step) && RestoreKeeps(s, step)
    && TimeoutKeeps(s, step) && WriteKeeps(s, step)
  }

  predicate ButTimeouts(s: Sys, step: Step) {
    Rest(s, step) && Sound(s, step) && Tidy(s, step) && MountKeeps(s, step) && TarKeeps(s, step)
    && RestoreKeeps(s, step) && WriteKeeps(s, step)
  }

  predicate ButWrites(s: Sys, step: Step) {
    Rest(s, step) && Sound(s, step) && Tidy(s, step) && MountKeeps(s, step) && TarKeeps(s, step)
    && RestoreKeeps(s, step) && TimeoutKeeps(s, step)
  }

  predicate ButTidy(s: Sys, step: Step) {
    Rest(s, step) && Sound(s, step) && MountKeeps(s, step) && TarKeeps(s, step) && RestoreKeeps(s, step)
    && TimeoutKeeps(s, step) && WriteKeeps(s, step) && OnTime(s, step)
  }

  predicate ButTars(s: Sys, step: Step) {
    Rest(s, step) && Sound(s, step) && Tidy(s, step) && MountKeeps(s, step) && RestoreKeeps(s, step)
    && TimeoutKeeps(s, step) && WriteKeeps(s, step) && OnTime(s, step)
  }

  predicate ButSeals(s: Sys, step: Step) {
    Rest(s, step) && GcTimely(s, step) && Tidy(s, step) && MountKeeps(s, step) && TarKeeps(s, step)
    && RestoreKeeps(s, step) && TimeoutKeeps(s, step) && WriteKeeps(s, step) && OnTime(s, step)
  }

  predicate ButRestores(s: Sys, step: Step) {
    Rest(s, step) && Sound(s, step) && Tidy(s, step) && MountKeeps(s, step) && TarKeeps(s, step)
    && TimeoutKeeps(s, step) && WriteKeeps(s, step) && OnTime(s, step)
  }

  predicate ButCollector(s: Sys, step: Step) {
    Rest(s, step) && SealKeeps(s, step) && Tidy(s, step) && MountKeeps(s, step) && TarKeeps(s, step)
    && RestoreKeeps(s, step) && TimeoutKeeps(s, step) && WriteKeeps(s, step) && OnTime(s, step)
  }

  lemma AllAllowed()
    ensures Allows(Careful) && Allows(ButMounts) && Allows(ButTimeouts) && Allows(ButWrites)
    ensures Allows(ButTidy) && Allows(ButTars) && Allows(ButSeals) && Allows(ButRestores) && Allows(ButCollector)
  {
  }

  const HEAD_FAILS := Choice(0, None, true)

  const BEGUN := Listing(None, None, None, false)

  // With the volume back, empty; and what is archived from it under a second key, or over the first.
  const Y1 := X9.(volume := Some(EMPTY_HOME))
  const Y4 := Uploaded(X9, "q", EMPTY_BLOB)
  const Y6 := Y1.(tars := map["m" := EMPTY_BLOB])
  const Y7 := Y6.(metas := map["m" := Sha256(EMPTY_BLOB)])

  // ----- archiving times out before its end is observed -----

  const TA1 := Tick(R11, Idle(Phase.Error, Some(Timeout), false), "m", Finished)
  const RA1 := R11.(phase := Phase.Error, operation := NoOperation, opStartedAt := None, errorReason := Some(Timeout),
                    errorCount := 1, phaseChangedAt := Some(700))

  const A1 := ARCHIVED.(now := 700)
  const A2 := ARCHIVED.(wc := Busy(TA1), now := 700, began := Some(700), used := U7 + {"o"}, tainted := true)
  const A3 := ARCHIVED.(row := Some(RA1), now := 700, used := U8, tainted := true)

  lemma ReachA1()
    ensures Reachable(A1, Careful)
  {
    hide DoLoad, DoAct, DoSave, DoObserveWrite;
    AllAllowed();
    ReachArchived();
    ReachMore(ARCHIVED, Faultless, Careful);
    Reach(ARCHIVED, Elapse(700), A1, Careful);
  }

  lemma MayA2()
    ensures Careful(A1, Load("o", 600))
  {
  }

  lemma ReachA2()
    ensures Reachable(A2, Careful)
  {
    hide DoAct, DoSave, DoObserveWrite;
    ReachA1();
    MayA2();
    hide Careful, Reachable;
    Reach(A1, Load("o", 600), A2, Careful);
  }

  lemma ReachA3()
    ensures Reachable(A3, Careful)
  {
    hide Reachable, Faultless, Plan, Uncut, ActUntilDone, DoLoad, DoAct, DoObserveWrite;
    ReachA2();
    AllAllowed();
    ReachSaved(A2, 700, "p", Careful);
    assert Apply(A2, Save(700, "p")) == A3;
  }

  // ----- the stale volume flag starts another archiving -----

  const TM1 := Tick(RA1, Begin(Archiving, Phase.Standby, Some("q")), "q", Enter)
  const TM2 := TM1.(action := TM1.action.(archiveKey := Some("q")))
  const RM1 := RA1.(phase := Phase.Standby, operation := Archiving, opStartedAt := Some(700), opId := Some("q"),
                    archiveKey := Some("q"), errorReason := None)

  lemma ButMountsSoFar()
    ensures Reachable(A3, ButMounts)
  {
    ReachA3();
    ReachMore(A3, Careful, ButMounts);
  }

  const M1 := ARCHIVED.(row := Some(RA1), wc := Busy(TM1), now := 700, began := Some(700), used := U8 + {"q"},
                        tainted := true)
  const M2 := ARCHIVED.(row := Some(RA1), wc := Busy(TM1.(pc := Mount)), now := 700, began := Some(700),
                        used := U8 + {"q"}, tainted := true)
  const M3 := ARCHIVED.(row := Some(RA1), res := Y1, wc := Busy(TM1.(pc := Head)), now := 700, began := Some(700),
                        used := U8 + {"q"}, tainted := true)
  const M4 := ARCHIVED.(row := Some(RA1), res := Y4, wc := Busy(TM2.(pc := Finished)), now := 700,
                        began := Some(700), used := U8 + {"q"}, tainted := true)
  const M5 := ARCHIVED.(row := Some(RM1), res := Y4, now := 700, used := U9, tainted := true)

  lemma ReachM1()
    ensures Reachable(M1, ButMounts)
  {
    hide Reachable, Faultless, Uncut, ActUntilDone, DoAct, DoSave, DoObserveWrite;
    ButMountsSoFar();
    AllAllowed();
    ReachLoaded(A3, "q", 600, ButMounts);
    assert Apply(A3, Load("q", 600)) == M1;
  }

  lemma ReachM2()
    ensures Reachable(M2, ButMounts)
  {
    hide DoLoad, DoSave, DoObserveWrite;
    ReachM1();
    hide Sound, GcTimely, SealKeeps, Tidy, UserKeeps, MountKeeps, TarKeeps, RestoreKeeps, TimeoutKeeps, WriteKeeps, OnTime;
    PlainAct(M1);
    Reach(M1, Act(NO_CHOICE), M2, ButMounts);
  }

  lemma ReachM3()
    ensures Reachable(M3, ButMounts)
  {
    hide DoLoad, DoSave, DoObserveWrite;
    ReachM2();
    Reach(M2, Act(NO_CHOICE), M3, ButMounts);
  }

  lemma ReachM4()
    ensures Reachable(M4, ButMounts)
  {
    hide Reachable, Faultless, Plan, Uncut, ActUntilDone, DoLoad, DoSave, DoObserveWrite;
    ReachM3();
    AllAllowed();
    ReachDone(M3, LONGEST_ATTEMPT - 2, ButMounts);
    ActsAreUncut(M3, LONGEST_ATTEMPT - 2);
    UncutOnce(M3.res, TM1.(pc := Head), LONGEST_ATTEMPT - 2);
    UncutPacking(M3.res, TM1);
    assert ActUntilDone(M3, LONGEST_ATTEMPT - 2) == M4;
  }

  /** Docker brings the missing volume for the new job, which archives its emptiness: the key
      names an empty archive, and nothing protects the one that holds the home. */
  lemma EmptyMountLosesHome()
    ensures exists end ::
              && Reachable(end, ButMounts)
              && Live(end.row) && end.row.value.archiveKey == Some("q") && end.res.volume.None?
              && end.home == WORK && SlotOf(end.res, "q").tar == Some(EMPTY_BLOB)
              && SlotOf(end.res, "m").tar == Some(Blob(end.home, 0)) && "m" !in Protected(end.row)
  {
    hide Reachable, Faultless, Plan, Uncut, ActUntilDone, DoLoad, DoAct, DoObserveWrite;
    ReachM4();
    AllAllowed();
    ReachSaved(M4, 700, "r", ButMounts);
    assert Apply(M4, Save(700, "r")) == M5;
    assert Reachable(M5, ButMounts);
  }

  // ----- or rests on it -----

  const RD1 := RA1.(desired := Desired.Standby)
  const TD1 := Tick(RD1, Idle(Phase.Standby, None, false), "m", Finished)
  const RD2 := RD1.(phase := Phase.Standby, errorReason := None)

  const D1 := ARCHIVED.(row := Some(RD1), now := 700, used := U8, tainted := true)
  const D2 := ARCHIVED.(row := Some(RD1), wc := Busy(TD1), now := 700, began := Some(700), used := U8 + {"q"},
                        tainted := true)
  const D3 := ARCHIVED.(row := Some(RD2), now := 700, used := U9, tainted := true)

  lemma ReachD1()
    ensures Reachable(D1, Careful)
  {
    hide DoLoad, DoAct, DoSave, DoObserveWrite;
    ReachA3();
    Reach(A3, SetDesired(Desired.Standby), D1, Careful);
  }

  lemma ReachD2()
    ensures Reachable(D2, Careful)
  {
    hide Reachable, Faultless, Uncut, ActUntilDone, DoAct, DoSave, DoObserveWrite;
    ReachD1();
    AllAllowed();
    ReachLoaded(D1, "q", 600, Careful);
    assert Apply(D1, Load("q", 600)) == D2;
  }

  /** A careful run into the blind spot: a healthy idle row says STANDBY, as is desired, and the
      volume is gone. It is never loaded again. */
  lemma DriftedIsReachable()
    ensures exists end ::
              && Reachable(end, Careful) && Live(end.row) && end.home == WORK && end.res.volume.None?
              && Healthy(State(end.row.value, end.res))
              && Drifted(State(end.row.value, end.res))
  {
    hide Reachable, Faultless, Plan, Uncut, ActUntilDone, DoLoad, DoAct, DoObserveWrite;
    ReachD2();
    AllAllowed();
    ReachSaved(D2, 700, "r", Careful);
    assert Apply(D2, Save(700, "r")) == D3;
    assert Reachable(D3, Careful);
    assert Committed(SlotOf(D3.res, "m"));
  }

  // ----- a job is entered again although its end has been seen -----

  const RB1 := R11.(conditions := Conditions(None, None, Some(true)))
  const RB2 := RB1.(phase := Phase.Archived, operation := NoOperation, opStartedAt := None, phaseChangedAt := Some(0))
  const TB1 := Tick(R11, Begin(Archiving, Phase.Standby, Some("m")), "m", Enter)
  const TB2 := TB1.(action := TB1.action.(archiveKey := Some("m")))
  const TB3 := Tick(RB1, Idle(Phase.Archived, None, true), "m", Finished)

  const CAUGHT := Listing(None, Some(Some(true)), None, false)

  const B1 := ARCHIVED.(obs := BEGUN)
  const B2 := ARCHIVED.(obs := Listing(Some(None), None, None, false))
  const B3 := ARCHIVED.(obs := Listing(Some(None), Some(None), None, false))
  const B4 := ARCHIVED.(obs := Listing(Some(None), Some(None), Some(Some(true)), false))
  const B5 := ARCHIVED.(wc := Busy(TB1), obs := Listing(Some(None), Some(None), Some(Some(true)), false),
                        began := Some(0), used := U7 + {"o"})
  const B6 := ARCHIVED.(row := Some(RB1), wc := Busy(TB1), began := Some(0), used := U7 + {"o"})
  const B7 := ARCHIVED.(row := Some(RB1), wc := Busy(TB1.(pc := Mount)), began := Some(0), used := U7 + {"o"})
  const B8 := ARCHIVED.(row := Some(RB1), res := Y1, wc := Busy(TB1.(pc := Head)), began := Some(0),
                        used := U7 + {"o"})

  lemma ReachB1()
    ensures Reachable(B1, ButTidy)
  {
    hide DoLoad, DoAct, DoSave, DoObserveWrite;
    AllAllowed();
    ReachArchived();
    ReachMore(ARCHIVED, Faultless, ButTidy);
    Reach(ARCHIVED, ObserveBegin, B1, ButTidy);
  }

  lemma ReachB3()
    ensures Reachable(B3, ButTidy)
  {
    hide DoLoad, DoAct, DoSave, DoObserveWrite;
    ReachB1();
    Reach(B1, ListContainer, B2, ButTidy);
    Reach(B2, ListVolume, B3, ButTidy);
  }

  lemma ReachB4()
    ensures Reachable(B4, ButTidy)
  {
    hide DoLoad, DoAct, DoSave, DoObserveWrite;
    ReachB3();
    assert "m" in X9.tars.Keys;
    Reach(B3, ListArchive, B4, ButTidy);
  }

  lemma ReachB5()
    ensures Reachable(B5, ButTidy)
  {
    hide Reachable, Faultless, Uncut, ActUntilDone, DoAct, DoSave, DoObserveWrite;
    ReachB4();
    AllAllowed();
    ReachLoaded(B4, "o", 600, ButTidy);
    assert Apply(B4, Load("o", 600)) == B5;
  }

  lemma ReachB6()
    ensures Reachable(B6, ButTidy)
  {
    hide DoLoad, DoAct, DoSave;
    ReachB5();
    Reach(B5, ObserveWrite, B6, ButTidy);
  }

  lemma ReachB7()
    ensures Reachable(B7, ButTidy)
  {
    hide DoLoad, DoSave, DoObserveWrite;
    ReachB6();
    hide Sound, GcTimely, SealKeeps, Tidy, UserKeeps, MountKeeps, TarKeeps, RestoreKeeps, TimeoutKeeps, WriteKeeps, OnTime;
    PlainAct(B6);
    Reach(B6, Act(NO_CHOICE), B7, ButTidy);
  }

  lemma ReachB8()
    ensures Reachable(B8, ButTidy)
  {
    hide DoLoad, DoSave, DoObserveWrite;
    ReachB7();
    Reach(B7, Act(NO_CHOICE), B8, ButTidy);
  }

  const G1 := ARCHIVED.(row := Some(RB1), res := Y1, wc := Busy(TB1.(pc := Failed)), began := Some(0),
                        used := U7 + {"o"})
  const G2 := ARCHIVED.(row := Some(RB1), res := Y1, wc := Busy(TB1.(pc := Finished)), began := Some(0),
                        used := U7 + {"o"})
  const G3 := ARCHIVED.(row := Some(RB1), res := Y1, used := U8)
  const G4 := ARCHIVED.(row := Some(RB1), res := Y1, wc := Busy(TB3), began := Some(0), used := U8 + {"q"})
  const G5 := ARCHIVED.(row := Some(RB2), res := Y1, used := U9)

  lemma ReachG2()
    ensures Reachable(G2, ButTidy)
  {
    hide DoLoad, DoAct, DoSave, DoObserveWrite;
    ReachB8();
    Reach(B8, Abandon, G1, ButTidy);
    Reach(G1, GiveUp, G2, ButTidy);
  }

  lemma ReachG3()
    ensures Reachable(G3, ButTidy)
  {
    hide Reachable, Faultless, Plan, Uncut, ActUntilDone, DoLoad, DoAct, DoObserveWrite;
    ReachG2();
    AllAllowed();
    ReachSaved(G2, 0, "p", ButTidy);
    assert Apply(G2, Save(0, "p")) == G3;
  }

  lemma ReachG4()
    ensures Reachable(G4, ButTidy)
  {
    hide Reachable, Faultless, Uncut, ActUntilDone, DoAct, DoSave, DoObserveWrite;
    ReachG3();
    AllAllowed();
    ReachLoaded(G3, "q", 600, ButTidy);
    assert Apply(G3, Load("q", 600)) == G4;
  }

  /** Given up with its volume back: archiving ends with an empty volume in its place, which is
      what the workspace will next be started on. Nothing has timed out. */
  lemma GivenUpJobLeavesEmptyVolume()
    ensures exists end ::
              && Reachable(end, ButTidy)
              && Live(end.row) && !OperationUnderWay(end) && !end.tainted
              && !InStep(end.row.value.conditions, end.obs, end.res)
              && end.home == WORK && end.res.volume == Some(EMPTY_HOME)
  {
    hide Reachable, Faultless, Plan, Uncut, ActUntilDone, DoLoad, DoAct, DoObserveWrite;
    ReachG4();
    AllAllowed();
    ReachSaved(G4, 0, "r", ButTidy);
    assert Apply(G4, Save(0, "r")) == G5;
    assert Reachable(G5, ButTidy);
  }

  const V1 := ARCHIVED.(row := Some(RB1), res := Y1, wc := Busy(TB1.(pc := Head)), obs := BEGUN, began := Some(0),
                        used := U7 + {"o"})
  const V2 := ARCHIVED.(row := Some(RB1), res := Y1, wc := Busy(TB1.(pc := Head)), obs := CAUGHT, began := Some(0),
                        used := U7 + {"o"})
  const V3 := ARCHIVED.(row := Some(RB1), wc := Busy(TB2.(pc := Finished)), obs := CAUGHT, began := Some(0),
                        used := U7 + {"o"})
  const V4 := ARCHIVED.(row := Some(RB1), obs := CAUGHT, used := U8)
  const V5 := ARCHIVED.(row := Some(RB1), wc := Busy(TB3), obs := CAUGHT, began := Some(0), used := U8 + {"q"})
  const V6 := ARCHIVED.(row := Some(RB2), obs := CAUGHT, used := U9)

  lemma ReachV2()
    ensures Reachable(V2, ButTidy)
  {
    hide DoLoad, DoAct, DoSave, DoObserveWrite;
    ReachB8();
    Reach(B8, ObserveBegin, V1, ButTidy);
    Reach(V1, ListVolume, V2, ButTidy);
  }

  lemma ReachV3()
    ensures Reachable(V3, ButTidy)
  {
    hide Reachable, Faultless, Plan, Uncut, ActUntilDone, DoLoad, DoSave, DoObserveWrite;
    ReachV2();
    AllAllowed();
    ReachDone(V2, LONGEST_ATTEMPT - 2, ButTidy);
    ActsAreUncut(V2, LONGEST_ATTEMPT - 2);
    UncutOnce(V2.res, TB1.(pc := Head), LONGEST_ATTEMPT - 2);
    UncutPacking(V2.res, TB1);
    assert ActUntilDone(V2, LONGEST_ATTEMPT - 2) == V3;
  }

  lemma ReachV4()
    ensures Reachable(V4, ButTidy)
  {
    hide Reachable, Faultless, Plan, Uncut, ActUntilDone, DoLoad, DoAct, DoObserveWrite;
    ReachV3();
    AllAllowed();
    ReachSaved(V3, 0, "p", ButTidy);
    assert Apply(V3, Save(0, "p")) == V4;
  }

  lemma ReachV5()
    ensures Reachable(V5, ButTidy)
  {
    hide Reachable, Faultless, Uncut, ActUntilDone, DoAct, DoSave, DoObserveWrite;
    ReachV4();
    AllAllowed();
    ReachLoaded(V4, "q", 600, ButTidy);
    assert Apply(V4, Load("q", 600)) == V5;
  }

  /** Caught by a listing meanwhile: archiving ends with the volume gone and a listing in flight
      that has it. Nothing has timed out. */
  lemma CaughtVolumeIsStale()
    ensures exists end ::
              && Reachable(end, ButTidy)
              && Live(end.row) && !OperationUnderWay(end) && !end.tainted
              && ListedVolume(end.obs) == Some(true) && end.res.volume.None?
              && !InStep(end.row.value.conditions, end.obs, end.res)
  {
    hide Reachable, Faultless, Plan, Uncut, ActUntilDone, DoLoad, DoAct, DoObserveWrite;
    ReachV5();
    AllAllowed();
    ReachSaved(V5, 0, "r", ButTidy);
    assert Apply(V5, Save(0, "r")) == V6;
    assert Reachable(V6, ButTidy);
  }

  // ----- an observation misses the archive and not the removal -----

  const MISSED := Listing(Some(None), Some(None), Some(None), false)

  const RC1 := RA1.(conditions := NO_CONDITIONS)
  const RC2 := RC1.(phase := Phase.Pending, operation := CreateEmptyArchive, opStartedAt := Some(700), opId := Some("q"),
                    archiveKey := Some("q"), errorReason := None)
  const TC1 := Tick(RC1, Begin(CreateEmptyArchive, Phase.Pending, Some("q")), "q", Enter)
  const TC2 := TC1.(action := TC1.action.(archiveKey := Some("q")))

  const C1 := ARCHIVED.(row := Some(R10), res := X6, wc := Busy(T6), obs := BEGUN, began := Some(0),
                        used := U6 + {"m"})
  const C2 := ARCHIVED.(row := Some(R10), res := X6, wc := Busy(T6), obs := Listing(None, None, Some(None), false),
                        began := Some(0), used := U6 + {"m"})
  const C3 := ARCHIVED.(row := Some(R10), wc := Busy(T7.(pc := Finished)),
                        obs := Listing(None, None, Some(None), false), began := Some(0), used := U6 + {"m"})
  const C4 := ARCHIVED.(row := Some(R10), wc := Busy(T7.(pc := Finished)),
                        obs := Listing(Some(None), None, Some(None), false), began := Some(0), used := U6 + {"m"})
  const C5 := ARCHIVED.(row := Some(R10), wc := Busy(T7.(pc := Finished)), obs := MISSED, began := Some(0),
                        used := U6 + {"m"})
  const C6 := ARCHIVED.(obs := MISSED)
  const C7 := ARCHIVED.(obs := MISSED, now := 700)
  const C8 := ARCHIVED.(wc := Busy(TA1), obs := MISSED, now := 700, began := Some(700), used := U7 + {"o"},
                        tainted := true)
  const C9 := ARCHIVED.(row := Some(RA1), obs := MISSED, now := 700, used := U8, tainted := true)
  const C10 := ARCHIVED.(row := Some(RC1), now := 700, used := U8, tainted := true)
  const C11 := ARCHIVED.(row := Some(RC1), wc := Busy(TC1), now := 700, began := Some(700), used := U8 + {"q"},
                         tainted := true)
  const C12 := ARCHIVED.(row := Some(RC1), res := Y4, wc := Busy(TC2.(pc := Finished)), now := 700,
                         began := Some(700), used := U8 + {"q"}, tainted := true)
  const C13 := ARCHIVED.(row := Some(RC2), res := Y4, now := 700, used := U9, tainted := true)

  lemma ReachC2()
    ensures Reachable(C2, ButWrites)
  {
    hide DoLoad, DoAct, DoSave, DoObserveWrite;
    AllAllowed();
    ReachS22();
    ReachMore(S22, Faultless, ButWrites);
    Reach(S22, ObserveBegin, C1, ButWrites);
    Reach(C1, ListArchive, C2, ButWrites);
  }

  lemma ReachC3()
    ensures Reachable(C3, ButWrites)
  {
    hide Reachable, Faultless, Plan, Uncut, ActUntilDone, DoLoad, DoSave, DoObserveWrite;
    ReachC2();
    AllAllowed();
    ReachDone(C2, LONGEST_ATTEMPT, ButWrites);
    ActsAreUncut(C2, LONGEST_ATTEMPT);
    UncutArchiving(C2.res, T6);
    assert ActUntilDone(C2, LONGEST_ATTEMPT) == C3;
  }

  lemma ReachC5()
    ensures Reachable(C5, ButWrites)
  {
    hide DoLoad, DoAct, DoSave, DoObserveWrite;
    ReachC3();
    Reach(C3, ListContainer, C4, ButWrites);
    Reach(C4, ListVolume, C5, ButWrites);
  }

  lemma ReachC6()
    ensures Reachable(C6, ButWrites)
  {
    hide Reachable, Faultless, Plan, Uncut, ActUntilDone, DoLoad, DoAct, DoObserveWrite;
    ReachC5();
    AllAllowed();
    ReachSaved(C5, 0, "n", ButWrites);
    assert Apply(C5, Save(0, "n")) == C6;
  }

  lemma ReachC7()
    ensures Reachable(C7, ButWrites)
  {
    hide DoLoad, DoAct, DoSave, DoObserveWrite;
    ReachC6();
    Reach(C6, Elapse(700), C7, ButWrites);
  }

  lemma MayC8()
    ensures ButWrites(C7, Load("o", 600))
  {
  }

  lemma ReachC8()
    ensures Reachable(C8, ButWrites)
  {
    hide DoAct, DoSave, DoObserveWrite;
    ReachC7();
    MayC8();
    hide ButWrites, Reachable;
    Reach(C7, Load("o", 600), C8, ButWrites);
  }

  lemma ReachC9()
    ensures Reachable(C9, ButWrites)
  {
    hide Reachable, Faultless, Plan, Uncut, ActUntilDone, DoLoad, DoAct, DoObserveWrite;
    ReachC8();
    AllAllowed();
    ReachSaved(C8, 700, "p", ButWrites);
    assert Apply(C8, Save(700, "p")) == C9;
  }

  lemma ReachC10()
    ensures Reachable(C10, ButWrites)
  {
    hide DoLoad, DoAct, DoSave;
    ReachC9();
    Reach(C9, ObserveWrite, C10, ButWrites);
  }

  lemma ReachC11()
    ensures Reachable(C11, ButWrites)
  {
    hide Reachable, Faultless, Uncut, ActUntilDone, DoAct, DoSave, DoObserveWrite;
    ReachC10();
    AllAllowed();
    ReachLoaded(C10, "q", 600, ButWrites);
    assert Apply(C10, Load("q", 600)) == C11;
  }

  lemma ReachC12()
    ensures Reachable(C12, ButWrites)
  {
    hide Reachable, Faultless, Plan, Uncut, ActUntilDone, DoLoad, DoSave, DoObserveWrite;
    ReachC11();
    AllAllowed();
    ReachDone(C11, LONGEST_ATTEMPT, ButWrites);
    ActsAreUncut(C11, LONGEST_ATTEMPT);
    UncutCreateEmptyArchive(C11.res, TC1);
    assert ActUntilDone(C11, LONGEST_ATTEMPT) == C12;
  }

  /** The observation reads as a workspace without anything, archiving times out before a better
      one, and an empty archive is made in the place of the one that holds the home. */
  lemma MissedArchiveLosesHome()
    ensures exists end ::
              && Reachable(end, ButWrites)
              && Live(end.row) && end.row.value.archiveKey == Some("q") && end.res.volume.None?
              && end.home == WORK && SlotOf(end.res, "q").tar == Some(EMPTY_BLOB)
              && SlotOf(end.res, "m").tar == Some(Blob(end.home, 0)) && "m" !in Protected(end.row)
  {
    hide Reachable, Faultless, Plan, Uncut, ActUntilDone, DoLoad, DoAct, DoObserveWrite;
    ReachC12();
    AllAllowed();
    ReachSaved(C12, 700, "r", ButWrites);
    assert Apply(C12, Save(700, "r")) == C13;
    assert Reachable(C13, ButWrites);
  }

  // ----- a HEAD request fails -----

  const E1 := ARCHIVED.(wc := Busy(TB1), began := Some(0), used := U7 + {"o"})
  const E2 := ARCHIVED.(wc := Busy(TB1.(pc := Mount)), began := Some(0), used := U7 + {"o"})
  const E3 := ARCHIVED.(res := Y1, wc := Busy(TB1.(pc := Head)), began := Some(0), used := U7 + {"o"})

  lemma ReachE1()
    ensures Reachable(E1, Faultless)
  {
    hide Reachable, Faultless, Uncut, ActUntilDone, DoAct, DoSave, DoObserveWrite;
    ReachArchived();
    ReachLoaded(ARCHIVED, "o", 600, Faultless);
    assert Apply(ARCHIVED, Load("o", 600)) == E1;
  }

  lemma ReachE2()
    ensures Reachable(E2, Faultless)
  {
    hide DoLoad, DoSave, DoObserveWrite;
    ReachE1();
    hide Sound, GcTimely, SealKeeps, Tidy, UserKeeps, MountKeeps, TarKeeps, RestoreKeeps, TimeoutKeeps, WriteKeeps, OnTime;
    PlainAct(E1);
    Reach(E1, Act(NO_CHOICE), E2, Faultless);
  }

  lemma ReachE3()
    ensures Reachable(E3, Faultless)
  {
    hide DoLoad, DoSave, DoObserveWrite;
    ReachE2();
    Reach(E2, Act(NO_CHOICE), E3, Faultless);
  }

  const H1 := ARCHIVED.(res := Y1, wc := Busy(TB1.(pc := PutTar)), began := Some(0), used := U7 + {"o"})
  const H2 := ARCHIVED.(res := Y6, wc := Busy(TB1.(pc := PutMeta(EMPTY_BLOB))), began := Some(0), used := U7 + {"o"})
  const H3 := ARCHIVED.(res := Y7, wc := Busy(TB1.(pc := KeepKey)), began := Some(0), used := U7 + {"o"})

  lemma ReachH1()
    ensures Reachable(H1, ButTars)
  {
    hide DoLoad, DoSave, DoObserveWrite;
    AllAllowed();
    ReachE3();
    ReachMore(E3, Faultless, ButTars);
    Reach(E3, Act(HEAD_FAILS), H1, ButTars);
  }

  lemma ReachH2()
    ensures Reachable(H2, ButTars)
  {
    hide DoLoad, DoSave, DoObserveWrite;
    ReachH1();
    Reach(H1, Act(NO_CHOICE), H2, ButTars);
  }

  /** The job entered again packs the empty volume over the whole archive: neither volume nor
      archive holds the home any more. */
  lemma FailedHeadLosesHome()
    ensures exists end ::
              && Reachable(end, ButTars)
              && Live(end.row) && end.row.value.archiveKey == Some("m") && Committed(SlotOf(end.res, "m"))
              && end.home == WORK && end.res.volume == Some(EMPTY_HOME) && end.res.tars == map["m" := EMPTY_BLOB]
  {
    hide DoLoad, DoSave, DoObserveWrite;
    ReachH2();
    hide Sound, GcTimely, SealKeeps, Tidy, UserKeeps, MountKeeps, TarKeeps, RestoreKeeps, TimeoutKeeps, WriteKeeps, OnTime;
    PlainAct(H2);
    Reach(H2, Act(NO_CHOICE), H3, ButTars);
    assert Reachable(H3, ButTars);
    assert "notes" in WORK && "notes" !in EMPTY_HOME;
  }

  // ----- and the job dies between the uploads -----

  const REPACKED := Blob(WORK, 1)
  const OTHER_NONCE := Choice(1, None, false)

  const Z1 := X8.(tars := map["m" := REPACKED])
  const Z2 := Z1.(volume := None)

  const L1 := ARCHIVED.(row := Some(R10), res := X6, wc := Busy(T6.(pc := Mount)), began := Some(0),
                        used := U6 + {"m"})
  const L2 := ARCHIVED.(row := Some(R10), res := X6, wc := Busy(T6.(pc := Head)), began := Some(0),
                        used := U6 + {"m"})
  const L3 := ARCHIVED.(row := Some(R10), res := X6, wc := Busy(T6.(pc := PutTar)), began := Some(0),
                        used := U6 + {"m"})
  const L4 := ARCHIVED.(row := Some(R10), res := X7, wc := Busy(T6.(pc := PutMeta(PACKED))), began := Some(0),
                        used := U6 + {"m"})
  const L5 := ARCHIVED.(row := Some(R10), res := X8, wc := Busy(T6.(pc := KeepKey)), began := Some(0),
                        used := U6 + {"m"})
  const L6 := ARCHIVED.(row := Some(R10), res := X8, wc := Busy(T6.(pc := Failed)), began := Some(0),
                        used := U6 + {"m"})
  const L7 := ARCHIVED.(row := Some(R10), res := X8, wc := Busy(T6), began := Some(0), used := U6 + {"m"})
  const L8 := ARCHIVED.(row := Some(R10), res := X8, wc := Busy(T6.(pc := Mount)), began := Some(0),
                        used := U6 + {"m"})
  const L9 := ARCHIVED.(row := Some(R10), res := X8, wc := Busy(T6.(pc := Head)), began := Some(0),
                        used := U6 + {"m"})
  const L10 := ARCHIVED.(row := Some(R10), res := X8, wc := Busy(T6.(pc := PutTar)), began := Some(0),
                         used := U6 + {"m"})
  const L11 := ARCHIVED.(row := Some(R10), res := Z1, wc := Busy(T6.(pc := PutMeta(REPACKED))), began := Some(0),
                         used := U6 + {"m"})
  const L12 := ARCHIVED.(row := Some(R10), res := Z1, wc := Busy(T6.(pc := Failed)), began := Some(0),
                         used := U6 + {"m"})
  const L13 := ARCHIVED.(row := Some(R10), res := Z1, wc := Busy(T6), began := Some(0), used := U6 + {"m"})
  const L14 := ARCHIVED.(row := Some(R10), res := Z2, wc := Busy(T7.(pc := Finished)), began := Some(0),
                         used := U6 + {"m"})
  const L15 := ARCHIVED.(res := Z2)

  lemma ReachL2()
    ensures Reachable(L2, ButSeals)
  {
    hide DoLoad, DoSave, DoObserveWrite;
    AllAllowed();
    ReachS22();
    ReachMore(S22, Faultless, ButSeals);
    hide Sound, GcTimely, SealKeeps, Tidy, UserKeeps, MountKeeps, TarKeeps, RestoreKeeps, TimeoutKeeps, WriteKeeps, OnTime;
    PlainAct(S22);
    Reach(S22, Act(NO_CHOICE), L1, ButSeals);
    PlainAct(L1);
    Reach(L1, Act(NO_CHOICE), L2, ButSeals);
  }

  lemma ReachL4()
    ensures Reachable(L4, ButSeals)
  {
    hide DoLoad, DoSave, DoObserveWrite;
    ReachL2();
    hide Sound, GcTimely, SealKeeps, Tidy, UserKeeps, MountKeeps, TarKeeps, RestoreKeeps, TimeoutKeeps, WriteKeeps, OnTime;
    PlainAct(L2);
    Reach(L2, Act(NO_CHOICE), L3, ButSeals);
    PlainAct(L3);
    Reach(L3, Act(NO_CHOICE), L4, ButSeals);
  }

  lemma ReachL5()
    ensures Reachable(L5, ButSeals)
  {
    hide DoLoad, DoSave, DoObserveWrite;
    ReachL4();
    hide Sound, GcTimely, SealKeeps, Tidy, UserKeeps, MountKeeps, TarKeeps, RestoreKeeps, TimeoutKeeps, WriteKeeps, OnTime;
    PlainAct(L4);
    Reach(L4, Act(NO_CHOICE), L5, ButSeals);
  }

  lemma ReachL7()
    ensures Reachable(L7, ButSeals)
  {
    hide DoLoad, DoAct, DoSave, DoObserveWrite;
    ReachL5();
    Reach(L5, Abandon, L6, ButSeals);
    Reach(L6, Retry, L7, ButSeals);
  }

  lemma ReachL9()
    ensures Reachable(L9, ButSeals)
  {
    hide DoLoad, DoSave, DoObserveWrite;
    ReachL7();
    hide Sound, GcTimely, SealKeeps, Tidy, UserKeeps, MountKeeps, TarKeeps, RestoreKeeps, TimeoutKeeps, WriteKeeps, OnTime;
    PlainAct(L7);
    Reach(L7, Act(NO_CHOICE), L8, ButSeals);
    PlainAct(L8);
    Reach(L8, Act(NO_CHOICE), L9, ButSeals);
  }

  lemma ReachL11()
    ensures Reachable(L11, ButSeals)
  {
    hide DoLoad, DoSave, DoObserveWrite;
    ReachL9();
    Reach(L9, Act(HEAD_FAILS), L10, ButSeals);
    Reach(L10, Act(OTHER_NONCE), L11, ButSeals);
  }

  lemma ReachL13()
    ensures Reachable(L13, ButSeals)
  {
    hide DoLoad, DoAct, DoSave, DoObserveWrite;
    ReachL11();
    Reach(L11, Abandon, L12, ButSeals);
    Reach(L12, Retry, L13, ButSeals);
  }

  lemma ReachL14()
    ensures Reachable(L14, ButSeals)
  {
    hide Reachable, Faultless, Plan, Uncut, ActUntilDone, DoLoad, DoSave, DoObserveWrite;
    ReachL13();
    AllAllowed();
    ReachDone(L13, LONGEST_ATTEMPT, ButSeals);
    ActsAreUncut(L13, LONGEST_ATTEMPT);
    UncutArchiving(L13.res, T6);
    assert ActUntilDone(L13, LONGEST_ATTEMPT) == L14;
  }

  /** The same home is packed again over its archive, differently, and the marker of the first
      packing stays. The next entry takes the pair for whole and removes the volume: no restore
      will ever accept it. */
  lemma TornPairLosesHome()
    ensures exists end ::
              && Reachable(end, ButSeals)
              && Live(end.row) && end.row.value.archiveKey == Some("m") && end.res.volume.None?
              && BothPresent(SlotOf(end.res, "m")) && !Committed(SlotOf(end.res, "m"))
              && end.home == WORK
  {
    hide Reachable, Faultless, Plan, Uncut, ActUntilDone, DoLoad, DoAct, DoObserveWrite;
    ReachL14();
    AllAllowed();
    ReachSaved(L14, 0, "n", ButSeals);
    assert Apply(L14, Save(0, "n")) == L15;
    assert Reachable(L15, ButSeals);
  }

  // ----- a job entered again is given up, and archiving times out -----

  const TO1 := Tick(RA1, Begin(Archiving, Phase.Standby, Some("s")), "s", Enter)
  const TO2 := TO1.(action := TO1.action.(archiveKey := Some("s")))
  const RO1 := RA1.(phase := Phase.Standby, operation := Archiving, opStartedAt := Some(700), opId := Some("s"),
                    archiveKey := Some("s"), errorReason := None)
  const W3 := Uploaded(X9, "s", EMPTY_BLOB)

  const O1 := ARCHIVED.(res := Y1, wc := Busy(TB1.(pc := Failed)), began := Some(0), used := U7 + {"o"})
  const O2 := ARCHIVED.(res := Y1, wc := Busy(TB1.(pc := Finished)), began := Some(0), used := U7 + {"o"})
  const O3 := ARCHIVED.(res := Y1, used := U8)
  const O4 := ARCHIVED.(res := Y1, now := 700, used := U8)
  const O5 := ARCHIVED.(res := Y1, wc := Busy(TA1), now := 700, began := Some(700), used := U8 + {"q"},
                        tainted := true)
  const O6 := ARCHIVED.(row := Some(RA1), res := Y1, now := 700, used := U9, tainted := true)
  const O7 := ARCHIVED.(row := Some(RA1), res := Y1, wc := Busy(TO1), now := 700, began := Some(700),
                        used := U9 + {"s"}, tainted := true)
  const O8 := ARCHIVED.(row := Some(RA1), res := W3, wc := Busy(TO2.(pc := Finished)), now := 700,
                        began := Some(700), used := U9 + {"s"}, tainted := true)
  const O9 := ARCHIVED.(row := Some(RO1), res := W3, now := 700, used := U10, tainted := true)

  lemma ReachO1()
    ensures Reachable(O1, ButTimeouts)
  {
    hide DoLoad, DoAct, DoSave, DoObserveWrite;
    AllAllowed();
    ReachE3();
    ReachMore(E3, Faultless, ButTimeouts);
    Reach(E3, Abandon, O1, ButTimeouts);
  }

  lemma ReachO2()
    ensures Reachable(O2, ButTimeouts)
  {
    hide DoLoad, DoAct, DoSave, DoObserveWrite;
    ReachO1();
    Reach(O1, GiveUp, O2, ButTimeouts);
  }

  lemma ReachO3()
    ensures Reachable(O3, ButTimeouts)
  {
    hide Reachable, Faultless, Plan, Uncut, ActUntilDone, DoLoad, DoAct, DoObserveWrite;
    ReachO2();
    AllAllowed();
    ReachSaved(O2, 0, "p", ButTimeouts);
    assert Apply(O2, Save(0, "p")) == O3;
  }

  lemma ReachO4()
    ensures Reachable(O4, ButTimeouts)
  {
    hide DoLoad, DoAct, DoSave, DoObserveWrite;
    ReachO3();
    Reach(O3, Elapse(700), O4, ButTimeouts);
  }

  lemma MayO5()
    ensures ButTimeouts(O4, Load("q", 600))
  {
  }

  lemma ReachO5()
    ensures Reachable(O5, ButTimeouts)
  {
    hide DoAct, DoSave, DoObserveWrite;
    ReachO4();
    MayO5();
    hide ButTimeouts, Reachable;
    Reach(O4, Load("q", 600), O5, ButTimeouts);
  }

  lemma ReachO6()
    ensures Reachable(O6, ButTimeouts)
  {
    hide Reachable, Faultless, Plan, Uncut, ActUntilDone, DoLoad, DoAct, DoObserveWrite;
    ReachO5();
    AllAllowed();
    ReachSaved(O5, 700, "r", ButTimeouts);
    assert Apply(O5, Save(700, "r")) == O6;
  }

  lemma ReachO7()
    ensures Reachable(O7, ButTimeouts)
  {
    hide Reachable, Faultless, Uncut, ActUntilDone, DoAct, DoSave, DoObserveWrite;
    ReachO6();
    AllAllowed();
    ReachLoaded(O6, "s", 600, ButTimeouts);
    assert Apply(O6, Load("s", 600)) == O7;
  }

  lemma ReachO8()
    ensures Reachable(O8, ButTimeouts)
  {
    hide Reachable, Faultless, Plan, Uncut, ActUntilDone, DoLoad, DoSave, DoObserveWrite;
    ReachO7();
    AllAllowed();
    ReachDone(O7, LONGEST_ATTEMPT, ButTimeouts);
    ActsAreUncut(O7, LONGEST_ATTEMPT);
    UncutArchiving(O7.res, TO1);
    assert ActUntilDone(O7, LONGEST_ATTEMPT) == O8;
  }

  /** The empty volume it leaves is taken for the home and archived under another key. */
  lemma TimedOutJobLosesHome()
    ensures exists end ::
              && Reachable(end, ButTimeouts)
              && Live(end.row) && end.row.value.archiveKey == Some("s") && end.res.volume.None?
              && end.home == WORK && SlotOf(end.res, "s").tar == Some(EMPTY_BLOB)
              && SlotOf(end.res, "m").tar == Some(Blob(end.home, 0)) && "m" !in Protected(end.row)
  {
    hide Reachable, Faultless, Plan, Uncut, ActUntilDone, DoLoad, DoAct, DoObserveWrite;
    ReachO8();
    AllAllowed();
    ReachSaved(O8, 700, "t", ButTimeouts);
    assert Apply(O8, Save(700, "t")) == O9;
    assert Reachable(O9, ButTimeouts);
  }

  // ----- a first restore is cut short -----

  const X10 := X9.(volume := Some(EMPTY_HOME))
  const RN1 := R14.(operation := Restoring, opStartedAt := Some(0), opId := Some("q"))
  const RN2 := RN1.(conditions := Conditions(None, Some(true), Some(true)))
  const RN3 := RN2.(phase := Phase.Standby, operation := NoOperation, opStartedAt := None)
  const TN1 := Tick(RN2, Idle(Phase.Standby, None, true), "q", Finished)

  const N1 := ARCHIVED.(row := Some(R14), wc := Busy(T9.(pc := CreateVolume)), began := Some(0), used := U8 + {"q"},
                        volumeDir := Up)
  const N2 := ARCHIVED.(row := Some(R14), res := X10, wc := Busy(T9.(pc := Fetch)), began := Some(0),
                        used := U8 + {"q"}, volumeDir := Up)
  const N3 := ARCHIVED.(row := Some(R14), res := X10, wc := Busy(T9.(pc := Failed)), began := Some(0),
                        used := U8 + {"q"}, volumeDir := Up)
  const N4 := ARCHIVED.(row := Some(R14), res := X10, wc := Busy(T9.(pc := Finished)), began := Some(0),
                        used := U8 + {"q"}, volumeDir := Up)
  const N5 := ARCHIVED.(row := Some(RN1), res := X10, used := U9, volumeDir := Up)
  const N6 := ARCHIVED.(row := Some(RN2), res := X10, used := U9, volumeDir := Up)
  const N7 := ARCHIVED.(row := Some(RN2), res := X10, wc := Busy(TN1), began := Some(0), used := U9 + {"s"},
                        volumeDir := Up)
  const N8 := ARCHIVED.(row := Some(RN3), res := X10, used := U10, volumeDir := Up)

  lemma ReachN1()
    ensures Reachable(N1, ButRestores)
  {
    hide DoLoad, DoSave, DoObserveWrite;
    AllAllowed();
    ReachS29();
    ReachMore(S29, Faultless, ButRestores);
    hide Sound, GcTimely, SealKeeps, Tidy, UserKeeps, MountKeeps, TarKeeps, RestoreKeeps, TimeoutKeeps, WriteKeeps, OnTime;
    PlainAct(S29);
    Reach(S29, Act(NO_CHOICE), N1, ButRestores);
  }

  lemma ReachN2()
    ensures Reachable(N2, ButRestores)
  {
    hide DoLoad, DoSave, DoObserveWrite;
    ReachN1();
    hide Sound, GcTimely, SealKeeps, Tidy, UserKeeps, MountKeeps, TarKeeps, RestoreKeeps, TimeoutKeeps, WriteKeeps, OnTime;
    PlainAct(N1);
    Reach(N1, Act(NO_CHOICE), N2, ButRestores);
  }

  lemma ReachN4()
    ensures Reachable(N4, ButRestores)
  {
    hide DoLoad, DoAct, DoSave, DoObserveWrite;
    ReachN2();
    Reach(N2, Abandon, N3, ButRestores);
    Reach(N3, GiveUp, N4, ButRestores);
  }

  lemma ReachN5()
    ensures Reachable(N5, ButRestores)
  {
    hide Reachable, Faultless, Plan, Uncut, ActUntilDone, DoLoad, DoAct, DoObserveWrite;
    ReachN4();
    AllAllowed();
    ReachSaved(N4, 0, "r", ButRestores);
    assert Apply(N4, Save(0, "r")) == N5;
  }

  lemma ReachN7()
    ensures Reachable(N7, ButRestores)
  {
    hide Reachable, Faultless, Uncut, ActUntilDone, DoAct, DoSave, DoObserveWrite;
    ReachN5();
    AllAllowed();
    assert "m" in X10.tars.Keys;
    ReachLooked(N5, ButRestores);
    assert Looked(N5) == N6;
    ReachLoaded(N6, "s", 600, ButRestores);
    assert Apply(N6, Load("s", 600)) == N7;
  }

  /** The observer sees the new volume, and for want of a marker that is the end of RESTORING: the
      workspace is as desired, on an empty volume. */
  lemma CutRestoreLosesHome()
    ensures exists end ::
              && Reachable(end, ButRestores)
              && Live(end.row) && !OperationUnderWay(end) && end.row.value.phase == PhaseFromDesired(end.row.value.desired)
              && InStep(end.row.value.conditions, end.obs, end.res)
              && end.home == WORK && end.res.volume == Some(EMPTY_HOME)
  {
    hide Reachable, Faultless, Plan, Uncut, ActUntilDone, DoLoad, DoAct, DoObserveWrite;
    ReachN7();
    AllAllowed();
    ReachSaved(N7, 0, "t", ButRestores);
    assert Apply(N7, Save(0, "t")) == N8;
    assert Reachable(N8, ButRestores);
  }

  // ----- the collector lists and reads inside a first tick -----

  const K1 := INIT.(row := Some(NewRow(0)))
  const K2 := INIT.(row := Some(NewRow(0).(desired := Desired.Archived)))
  const TK1 := Tick(K2.row.value, Begin(CreateEmptyArchive, Phase.Pending, Some("a")), "a", Enter)
  const K3 := K2.(wc := Busy(TK1), began := Some(0), used := {"a"})
  const K4 := K3.(wc := Busy(TK1.(pc := PutTar)))
  const K5 := K4.(wc := Busy(TK1.(pc := PutMeta(EMPTY_BLOB))), res := NO_RESOURCES.(tars := map["a" := EMPTY_BLOB]))
  const K6 := K5.(gc := INIT.gc.(keys := {"a"}))
  const K7 := K5.(gc := INIT.gc.(orphans := {"a"}))
  const K8 := K7.(wc := Busy(TK1.(pc := KeepKey)), res := K7.res.(metas := map["a" := Sha256(EMPTY_BLOB)]))
  const K9 := K8.(wc := Busy(TK1.(pc := Finished, action := TK1.action.(archiveKey := Some("a")))))
  const K10 := K9.(res := K9.res.(tars := map[]))

  lemma ReachK2()
    ensures Reachable(K2, ButCollector)
  {
    hide DoLoad, DoAct, DoSave, DoObserveWrite;
    ReachInit(ButCollector);
    Reach(INIT, ApiCreate, K1, ButCollector);
    Reach(K1, SetDesired(Desired.Archived), K2, ButCollector);
  }

  lemma ReachK3()
    ensures Reachable(K3, ButCollector)
  {
    hide DoAct, DoSave, DoObserveWrite;
    ReachK2();
    Reach(K2, Load("a", 600), K3, ButCollector);
  }

  lemma ReachK5()
    ensures Reachable(K5, ButCollector)
  {
    hide DoLoad, DoSave, DoObserveWrite;
    ReachK3();
    Reach(K3, Act(NO_CHOICE), K4, ButCollector);
    Reach(K4, Act(NO_CHOICE), K5, ButCollector);
  }

  lemma ReachK6()
    ensures Reachable(K6, ButCollector)
  {
    hide DoLoad, DoAct, DoSave, DoObserveWrite;
    ReachK5();
    Reach(K5, GcListKeys, K6, ButCollector);
  }

  lemma ReachK7()
    ensures Reachable(K7, ButCollector)
  {
    hide DoLoad, DoAct, DoSave, DoObserveWrite;
    ReachK6();
    assert K6.gc.keys - Protected(K6.row) == {"a"};
    Reach(K6, GcReadKeys, K7, ButCollector);
  }

  lemma ReachK9()
    ensures Reachable(K9, ButCollector)
  {
    hide DoLoad, DoSave, DoObserveWrite;
    ReachK7();
    Reach(K7, Act(NO_CHOICE), K8, ButCollector);
    Reach(K8, Act(NO_CHOICE), K9, ButCollector);
  }

  lemma ReachK10()
    ensures Reachable(K10, ButCollector)
  {
    hide DoLoad, DoAct, DoSave, DoObserveWrite;
    ReachK9();
    Reach(K9, GcDropTar("a"), K10, ButCollector);
  }

  /** List and read inside the first tick, delete, save: the live row ends up naming an archive
      that is gone. */
  lemma GcInsideFirstTick()
    ensures exists end ::
              && Reachable(end, ButCollector)
              && Live(end.row) && end.row.value.archiveKey == Some("a") && SlotOf(end.res, "a").tar.None?
  {
    hide Reachable, Faultless, DoLoad, DoAct, DoObserveWrite;
    ReachK10();
    AllAllowed();
    ReachSaved(K10, 0, "b", ButCollector);
    assert Live(Apply(K10, Save(0, "b")).row);
  }
}
