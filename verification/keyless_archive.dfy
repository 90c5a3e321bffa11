/** A careful run that ends with an archive no key names: the first tick of
    CREATE_EMPTY_ARCHIVE is cut off between the two uploads, and the observer, for which the
    tar alone is an archive, completes the operation before it is entered again. */
module KeylessArchive {
  import opened Domain
  import opened Archive
  import opened Planner
  import opened Actuator
  import opened Controller
  import opened System
  import opened Safety
  import opened Contents
  import opened Convergence
  import opened Life

  // Rows: to be archived, archiving, observed, archived, wanted again.
  const Q1 := R0.(desired := Desired.Archived)
  const Q2 := Q1.(operation := CreateEmptyArchive, opStartedAt := Some(0), opId := Some("a"))
  const Q3 := Q2.(conditions := Conditions(None, None, Some(true)))
  const Q4 := Q3.(phase := Phase.Archived, operation := NoOperation, opStartedAt := None, phaseChangedAt := Some(0))
  const Q5 := Q4.(desired := Desired.Running)

  const TQ0 := Tick(Q1, Begin(CreateEmptyArchive, Phase.Pending, Some("a")), "a", Enter)
  const TQ1 := Tick(Q3, Idle(Phase.Archived, None, true), "a", Finished)

  const XQ := NO_RESOURCES.(tars := map["a" := EMPTY_BLOB])

  // The states of the run, in order; the first is INIT.
  const K1 := CREATED
  const K2 := INIT.(row := Some(Q1))
  const K3 := INIT.(row := Some(Q1), wc := Busy(TQ0), began := Some(0), used := {"a"})
  const K4 := INIT.(row := Some(Q1), wc := Busy(TQ0.(pc := PutTar)), began := Some(0), used := {"a"})
  const K5 := INIT.(row := Some(Q1), res := XQ, wc := Busy(TQ0.(pc := PutMeta(EMPTY_BLOB))), began := Some(0),
                    used := {"a"})
  const K6 := INIT.(row := Some(Q1), res := XQ, wc := Busy(TQ0.(pc := Failed)), began := Some(0), used := {"a"})
  const K7 := INIT.(row := Some(Q1), res := XQ, wc := Busy(TQ0.(pc := Finished)), began := Some(0), used := {"a"})
  const K8 := INIT.(row := Some(Q2), res := XQ, used := U1)
  const K9 := INIT.(row := Some(Q3), res := XQ, used := U1)
  const K10 := INIT.(row := Some(Q3), res := XQ, wc := Busy(TQ1), began := Some(0), used := U1 + {"c"})
  const K11 := INIT.(row := Some(Q4), res := XQ, used := U2)
  const K12 := INIT.(row := Some(Q5), res := XQ, used := U2)

  lemma AllAllowed()
    ensures Allows(Careful)
  {
  }

  lemma ReachK2()
    ensures Reachable(K2, Careful)
  {
    hide DoLoad, DoAct, DoSave, DoObserveWrite;
    ReachInit(Careful);
    Reach(INIT, ApiCreate, K1, Careful);
    Reach(K1, SetDesired(Desired.Archived), K2, Careful);
  }

  lemma ReachK3()
    ensures Reachable(K3, Careful)
  {
    hide Reachable, Faultless, Uncut, ActUntilDone, DoAct, DoSave, DoObserveWrite;
    ReachK2();
    AllAllowed();
    ReachLoaded(K2, "a", 600, Careful);
    assert Apply(K2, Load("a", 600)) == K3;
  }

  lemma ReachK5()
    ensures Reachable(K5, Careful)
  {
    hide DoLoad, DoSave, DoObserveWrite;
    ReachK3();
    Reach(K3, Act(NO_CHOICE), K4, Careful);
    Reach(K4, Act(NO_CHOICE), K5, Careful);
  }

  lemma ReachK6()
    ensures Reachable(K6, Careful)
  {
    hide DoLoad, DoAct, DoSave, DoObserveWrite;
    ReachK5();
    Reach(K5, Abandon, K6, Careful);
  }

  lemma ReachK7()
    ensures Reachable(K7, Careful)
  {
    hide DoLoad, DoAct, DoSave, DoObserveWrite;
    ReachK6();
    Reach(K6, GiveUp, K7, Careful);
  }

  lemma ReachK8()
    ensures Reachable(K8, Careful)
  {
    hide Reachable, Faultless, Plan, Uncut, ActUntilDone, DoLoad, DoAct, DoObserveWrite;
    ReachK7();
    AllAllowed();
    ReachSaved(K7, 0, "b", Careful);
    assert Apply(K7, Save(0, "b")) == K8;
  }

  lemma ReachK10()
    ensures Reachable(K10, Careful)
  {
    hide Reachable, Faultless, Uncut, ActUntilDone, DoAct, DoSave, DoObserveWrite;
    ReachK8();
    AllAllowed();
    assert "a" in XQ.tars.Keys;
    ReachLooked(K8, Careful);
    assert Looked(K8) == K9;
    ReachLoaded(K9, "c", 600, Careful);
    assert Apply(K9, Load("c", 600)) == K10;
  }

  lemma ReachK11()
    ensures Reachable(K11, Careful)
  {
    hide Reachable, Faultless, Plan, Uncut, ActUntilDone, DoLoad, DoAct, DoObserveWrite;
    ReachK10();
    AllAllowed();
    ReachSaved(K10, 0, "d", Careful);
    assert Apply(K10, Save(0, "d")) == K11;
  }

  /** So archives without a key are met by runs that keep every hypothesis. */
  lemma UnkeyedIsReachable()
    ensures exists end ::
              Reachable(end, Careful) && end.row.Some? && Unkeyed(State(end.row.value, end.res))
  {
    hide DoLoad, DoAct, DoSave, DoObserveWrite;
    ReachK11();
    Reach(K11, SetDesired(Desired.Running), K12, Careful);
    assert Reachable(K12, Careful);
    assert "a" in K12.res.tars.Keys;
  }
}
