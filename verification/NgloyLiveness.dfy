/** What the Ngloy controller reaches when nothing fails: the exact states from which repeated runs
    converge, convergence after the last edit, and the work queue that runs empty. */
module NgloyLiveness {
  import opened Wrappers
  import opened Kube
  import opened SpecJson
  import opened NgloyChildren
  import opened Store
  import opened NgloyMachine
  import opened NgloySafety
  import opened NgloyConvergence

  ghost predicate Live(k: Key, s: System) {
    Inv(k, s) && !s.store.crs[k].meta.deleting
  }

  /** `n` calls without a fault. */
  function Quiet(k: Key, s: System, n: nat): System
    decreases n
  {
    if n == 0 then s else Quiet(k, CallStep(k, s, Healthy), n - 1)
  }

  /** One run of Reconcile without a fault; no path makes more than six calls. */
  function RunOnce(k: Key, s: System): System {
    Quiet(k, s.(pc := ReadCr), 6)
  }

  function Runs(k: Key, s: System, n: nat): System
    decreases n
  {
    if n == 0 then s else Runs(k, RunOnce(k, s), n - 1)
  }

  /** All that matters about the children and the annotation. */
  datatype Sight = Sight(dep: bool, svc: bool, ann: bool, depOk: bool, svcOk: bool)

  function See(k: Key, st: Store<NgloySpec>): Sight
    requires k in st.crs
  {
    Sight(HasDep(k, st), HasSvc(k, st), HasAnn(k, st), DepMatches(k, st), SvcMatches(k, st))
  }

  /** What one run makes of it. */
  function After(v: Sight): Sight {
    if v.dep && !v.ann then v
    else if v.dep && !v.svc then v.(depOk := true)
    else if !v.dep && v.svc then v.(dep := true, depOk := true)
    else Sight(true, true, true, true, true)
  }

  // ----- the calls of one run -----

  lemma QuietReads(k: Key, s: System)
    requires Live(k, s) && s.pc == ReadCr
    ensures var cr := s.store.crs[k];
            Quiet(k, s, 6) == Quiet(k, s.(pc := ReadDep(cr)), 5)
    ensures var cr := s.store.crs[k];
            Quiet(k, s.(pc := ReadDep(cr)), 5) ==
            if !HasDep(k, s.store) then Quiet(k, s.(pc := CreateDeploy(cr)), 4)
            else if HasAnn(k, s.store) then Quiet(k, s.(pc := ReadDepAgain(cr)), 4)
            else Quiet(k, Return(s, true), 4)
  {
    hide Decodes, Marshal, NewDeploy, NewService;
  }

  lemma QuietReturned(k: Key, s: System, n: nat)
    requires s.pc.Returned?
    ensures Quiet(k, s, n) == s
    decreases n
  {
    hide Decodes, Marshal, NewDeploy, NewService;
    if n > 0 {
      QuietReturned(k, s, n - 1);
    }
  }

  /** A call without a fault at `s`, where nothing has been edited since the run began, makes `t`. */
  ghost predicate Goes(k: Key, s: System, t: System)
    requires k in s.store.crs
  {
    && Live(k, t) && t == CallStep(k, s, Healthy)
    && t.store.crs[k].spec == s.store.crs[k].spec
  }

  lemma CreateDeployGoes(k: Key, s: System)
    requires Live(k, s) && s.pc == CreateDeploy(s.store.crs[k])
    ensures var t := CallStep(k, s, Healthy);
            && Goes(k, s, t) && t.pc == CreateService(t.store.crs[k])
            && DepMatches(k, t.store) && t.store.svcs == s.store.svcs && t.store.crs == s.store.crs
  {
    hide Decodes, Marshal, DeploymentFor, ServiceFor;
    CallKeeps(k, s, Healthy);
  }

  lemma CreateServiceGoes(k: Key, s: System)
    requires Live(k, s) && s.pc == CreateService(s.store.crs[k])
    ensures var t := CallStep(k, s, Healthy);
            && Goes(k, s, t) && t.store.deps == s.store.deps && t.store.crs == s.store.crs
            && if HasSvc(k, s.store) then t.pc == Returned(true) && t.store.svcs == s.store.svcs && t.queued
               else t.pc == WriteAnnotation(t.store.crs[k]) && SvcMatches(k, t.store)
  {
    hide Decodes, Marshal, DeploymentFor, ServiceFor;
    CallKeeps(k, s, Healthy);
  }

  lemma WriteAnnotationGoes(k: Key, s: System)
    requires Live(k, s) && s.pc == WriteAnnotation(s.store.crs[k])
    ensures var t := CallStep(k, s, Healthy);
            && Goes(k, s, t) && t.store.deps == s.store.deps && t.store.svcs == s.store.svcs
            && t.pc == Returned(false) && t.queued && HasAnn(k, t.store)
            && Annotation(t.store.crs[k].meta, "spec") == Marshal(t.store.crs[k].spec)
  {
    hide Decodes, Marshal, DeploymentFor, ServiceFor;
    CallKeeps(k, s, Healthy);
    AnnotationRoundTrip(s.pc.cr.spec);
  }

  lemma UpdateDeployGoes(k: Key, s: System)
    requires Live(k, s) && s.pc.ReadDepAgain? && s.pc.cr == s.store.crs[k] && HasDep(k, s.store)
    ensures var t := CallStep(k, s, Healthy); var u := CallStep(k, t, Healthy);
            && Goes(k, s, t) && t.pc.UpdateDeploy? && t.pc.cr == t.store.crs[k] && t.queued == s.queued
            && Goes(k, t, u) && u.pc == ReadSvc(u.store.crs[k]) && u.queued == s.queued
            && DepMatches(k, u.store) && u.store.svcs == s.store.svcs && u.store.crs == s.store.crs
  {
    hide Decodes, Marshal, DeploymentFor, ServiceFor;
    CallKeeps(k, s, Healthy);
    CallKeeps(k, CallStep(k, s, Healthy), Healthy);
  }

  lemma UpdateServiceGoes(k: Key, s: System)
    requires Live(k, s) && s.pc == ReadSvc(s.store.crs[k])
    ensures var t := CallStep(k, s, Healthy); var u := CallStep(k, t, Healthy);
            && Goes(k, s, t) && t.store == s.store
            && if HasSvc(k, s.store) then
                 && t.pc.UpdateService? && t.pc.cr == t.store.crs[k] && t.queued == s.queued
                 && Goes(k, t, u) && u.pc == Returned(false) && u.queued == s.queued
                 && SvcMatches(k, u.store) && u.store.deps == s.store.deps && u.store.crs == s.store.crs
               else t.pc == Returned(true)
  {
    hide Decodes, Marshal, DeploymentFor, ServiceFor;
    CallKeeps(k, s, Healthy);
    CallKeeps(k, CallStep(k, s, Healthy), Healthy);
  }

  lemma CreateRun(k: Key, s: System)
    requires Live(k, s) && s.pc == CreateDeploy(s.store.crs[k])
    ensures var t := Quiet(k, s, 4);
            && Live(k, t) && t.pc.Returned? && t.store.crs[k].spec == s.store.crs[k].spec
            && See(k, t.store) == After(See(k, s.store))
  {
    hide Decodes, Marshal, DeploymentFor, ServiceFor, CallStep, Inv;
    assert !HasDep(k, s.store) by { InvHere(k, s); }
    CreateDeployGoes(k, s);
    var t1 := CallStep(k, s, Healthy);
    CreateServiceGoes(k, t1);
    var t2 := CallStep(k, t1, Healthy);
    assert Quiet(k, s, 4) == Quiet(k, t1, 3) == Quiet(k, t2, 2);
    if HasSvc(k, s.store) {
      QuietReturned(k, t2, 2);
    } else {
      WriteAnnotationGoes(k, t2);
      QuietReturned(k, CallStep(k, t2, Healthy), 1);
    }
  }

  lemma InvHere(k: Key, s: System)
    requires Inv(k, s)
    ensures k in s.store.crs && (s.pc.CreateDeploy? ==> !HasDep(k, s.store))
  {
  }

  lemma UpdateRun(k: Key, s: System)
    requires Live(k, s) && s.pc == ReadDepAgain(s.store.crs[k]) && HasDep(k, s.store) && HasAnn(k, s.store)
    ensures var t := Quiet(k, s, 4);
            && Live(k, t) && t.pc.Returned? && t.store.crs[k].spec == s.store.crs[k].spec
            && See(k, t.store) == After(See(k, s.store))
  {
    hide Decodes, Marshal, DeploymentFor, ServiceFor, CallStep, Inv;
    UpdateDeployGoes(k, s);
    var t1 := CallStep(k, s, Healthy);
    var t2 := CallStep(k, t1, Healthy);
    UpdateServiceGoes(k, t2);
    var t3 := CallStep(k, t2, Healthy);
    assert Quiet(k, s, 4) == Quiet(k, t1, 3) == Quiet(k, t2, 2) == Quiet(k, t3, 1);
    if !HasSvc(k, s.store) {
      QuietReturned(k, t3, 1);
    }
  }

  /** One run without a fault, by what it finds. */
  lemma {:induction false} RunOutcome(k: Key, s: System)
    requires Live(k, s) && s.pc.Returned?
    ensures var t := RunOnce(k, s);
            && Live(k, t) && t.pc.Returned? && t.store.crs[k].spec == s.store.crs[k].spec
            && See(k, t.store) == After(See(k, s.store))
  {
    hide Decodes, Marshal, DeploymentFor, ServiceFor, CallStep;
    var r := s.(pc := ReadCr);
    QuietReads(k, r);
    var cr := s.store.crs[k];
    if !HasDep(k, s.store) {
      CreateRun(k, r.(pc := CreateDeploy(cr)));
    } else if HasAnn(k, s.store) {
      UpdateRun(k, r.(pc := ReadDepAgain(cr)));
    } else {
      QuietReturned(k, Return(r, true), 4);
    }
  }

  /** An error at line 77 other than "not found" is ignored: if the Deployment exists the run goes on as if
      the read had succeeded; if not, nothing is created, and the run fails without a write. */
  lemma {:induction false} FailedReadOfDeployment(k: Key, s: System, f: Fault)
    requires Live(k, s) && s.pc.Returned? && f != Healthy
    ensures var t := Quiet(k, CallStep(k, CallStep(k, s.(pc := ReadCr), Healthy), f), 4);
            if HasDep(k, s.store) then t == RunOnce(k, s)
            else t.pc == Returned(true) && t.store == s.store && t.queued
  {
    hide Decodes, Marshal, DeploymentFor, ServiceFor, NewDeploy, NewService;
    var r := s.(pc := ReadCr);
    var s1 := CallStep(k, r, Healthy);
    assert s1 == s.(pc := ReadDep(s.store.crs[k]));
    var s2 := CallStep(k, s1, f);
    if HasDep(k, s.store) {
      assert s2 == CallStep(k, s1, Healthy);
      assert Quiet(k, r, 6) == Quiet(k, s1, 5) == Quiet(k, s2, 4);
    } else {
      var s3 := CallStep(k, s2, Healthy);
      assert s3.pc == Returned(true) && s3.store == s.store;
      QuietReturned(k, s3, 3);
      assert Quiet(k, s2, 4) == Quiet(k, s3, 3);
    }
  }

  // ----- the basin -----

  function AfterRuns(v: Sight, n: nat): Sight
    decreases n
  {
    if n == 0 then v else AfterRuns(After(v), n - 1)
  }

  lemma {:induction false} RunsOutcome(k: Key, s: System, n: nat)
    requires Live(k, s) && s.pc.Returned?
    ensures var t := Runs(k, s, n);
            && Live(k, t) && t.pc.Returned? && t.store.crs[k].spec == s.store.crs[k].spec
            && See(k, t.store) == AfterRuns(See(k, s.store), n)
    decreases n
  {
    hide Decodes, Marshal, DeploymentFor, ServiceFor, RunOnce, Inv, See, After;
    if n > 0 {
      RunOutcome(k, s);
      RunsOutcome(k, RunOnce(k, s), n - 1);
    }
  }

  lemma {:induction false} AfterTwo(v: Sight, n: nat)
    requires n >= 2 && (v.depOk ==> v.dep) && (v.svcOk ==> v.svc)
    ensures AfterRuns(v, n) == After(After(v)) && After(After(After(v))) == After(After(v))
    decreases n
  {
    if n > 2 {
      AfterTwo(After(v), n - 1);
    } else {
      assert AfterRuns(v, 2) == AfterRuns(After(v), 1) == AfterRuns(After(After(v)), 0);
    }
  }

  /** The basin, exactly. After two or more runs without a fault both children match the resource if
      and only if neither of them existed, or the Service existed and the annotation decoded, or
      nothing had to be written to a child that existed. */
  lemma {:induction false} ConvergenceExact(k: Key, s: System, n: nat)
    requires Live(k, s) && s.pc.Returned? && n >= 2
    ensures Matches(k, Runs(k, s, n).store) <==>
              || Basin(k, s.store)
              || (SvcMatches(k, s.store) && (HasDep(k, s.store) ==> DepMatches(k, s.store)))
  {
    hide Decodes, Marshal, DeploymentFor, ServiceFor, RunOnce;
    RunsOutcome(k, s, n);
    AfterTwo(See(k, s.store), n);
  }

  /** The third case is no convergence, only a coincidence: outside the basin some edit of the
      resource is never taken over. */
  lemma {:induction false} BasinExact(k: Key, s: System)
    requires Live(k, s) && s.pc.Returned?
    ensures Basin(k, s.store) <==> forall spec :: Matches(k, Runs(k, EditStep(k, s, k, spec), 2).store)
  {
    hide Decodes, Marshal, DeploymentFor, RunOnce, CallStep, Runs;
    forall spec
      ensures Matches(k, Runs(k, EditStep(k, s, k, spec), 2).store) <==>
                || Basin(k, s.store)
                || (HasSvc(k, s.store) && s.store.svcs[k].spec == ServiceFor(k.name, spec)
                    && (HasDep(k, s.store) ==> s.store.deps[k].spec == DeploymentFor(k.name, spec)))
    {
      EditKeeps(k, s, k, spec);
      ConvergenceExact(k, EditStep(k, s, k, spec), 2);
      EditSafe(k, s, k, spec);
    }
    if !Basin(k, s.store) {
      var other := if HasSvc(k, s.store) && s.store.svcs[k].spec.ports == None then Some([]) else None;
      var spec := s.store.crs[k].spec.(ports := other);
      assert !Matches(k, Runs(k, EditStep(k, s, k, spec), 2).store);
    }
  }

  // ----- level-triggered convergence -----

  /** Created: both children and the annotation are there, and no create is under way. */
  predicate Settled(k: Key, s: System) {
    && HasDep(k, s.store) && HasSvc(k, s.store) && HasAnn(k, s.store)
    && !s.pc.CreateDeploy? && !s.pc.CreateService? && !s.pc.WriteAnnotation?
  }

  lemma SettledKeeps(k: Key, s: System, e: Event)
    requires Live(k, s) && Settled(k, s)
    ensures var t := Next(k, s, e);
            && Live(k, t) && Settled(k, t)
            && Annotation(t.store.crs[k].meta, "spec") == Annotation(s.store.crs[k].meta, "spec")
  {
    hide Decodes, Marshal, DeploymentFor, ServiceFor, CallStep;
    NextKeeps(k, s, e);
    if e.Call? {
      CallEffect(k, s, e.fault);
    }
  }

  lemma {:induction false} SettledRun(k: Key, s: System, es: seq<Event>)
    requires Live(k, s) && Settled(k, s)
    ensures var t := Run(k, s, es);
            && Live(k, t) && Settled(k, t)
            && Annotation(t.store.crs[k].meta, "spec") == Annotation(s.store.crs[k].meta, "spec")
  {
    hide Decodes, Inv, Next;
    if es != [] {
      SettledRun(k, s, es[..|es| - 1]);
      SettledKeeps(k, Run(k, s, es[..|es| - 1]), es[|es| - 1]);
    }
  }

  /** Level-triggered convergence. Let the create branch finish, and then let anything happen: edits,
      also back to an earlier spec, and runs that fail anywhere. One run without a fault makes both
      children match the last spec, although the annotation still encodes the spec of the creation. */
  lemma {:induction false} LevelTriggered(k: Key, s: System, es: seq<Event>)
    requires Live(k, s) && s.pc == WriteAnnotation(s.store.crs[k])
    requires Run(k, CallStep(k, s, Healthy), es).pc.Returned?
    ensures var t := Run(k, CallStep(k, s, Healthy), es);
            && Matches(k, RunOnce(k, t).store)
            && Annotation(t.store.crs[k].meta, "spec") == Marshal(s.store.crs[k].spec)
  {
    hide Decodes, Marshal, DeploymentFor, ServiceFor, CallStep, RunOnce;
    WriteAnnotationGoes(k, s);
    var created := CallStep(k, s, Healthy);
    SettledRun(k, created, es);
    RunOutcome(k, Run(k, created, es));
  }

  // ----- the work queue runs empty -----

  /** The run in progress, if there is one, works on the resource as it is, and has found the
      Deployment if it is about to update it. */
  ghost predicate Calm(k: Key, s: System) {
    && Live(k, s) && Safe(k, s) && (HasCr(s.pc) ==> s.pc.cr == s.store.crs[k])
    && (s.pc.ReadDepAgain? ==> HasDep(k, s.store))
  }

  /** The worker's next step without a fault. */
  function Work(k: Key, s: System): System {
    if s.pc.Returned? then Next(k, s, Pick) else CallStep(k, s, Healthy)
  }

  predicate Idle(s: System) {
    s.pc.Returned? && !s.queued
  }

  /** How many steps of the worker are left at most: an update run takes a pick and six calls, and a
      create run, which wakes the controller once more, a pick and five calls before that. */
  function Budget(k: Key, s: System): nat {
    var again := if s.queued then 7 else 0;
    match s.pc
    case Returned(_) => if !s.queued then 0 else if HasDep(k, s.store) then 7 else 13
    case ReadCr => if HasDep(k, s.store) then 6 + again else 12
    case ReadDep(_) => if HasDep(k, s.store) then 5 + again else 11
    case CreateDeploy(_) => 10
    case CreateService(_) => 9
    case WriteAnnotation(_) => 8
    case ReadDepAgain(_) => 4 + again
    case UpdateDeploy(_, _) => 3 + again
    case ReadSvc(_) => 2 + again
    case UpdateService(_, _) => 1 + again
  }

  lemma WorkRead(k: Key, s: System)
    requires Calm(k, s) && !Idle(s) && (s.pc.Returned? || s.pc.ReadCr? || s.pc.ReadDep?)
    ensures Calm(k, Work(k, s)) && Budget(k, Work(k, s)) < Budget(k, s)
  {
    hide Decodes, Marshal, DeploymentFor, ServiceFor;
    if s.pc.Returned? {
      NextKeeps(k, s, Pick);
    } else {
      CallKeeps(k, s, Healthy);
      if s.pc.ReadCr? {
        assert Work(k, s).pc.ReadDep?;
      } else if HasDep(k, s.store) {
        assert HasAnn(k, s.store) && Work(k, s).pc.ReadDepAgain?;
      } else {
        assert Work(k, s).pc.CreateDeploy?;
      }
    }
  }

  lemma WorkUpdate(k: Key, s: System)
    requires Calm(k, s)
    requires s.pc.ReadDepAgain? || s.pc.UpdateDeploy? || s.pc.ReadSvc? || s.pc.UpdateService?
    ensures Calm(k, Work(k, s)) && Budget(k, Work(k, s)) < Budget(k, s)
  {
    hide Decodes, Marshal, DeploymentFor, ServiceFor;
    CallKeeps(k, s, Healthy);
    var t := Work(k, s);
    match s.pc
    case ReadDepAgain(_) => assert t.pc.UpdateDeploy? && t.queued == s.queued;
    case UpdateDeploy(_, _) => assert t.pc.ReadSvc? && t.queued == s.queued;
    case ReadSvc(_) => assert t.pc.UpdateService? && t.queued == s.queued;
    case UpdateService(_, _) => assert t.pc.Returned? && t.queued == s.queued && HasDep(k, t.store);
  }

  /** Without faults and edits every step of the worker brings the queue closer to empty, and never
      leaves the states it converges from. */
  lemma WorkDrains(k: Key, s: System)
    requires Calm(k, s) && !Idle(s)
    ensures Calm(k, Work(k, s)) && Budget(k, Work(k, s)) < Budget(k, s)
  {
    hide Decodes, Marshal, DeploymentFor, ServiceFor, CallStep;
    match s.pc
    case CreateDeploy(_) => CreateDeployGoes(k, s);
    case CreateService(_) => CreateServiceGoes(k, s);
    case WriteAnnotation(_) => WriteAnnotationGoes(k, s);
    case Returned(_) => WorkRead(k, s);
    case ReadCr => WorkRead(k, s);
    case ReadDep(_) => WorkRead(k, s);
    case _ => WorkUpdate(k, s);
  }

  function WorkFor(k: Key, s: System, n: nat): System
    decreases n
  {
    if n == 0 || Idle(s) then s else WorkFor(k, Work(k, s), n - 1)
  }

  lemma {:induction false} QueueDrains(k: Key, s: System, n: nat)
    requires Calm(k, s) && Budget(k, s) <= n
    ensures Calm(k, WorkFor(k, s, n)) && Idle(WorkFor(k, s, n))
    decreases n
  {
    hide Inv, Decodes, Work;
    if !Idle(s) {
      WorkDrains(k, s);
      if n > 0 {
        QueueDrains(k, Work(k, s), n - 1);
      }
    }
  }

  // ----- from the middle of a run -----

  /** The run under way is on its way to annotate a resource that was edited since it was read. */
  predicate Doomed(k: Key, s: System) {
    && (s.pc.ReadDep? || s.pc.CreateDeploy? || s.pc.CreateService? || s.pc.WriteAnnotation?)
    && k in s.store.crs && s.pc.cr != ZERO && s.pc.cr.meta.version != s.store.crs[k].meta.version
    && !HasAnn(k, s.store)
  }

  ghost predicate Good(k: Key, s: System) {
    Live(k, s) && Safe(k, s) && !Doomed(k, s)
  }

  /** Idle means that the last run succeeded, and no run succeeds outside the basin. */
  predicate RestsInBasin(k: Key, s: System) {
    Idle(s) ==> HasSvc(k, s.store) && HasAnn(k, s.store)
  }

  lemma RestCall(k: Key, s: System, f: Fault)
    requires Live(k, s) && RestsInBasin(k, s)
    ensures RestsInBasin(k, CallStep(k, s, f))
  {
    hide Decodes, Marshal, DeploymentFor, ServiceFor;
    if s.pc.WriteAnnotation? {
      AnnotationRoundTrip(s.pc.cr.spec);
    }
  }

  lemma RestKeeps(k: Key, s: System, e: Event)
    requires Live(k, s) && RestsInBasin(k, s)
    ensures RestsInBasin(k, Next(k, s, e))
  {
    hide Decodes, CallStep;
    if e.Call? {
      RestCall(k, s, e.fault);
    }
  }

  /** In every run from a fresh resource, an idle worker has left a Service and an annotation that decodes. */
  lemma {:induction false} RestMeansBasin(k: Key, s: System, es: seq<Event>)
    requires Fresh(k, s)
    ensures Live(k, Run(k, s, es)) && RestsInBasin(k, Run(k, s, es))
  {
    RestMeansMatch(k, s, es);
    if es != [] {
      hide Next, RestsInBasin;
      RestMeansBasin(k, s, es[..|es| - 1]);
      RestKeeps(k, Run(k, s, es[..|es| - 1]), es[|es| - 1]);
    }
  }

  lemma DoomedRead(k: Key, s: System)
    requires Live(k, s) && Safe(k, s) && (s.pc.ReadCr? || s.pc.ReadDep?)
    ensures Doomed(k, CallStep(k, s, Healthy)) <==> Doomed(k, s)
  {
    hide Decodes, Marshal, DeploymentFor, ServiceFor;
  }

  lemma DoomedCreate(k: Key, s: System)
    requires Live(k, s) && Safe(k, s) && (s.pc.CreateDeploy? || s.pc.CreateService?)
    ensures Doomed(k, CallStep(k, s, Healthy)) <==> Doomed(k, s)
  {
    hide Decodes, Marshal, DeploymentFor, ServiceFor;
  }

  lemma DoomedOther(k: Key, s: System)
    requires Live(k, s)
    requires s.pc.WriteAnnotation? || s.pc.ReadDepAgain? || s.pc.UpdateDeploy? || s.pc.ReadSvc? || s.pc.UpdateService?
    ensures !Doomed(k, CallStep(k, s, Healthy))
  {
    hide Decodes, Marshal, DeploymentFor, ServiceFor;
  }

  /** The worker's own steps without a fault neither doom a run nor save it. */
  lemma WorkGood(k: Key, s: System)
    requires Live(k, s) && !Idle(s)
    ensures Live(k, Work(k, s)) && (Good(k, Work(k, s)) <==> Good(k, s))
  {
    hide Decodes, Marshal, DeploymentFor, ServiceFor, CallStep;
    var e := if s.pc.Returned? then Pick else Call(Healthy);
    assert Work(k, s) == Next(k, s, e);
    NextKeeps(k, s, e);
    BasinLeftExact(k, s, e);
    if e.Call? {
      CallEffect(k, s, Healthy);
      if Safe(k, s) {
        if s.pc.ReadCr? || s.pc.ReadDep? {
          DoomedRead(k, s);
        } else if s.pc.CreateDeploy? || s.pc.CreateService? {
          DoomedCreate(k, s);
        } else {
          DoomedOther(k, s);
        }
      }
    }
  }

  /** How many calls the run under way makes at most. */
  function CallsLeft(pc: Pc): nat {
    match pc
    case Returned(_) => 0
    case ReadCr => 6
    case ReadDep(_) => 5
    case CreateDeploy(_) => 3
    case CreateService(_) => 2
    case WriteAnnotation(_) => 1
    case ReadDepAgain(_) => 4
    case UpdateDeploy(_, _) => 3
    case ReadSvc(_) => 2
    case UpdateService(_, _) => 1
  }

  lemma CallsGoDown(k: Key, s: System, f: Fault)
    requires !s.pc.Returned?
    ensures CallsLeft(CallStep(k, s, f).pc) < CallsLeft(s.pc)
  {
    hide Decodes, Marshal, DeploymentFor, ServiceFor, NewDeploy, NewService, CreateDep, CreateSvc, UpdateDep, UpdateSvc, UpdateCr, Create, Update;
  }

  lemma {:induction false} GoodDrains(k: Key, s: System, n: nat)
    requires Good(k, s) && CallsLeft(s.pc) + 13 <= n
    ensures Idle(WorkFor(k, s, n))
    decreases n
  {
    hide Inv, Decodes, CallStep, Safe;
    if s.pc.Returned? {
      QueueDrains(k, s, n);
    } else {
      WorkGood(k, s);
      CallsGoDown(k, s, Healthy);
      GoodDrains(k, Work(k, s), n - 1);
    }
  }

  lemma {:induction false} BadNeverRests(k: Key, s: System, n: nat)
    requires Live(k, s) && Awake(k, s) && RestsInBasin(k, s) && !Good(k, s)
    ensures !Idle(WorkFor(k, s, n))
    decreases n
  {
    hide Inv, Awake, Decodes, CallStep, RestsInBasin, Good;
    if Idle(s) {
      RestIsGood(k, s);
    } else if n > 0 {
      var e := if s.pc.Returned? then Pick else Call(Healthy);
      WorkGood(k, s);
      RestKeeps(k, s, e);
      AwakeKeeps(k, s, e);
      BadNeverRests(k, Work(k, s), n - 1);
    }
  }

  lemma RestIsGood(k: Key, s: System)
    requires Live(k, s) && RestsInBasin(k, s) && Idle(s)
    ensures Good(k, s)
  {
    hide Decodes;
  }

  /** Self-triggering dies out, exactly. However a run from a fresh resource went, let edits and faults
      stop at any moment, also in the middle of a Reconcile that works on a resource edited since. The
      worker comes to rest, after at most nineteen steps, if and only if the controller was not driven
      out of the basin and is not about to be, by a create run whose resource was edited under way;
      otherwise it retries for ever. When it rests, both children match the resource. */
  lemma {:induction false} SelfTriggeringDiesOut(k: Key, s: System, es: seq<Event>, n: nat)
    requires Fresh(k, s) && n >= 19
    ensures var r := Run(k, s, es); var t := WorkFor(k, r, n);
            && (Idle(t) <==> Safe(k, r) && !Doomed(k, r))
            && (Idle(t) ==> Matches(k, t.store))
  {
    hide Decodes, Marshal, DeploymentFor, ServiceFor, CallStep, Work, Safe, Doomed, Run;
    RestMeansMatch(k, s, es);
    RestMeansBasin(k, s, es);
    var r := Run(k, s, es);
    if Good(k, r) {
      GoodDrains(k, r, n);
    } else {
      BadNeverRests(k, r, n);
    }
    AwakeWhileWorking(k, r, n);
  }

  lemma {:induction false} AwakeWhileWorking(k: Key, s: System, n: nat)
    requires Inv(k, s) && Awake(k, s)
    ensures var t := WorkFor(k, s, n); Inv(k, t) && Awake(k, t)
    decreases n
  {
    hide Inv, Awake, Decodes, CallStep;
    if n > 0 && !Idle(s) {
      AwakeKeeps(k, s, if s.pc.Returned? then Pick else Call(Healthy));
      AwakeWhileWorking(k, Work(k, s), n - 1);
    }
  }
}
