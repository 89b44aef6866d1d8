/** From which states the Ngloy controller converges, how it can be driven out of them, and how it
    comes to rest. */
module NgloyConvergence {
  import opened Wrappers
  import opened Kube
  import opened SpecJson
  import opened NgloyChildren
  import opened Store
  import opened NgloyMachine
  import opened NgloySafety

  /** Neither child exists; or the Service exists and the annotation decodes. */
  predicate Basin(k: Key, st: Store<NgloySpec>) {
    (!HasDep(k, st) && !HasSvc(k, st)) || (HasSvc(k, st) && HasAnn(k, st))
  }

  /** The same between two calls of the create branch, which is about to establish it. */
  predicate Safe(k: Key, s: System) {
    if s.pc.CreateService? then HasDep(k, s.store) && (HasSvc(k, s.store) ==> HasAnn(k, s.store))
    else if s.pc.WriteAnnotation? then HasDep(k, s.store) && HasSvc(k, s.store)
    else Basin(k, s.store)
  }

  /** The call of the create branch that is about to be made will drive the controller out, given what
      befalls it. Between the two creates and the annotation nothing may fail that the annotation of an
      earlier create does not make up for; an edit under way is enough to fail the last call. */
  predicate Fatal(k: Key, s: System, f: Fault) {
    var st := s.store;
    match s.pc
    case CreateDeploy(cr) => f.Unacknowledged? && cr.meta.key.name != "" && !HasSvc(k, st)
    case CreateService(_) => !HasSvc(k, st) && (f.Rejected? || (f.Unacknowledged? && !HasAnn(k, st)))
    case WriteAnnotation(cr) =>
      !HasAnn(k, st) && (f.Rejected? || (k in st.crs && cr.meta.version != st.crs[k].meta.version))
    case _ => false
  }

  predicate FatalEvent(k: Key, s: System, e: Event) {
    e.Call? && Fatal(k, s, e.fault)
  }

  lemma CreateCallSafe(k: Key, s: System, f: Fault)
    requires Inv(k, s) && (s.pc.CreateDeploy? || s.pc.CreateService?)
    ensures Safe(k, CallStep(k, s, f)) <==> Safe(k, s) && !Fatal(k, s, f)
  {
    hide Decodes, Marshal, DeploymentFor, ServiceFor;
  }

  lemma AnnotateSafe(k: Key, s: System, f: Fault)
    requires Inv(k, s) && s.pc.WriteAnnotation?
    ensures Safe(k, s) && (Safe(k, CallStep(k, s, f)) <==> !Fatal(k, s, f))
  {
    hide Decodes, Marshal, DeploymentFor, ServiceFor;
    AnnotationRoundTrip(s.pc.cr.spec);
  }

  lemma OtherCallSafe(k: Key, s: System, f: Fault)
    requires Inv(k, s) && !s.pc.CreateDeploy? && !s.pc.CreateService? && !s.pc.WriteAnnotation?
    ensures Safe(k, CallStep(k, s, f)) <==> Safe(k, s)
  {
    hide Decodes, Marshal, DeploymentFor, ServiceFor, CallStep;
    CallEffect(k, s, f);
  }

  lemma EditSafe(k: Key, s: System, key: Key, spec: NgloySpec)
    requires Inv(k, s)
    ensures Safe(k, EditStep(k, s, key, spec)) <==> Safe(k, s)
  {
    hide Decodes;
  }

  /** Leaving the basin, exactly. One event leads out of the states the controller converges from if
      and only if it is a fatal call, which is told from the state before it and its fault; no event
      leads back in. So no failing read, no failing update and no user edit ever does harm. */
  lemma BasinLeftExact(k: Key, s: System, e: Event)
    requires Inv(k, s)
    ensures Safe(k, Next(k, s, e)) <==> Safe(k, s) && !FatalEvent(k, s, e)
  {
    hide Decodes, CallStep;
    match e
    case Pick =>
    case Call(f) =>
      if s.pc.CreateDeploy? || s.pc.CreateService? {
        CreateCallSafe(k, s, f);
      } else if s.pc.WriteAnnotation? {
        AnnotateSafe(k, s, f);
      } else {
        OtherCallSafe(k, s, f);
      }
    case Edit(key, spec) => EditSafe(k, s, key, spec);
  }

  /** A fatal call is one that the controller sees fail. */
  lemma FatalFails(k: Key, s: System, f: Fault)
    requires Inv(k, s) && Fatal(k, s, f)
    ensures CallStep(k, s, f).pc == Returned(true)
  {
    hide Decodes, Marshal, DeploymentFor, ServiceFor;
  }

  lemma {:induction false} RunInv(k: Key, s: System, es: seq<Event>)
    requires Inv(k, s)
    ensures Inv(k, Run(k, s, es))
  {
    if es != [] {
      RunInv(k, s, es[..|es| - 1]);
      NextKeeps(k, Run(k, s, es[..|es| - 1]), es[|es| - 1]);
    }
  }

  /** No event of this run was fatal when it came. */
  ghost predicate Unharmed(k: Key, s: System, es: seq<Event>) {
    forall i :: 0 <= i < |es| ==> !FatalEvent(k, Run(k, s, es[..i]), es[i])
  }

  lemma UnharmedStep(k: Key, s: System, es: seq<Event>)
    requires es != []
    ensures var n := |es| - 1;
            Unharmed(k, s, es) <==> Unharmed(k, s, es[..n]) && !FatalEvent(k, Run(k, s, es[..n]), es[n])
  {
    hide FatalEvent, Run;
    var n := |es| - 1;
    assert forall i :: 0 <= i < n ==> es[..n][..i] == es[..i];
    if Unharmed(k, s, es) {
      forall i | 0 <= i < n ensures !FatalEvent(k, Run(k, s, es[..n][..i]), es[..n][i]) {
        assert !FatalEvent(k, Run(k, s, es[..i]), es[i]);
      }
    }
    if Unharmed(k, s, es[..n]) && !FatalEvent(k, Run(k, s, es[..n]), es[n]) {
      forall i | 0 <= i < |es| ensures !FatalEvent(k, Run(k, s, es[..i]), es[i]) {
        assert i < n ==> !FatalEvent(k, Run(k, s, es[..n][..i]), es[..n][i]);
      }
    }
  }

  /** Over whole runs: the controller can still converge after a run if and only if it could before and
      no call of the run was fatal. */
  lemma {:induction false} BasinKept(k: Key, s: System, es: seq<Event>)
    requires Inv(k, s)
    ensures Safe(k, Run(k, s, es)) <==> Safe(k, s) && Unharmed(k, s, es)
  {
    if es != [] {
      hide Inv, Safe, FatalEvent, Next, Unharmed;
      var n := |es| - 1;
      RunInv(k, s, es[..n]);
      BasinKept(k, s, es[..n]);
      BasinLeftExact(k, Run(k, s, es[..n]), es[n]);
      UnharmedStep(k, s, es);
    }
  }

  lemma {:induction false} NoReturn(k: Key, s: System, es: seq<Event>)
    requires Inv(k, s) && !Safe(k, s)
    ensures !Safe(k, Run(k, s, es))
  {
    BasinKept(k, s, es);
  }

  // ----- a run that leads out -----

  /** A Deployment without Service and annotation: every later run stops at line 128. */
  predicate CutOff(k: Key, s: System) {
    && HasDep(k, s.store) && !HasSvc(k, s.store) && !HasAnn(k, s.store)
    && (s.pc.Returned? || s.pc.ReadCr? || s.pc.ReadDep?)
  }

  lemma CutOffCall(k: Key, s: System, f: Fault)
    requires Inv(k, s) && CutOff(k, s)
    ensures CutOff(k, CallStep(k, s, f)) && CallStep(k, s, f).store == s.store
  {
    hide Decodes, Marshal, DeploymentFor, ServiceFor;
    NoAnnotation();
  }

  lemma {:induction false} CutOffStays(k: Key, s: System, es: seq<Event>)
    requires Inv(k, s) && CutOff(k, s)
    ensures var t := Run(k, s, es); Inv(k, t) && CutOff(k, t) && t.store.deps == s.store.deps
  {
    if es != [] {
      hide Decodes, CallStep;
      var n := |es| - 1;
      var r := Run(k, s, es[..n]);
      CutOffStays(k, s, es[..n]);
      NextKeeps(k, r, es[n]);
      if es[n].Call? {
        CutOffCall(k, r, es[n].fault);
      }
    }
  }

  /** One transient fault is enough. The creation of the Service is rejected once, in the first run for a
      fresh resource; whatever follows, edits and retries included, there is never a Service, and the
      Deployment stays as it is. */
  lemma {:induction false} OneFaultCutsOff(k: Key, s: System, more: seq<Event>)
    requires Fresh(k, s) && !HasDep(k, s.store) && !HasSvc(k, s.store) && !HasAnn(k, s.store)
    ensures var h := Call(Healthy);
            var t := Run(k, Run(k, s, [Pick, h, h, h, Call(Rejected)]), more);
            && !Safe(k, t) && !HasSvc(k, t.store)
            && HasDep(k, t.store) && t.store.deps[k].spec == DeploymentFor(k.name, s.store.crs[k].spec)
  {
    hide Decodes, Marshal, DeploymentFor, ServiceFor, Run;
    var s1 := Next(k, s, Pick);
    var s2 := CallStep(k, s1, Healthy);
    assert s2.pc == ReadDep(s.store.crs[k]);
    var s3 := CallStep(k, s2, Healthy);
    var s4 := CallStep(k, s3, Healthy);
    assert s4.pc == CreateService(s.store.crs[k]);
    var s5 := CallStep(k, s4, Rejected);
    RunFive(k, s, Pick, Call(Healthy), Call(Healthy), Call(Healthy), Call(Rejected));
    RunInv(k, s, [Pick, Call(Healthy), Call(Healthy), Call(Healthy), Call(Rejected)]);
    CutOffStays(k, s5, more);
  }

  lemma RunFive(k: Key, s: System, a: Event, b: Event, c: Event, d: Event, e: Event)
    ensures Run(k, s, [a, b, c, d, e]) == Next(k, Next(k, Next(k, Next(k, Next(k, s, a), b), c), d), e)
  {
    hide Next;
    assert [a, b, c, d, e][..4] == [a, b, c, d] && [a, b, c, d][..3] == [a, b, c];
    assert [a, b, c][..2] == [a, b] && [a, b][..1] == [a] && [a][..0] == [];
    assert Run(k, s, []) == s;
    assert Run(k, s, [a]) == Next(k, s, a);
    assert Run(k, s, [a, b]) == Next(k, Run(k, s, [a]), b);
    assert Run(k, s, [a, b, c]) == Next(k, Run(k, s, [a, b]), c);
    assert Run(k, s, [a, b, c, d]) == Next(k, Run(k, s, [a, b, c]), d);
  }

  // ----- no lost wake-ups -----

  /** While nothing is queued, the run in progress works on the current spec; and at rest the
      children match it. */
  ghost predicate Awake(k: Key, s: System)
    requires Inv(k, s)
  {
    var st, pc := s.store, s.pc;
    && !st.crs[k].meta.deleting
    && (!s.queued && HasCr(pc) && pc.cr != ZERO ==> pc.cr.spec == st.crs[k].spec)
    && (pc.ReadSvc? || pc.UpdateService? ==> st.deps[k].spec == DeploymentFor(k.name, pc.cr.spec))
    && (!s.queued && pc.Returned? ==> Matches(k, st))
  }

  lemma AwakeRead(k: Key, s: System, f: Fault)
    requires Inv(k, s) && Awake(k, s) && Inv(k, CallStep(k, s, f))
    requires s.pc.Returned? || s.pc.ReadCr? || s.pc.ReadDep? || s.pc.ReadDepAgain? || s.pc.ReadSvc?
    ensures Awake(k, CallStep(k, s, f))
  {
    hide Decodes, Marshal, DeploymentFor, ServiceFor;
  }

  lemma AwakeWrite(k: Key, s: System, f: Fault)
    requires Inv(k, s) && Awake(k, s) && Inv(k, CallStep(k, s, f))
    requires s.pc.CreateDeploy? || s.pc.CreateService? || s.pc.UpdateDeploy? || s.pc.UpdateService?
    ensures Awake(k, CallStep(k, s, f))
  {
    hide Decodes, Marshal, DeploymentFor, ServiceFor;
  }

  lemma AwakeAnnotate(k: Key, s: System, f: Fault)
    requires Inv(k, s) && Awake(k, s) && Inv(k, CallStep(k, s, f)) && s.pc.WriteAnnotation?
    ensures Awake(k, CallStep(k, s, f))
  {
    hide Decodes, Marshal, DeploymentFor, ServiceFor;
  }

  lemma AwakeKeeps(k: Key, s: System, e: Event)
    requires Inv(k, s) && Awake(k, s)
    ensures Inv(k, Next(k, s, e)) && Awake(k, Next(k, s, e))
  {
    hide Decodes, Marshal, DeploymentFor, ServiceFor, CallStep;
    NextKeeps(k, s, e);
    match e
    case Pick =>
    case Call(f) =>
      if s.pc.WriteAnnotation? {
        AwakeAnnotate(k, s, f);
      } else if s.pc.CreateDeploy? || s.pc.CreateService? || s.pc.UpdateDeploy? || s.pc.UpdateService? {
        AwakeWrite(k, s, f);
      } else {
        AwakeRead(k, s, f);
      }
    case Edit(key, spec) =>
  }

  /** At rest means done: in every run from a fresh resource, whatever children exist already, the
      worker is idle with an empty queue only when both children match the current spec. */
  lemma {:induction false} RestMeansMatch(k: Key, s: System, es: seq<Event>)
    requires Fresh(k, s)
    ensures Inv(k, Run(k, s, es)) && Awake(k, Run(k, s, es))
    ensures var t := Run(k, s, es); t.pc.Returned? && !t.queued ==> Matches(k, t.store)
  {
    if es != [] {
      RestMeansMatch(k, s, es[..|es| - 1]);
      AwakeKeeps(k, Run(k, s, es[..|es| - 1]), es[|es| - 1]);
    }
  }
}
