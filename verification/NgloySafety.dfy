/** What the Ngloy controller guarantees in every interleaving of API calls, failures and user edits. */
module NgloySafety {
  import opened Wrappers
  import opened Kube
  import opened SpecJson
  import opened NgloyChildren
  import opened Store
  import opened NgloyMachine

  // ----- what one call can do to the store -----

  /** The Deployment is left alone, or it gets the image of the spec that this run read: under fresh
      metadata if there was none, under its own otherwise. */
  ghost predicate DepEffect(k: Key, s: System, t: System) {
    var old', new' := s.store.deps, t.store.deps;
    || (new' == old' && t.hist.depGen == s.hist.depGen && t.hist.created == s.hist.created)
    || (&& (s.pc.CreateDeploy? || s.pc.UpdateDeploy?) && s.pc.cr != ZERO
        && k in new' && new' == old'[k := new'[k]]
        && new'[k].spec == DeploymentFor(k.name, s.pc.cr.spec) && t.hist.depGen == s.pc.cr.meta.generation
        && (k in old' ==> SameButVersion(old'[k].meta, new'[k].meta) && t.hist.created == s.hist.created)
        && (k !in old' ==>
              && t.hist.created == s.pc.cr.meta.generation
              && Bare(new'[k].meta, k, Owner("", "v1", "Ngloy", k.name))))
  }

  ghost predicate SvcEffect(k: Key, s: System, t: System) {
    var old', new' := s.store.svcs, t.store.svcs;
    || (new' == old' && t.hist.svcGen == s.hist.svcGen)
    || (&& (s.pc.CreateService? || s.pc.UpdateService?) && s.pc.cr != ZERO
        && k in new' && new' == old'[k := new'[k]]
        && new'[k].spec == ServiceFor(k.name, s.pc.cr.spec) && t.hist.svcGen == s.pc.cr.meta.generation
        && (k in old' ==> SameButVersion(old'[k].meta, new'[k].meta))
        && (k !in old' ==> Bare(new'[k].meta, k, Owner("", "v1", "Prom", k.name))))
  }

  /** The resource is left alone, or the last call of the create branch annotates it. */
  ghost predicate CrEffect(k: Key, s: System, t: System)
    requires k in s.store.crs
  {
    var old', new' := s.store.crs, t.store.crs;
    || new' == old'
    || (&& s.pc.WriteAnnotation? && s.pc.cr == old'[k]
        && k in new' && new' == old'[k := new'[k]]
        && new'[k].spec == old'[k].spec && SameButVersion(new'[k].meta, Annotated(old'[k]).meta))
  }

  /** Where the run goes next, and with which local variables. */
  ghost predicate PcEffect(k: Key, s: System, t: System)
    requires k in s.store.crs
  {
    && t.hist.specs == s.hist.specs
    && (HasCr(t.pc) ==> (if HasCr(s.pc) then t.pc.cr == s.pc.cr else t.pc.cr == ZERO || t.pc.cr == s.store.crs[k]))
    && (t.pc.CreateDeploy? ==> s.pc.ReadDep? && k !in s.store.deps)
    && (t.pc.CreateService? ==> s.pc.CreateDeploy? && k in t.store.deps && t.store.deps != s.store.deps)
    && (t.pc.WriteAnnotation? ==> s.pc.CreateService?)
    && (t.pc.ReadDepAgain? ==> s.pc.ReadDep?)
    && (t.pc.UpdateDeploy? ==> s.pc.ReadDepAgain?)
    && (t.pc.ReadSvc? ==> s.pc.UpdateDeploy? && t.store.deps != s.store.deps)
    && (t.pc.UpdateService? ==> s.pc.ReadSvc?)
  }

  ghost predicate Effect(k: Key, s: System, t: System)
    requires k in s.store.crs
  {
    DepEffect(k, s, t) && SvcEffect(k, s, t) && CrEffect(k, s, t) && PcEffect(k, s, t)
  }

  lemma ReadEffect(k: Key, s: System, f: Fault)
    requires Inv(k, s)
    requires s.pc.Returned? || s.pc.ReadCr? || s.pc.ReadDep? || s.pc.ReadDepAgain? || s.pc.ReadSvc?
    ensures Effect(k, s, CallStep(k, s, f))
  {
    hide Decodes, Marshal, DeploymentFor, ServiceFor;
  }

  lemma CreateEffect(k: Key, s: System, f: Fault)
    requires Inv(k, s) && (s.pc.CreateDeploy? || s.pc.CreateService?)
    ensures Effect(k, s, CallStep(k, s, f))
  {
    hide Decodes, Marshal, DeploymentFor, ServiceFor;
  }

  lemma UpdateEffect(k: Key, s: System, f: Fault)
    requires Inv(k, s) && (s.pc.UpdateDeploy? || s.pc.UpdateService?)
    ensures Effect(k, s, CallStep(k, s, f))
  {
    hide Decodes, Marshal, DeploymentFor, ServiceFor;
  }

  lemma AnnotateEffect(k: Key, s: System, f: Fault)
    requires Inv(k, s) && s.pc.WriteAnnotation?
    ensures Effect(k, s, CallStep(k, s, f))
  {
    hide Decodes, Marshal, DeploymentFor, ServiceFor;
  }

  lemma CallEffect(k: Key, s: System, f: Fault)
    requires Inv(k, s)
    ensures Effect(k, s, CallStep(k, s, f))
  {
    hide CallStep, Effect;
    match s.pc
    case CreateDeploy(_) => CreateEffect(k, s, f);
    case CreateService(_) => CreateEffect(k, s, f);
    case WriteAnnotation(_) => AnnotateEffect(k, s, f);
    case UpdateDeploy(_, _) => UpdateEffect(k, s, f);
    case UpdateService(_, _) => UpdateEffect(k, s, f);
    case _ => ReadEffect(k, s, f);
  }

  /** The observer's record of the specs is right, for the store and for the run in progress. */
  ghost predicate Recorded(k: Key, s: System)
    requires Inv(k, s)
  {
    var now := s.store.crs[k];
    && |s.hist.specs| == now.meta.generation + 1 && s.hist.specs[now.meta.generation] == now.spec
    && (HasCr(s.pc) && s.pc.cr != ZERO ==> s.pc.cr.spec == s.hist.specs[s.pc.cr.meta.generation])
  }

  lemma RecordedKeeps(k: Key, s: System, e: Event)
    requires Inv(k, s) && Recorded(k, s)
    ensures Inv(k, Next(k, s, e)) && Recorded(k, Next(k, s, e))
  {
    hide Decodes, Marshal, CallStep;
    NextKeeps(k, s, e);
    if e.Call? {
      CallEffect(k, s, e.fault);
    }
  }

  // ----- version skew -----

  predicate BetweenChildren(pc: Pc) {
    pc.CreateService? || pc.WriteAnnotation? || pc.ReadSvc? || pc.UpdateService?
  }

  /** version(Service) <= version(Deployment) <= version(resource), and each child is the image of the
      spec that the resource had at the child's version. */
  ghost predicate Skew(k: Key, s: System)
    requires Inv(k, s)
  {
    var st, h := s.store, s.hist;
    && (HasDep(k, st) ==> h.depGen < |h.specs| && st.deps[k].spec == DeploymentFor(k.name, h.specs[h.depGen]))
    && (HasSvc(k, st) ==>
          HasDep(k, st) && h.svcGen <= h.depGen && st.svcs[k].spec == ServiceFor(k.name, h.specs[h.svcGen]))
    && (HasCr(s.pc) && s.pc.cr != ZERO && HasDep(k, st) ==> h.depGen <= s.pc.cr.meta.generation)
    && (BetweenChildren(s.pc) ==> h.depGen == s.pc.cr.meta.generation)
  }

  lemma SkewCall(k: Key, s: System, f: Fault)
    requires Inv(k, s) && Recorded(k, s) && Skew(k, s) && Inv(k, CallStep(k, s, f))
    ensures Skew(k, CallStep(k, s, f))
  {
    hide Decodes, Marshal, DeploymentFor, ServiceFor, CallStep;
    CallEffect(k, s, f);
  }

  lemma SkewEdit(k: Key, s: System, key: Key, spec: NgloySpec)
    requires Inv(k, s) && Recorded(k, s) && Skew(k, s) && Inv(k, EditStep(k, s, key, spec))
    ensures Skew(k, EditStep(k, s, key, spec))
  {
    hide Decodes, Marshal, DeploymentFor, ServiceFor;
  }

  lemma SkewKeeps(k: Key, s: System, e: Event)
    requires Inv(k, s) && Recorded(k, s) && Skew(k, s)
    ensures Inv(k, Next(k, s, e)) && Recorded(k, Next(k, s, e)) && Skew(k, Next(k, s, e))
  {
    hide Decodes, Marshal, DeploymentFor, ServiceFor, CallStep;
    RecordedKeeps(k, s, e);
    match e
    case Pick =>
    case Call(f) => SkewCall(k, s, f);
    case Edit(key, spec) => SkewEdit(k, s, key, spec);
  }

  lemma VersionStep(k: Key, s: System, e: Event)
    requires Inv(k, s) && Recorded(k, s) && Skew(k, s)
    ensures var t := Next(k, s, e);
            && (HasDep(k, s.store) ==> HasDep(k, t.store) && s.hist.depGen <= t.hist.depGen)
            && (HasSvc(k, s.store) ==> HasSvc(k, t.store) && s.hist.svcGen <= t.hist.svcGen)
  {
    hide Decodes, Marshal, DeploymentFor, ServiceFor, CallStep;
    if e.Call? {
      CallEffect(k, s, e.fault);
    }
  }

  /** A live resource that nobody has worked on yet. */
  ghost predicate Fresh(k: Key, s: System) {
    && k.name != "" && Consistent(s.store, k) && k in s.store.crs
    && s.store.crs[k].meta.generation == 0 && s.hist.specs == [s.store.crs[k].spec]
    && !s.store.crs[k].meta.deleting
    && s.pc == Returned(false) && s.queued
  }

  lemma {:induction false} RunRecorded(k: Key, s: System, es: seq<Event>)
    requires Fresh(k, s)
    ensures Inv(k, Run(k, s, es)) && Recorded(k, Run(k, s, es))
  {
    if es != [] {
      RunRecorded(k, s, es[..|es| - 1]);
      RecordedKeeps(k, Run(k, s, es[..|es| - 1]), es[|es| - 1]);
    }
  }

  lemma {:induction false} RunSkew(k: Key, s: System, es: seq<Event>)
    requires Fresh(k, s) && !HasDep(k, s.store) && !HasSvc(k, s.store)
    ensures Inv(k, Run(k, s, es)) && Recorded(k, Run(k, s, es)) && Skew(k, Run(k, s, es))
  {
    if es != [] {
      RunSkew(k, s, es[..|es| - 1]);
      SkewKeeps(k, Run(k, s, es[..|es| - 1]), es[|es| - 1]);
    }
  }

  /** Version skew, in every state of every run from a fresh resource: the Service never runs ahead of
      the Deployment, nor the Deployment of the resource, and both carry specs that the resource
      really had, whatever calls fail, even if the read of the resource itself fails. */
  lemma {:induction false} VersionSkew(k: Key, s: System, es: seq<Event>)
    requires Fresh(k, s) && !HasDep(k, s.store) && !HasSvc(k, s.store)
    ensures var t := Run(k, s, es);
            && k in t.store.crs && |t.hist.specs| == t.store.crs[k].meta.generation + 1
            && (HasDep(k, t.store) ==>
                  && t.hist.depGen <= t.store.crs[k].meta.generation
                  && RunsSpec(t.store.deps[k].spec, k.name, t.hist.specs[t.hist.depGen]))
            && (HasSvc(k, t.store) ==>
                  && HasDep(k, t.store) && t.hist.svcGen <= t.hist.depGen
                  && ExposesSpec(t.store.svcs[k].spec, k.name, t.hist.specs[t.hist.svcGen]))
  {
    hide RunsSpec, ExposesSpec, DeploymentFor, ServiceFor, Run;
    RunSkew(k, s, es);
    var t := Run(k, s, es);
    if HasDep(k, t.store) {
      var spec := t.hist.specs[t.hist.depGen];
      ChildSpecsExact(k.name, spec, t.store.deps[k].spec, ServiceFor(k.name, spec));
    }
    if HasSvc(k, t.store) {
      var spec := t.hist.specs[t.hist.svcGen];
      ChildSpecsExact(k.name, spec, DeploymentFor(k.name, spec), t.store.svcs[k].spec);
    }
  }

  /** Between any two moments of a run, a child that was there is still there, and its version has not
      gone back. */
  lemma {:induction false} VersionsGrow(k: Key, s: System, es: seq<Event>, more: seq<Event>)
    requires Fresh(k, s) && !HasDep(k, s.store) && !HasSvc(k, s.store)
    ensures var t, u := Run(k, s, es), Run(k, s, es + more);
            && (HasDep(k, t.store) ==> HasDep(k, u.store) && t.hist.depGen <= u.hist.depGen)
            && (HasSvc(k, t.store) ==> HasSvc(k, u.store) && t.hist.svcGen <= u.hist.svcGen)
  {
    if more == [] {
      assert es + more == es;
    } else {
      hide Inv, Recorded, Skew, Next, Fresh;
      var n := |more| - 1;
      VersionsGrow(k, s, es, more[..n]);
      assert (es + more)[..|es + more| - 1] == es + more[..n] && (es + more)[|es + more| - 1] == more[n];
      RunSkew(k, s, es + more[..n]);
      VersionStep(k, Run(k, s, es + more[..n]), more[n]);
    }
  }

  // ----- the order of the writes -----

  predicate HasSpecKey(cr: Ngloy) {
    cr.meta.annotations.Some? && "spec" in cr.meta.annotations.value
  }

  /** The annotation is there only if both children are, and it encodes the spec from which the
      Deployment was created. */
  ghost predicate WriteOrder(k: Key, s: System)
    requires Inv(k, s)
  {
    var now, h := s.store.crs[k], s.hist;
    && (HasSpecKey(now) ==>
          && HasDep(k, s.store) && HasSvc(k, s.store)
          && h.created < |h.specs| && Annotation(now.meta, "spec") == Marshal(h.specs[h.created]))
    && (s.pc.CreateService? || s.pc.WriteAnnotation? ==> h.created == s.pc.cr.meta.generation)
  }

  lemma WriteOrderKeeps(k: Key, s: System, e: Event)
    requires Inv(k, s) && Recorded(k, s) && WriteOrder(k, s)
    ensures Inv(k, Next(k, s, e)) && WriteOrder(k, Next(k, s, e))
  {
    hide Decodes, Marshal, DeploymentFor, ServiceFor, CallStep;
    NextKeeps(k, s, e);
    if e.Call? {
      CallEffect(k, s, e.fault);
    }
  }

  lemma {:induction false} WriteOrderAlways(k: Key, s: System, es: seq<Event>)
    requires Fresh(k, s) && !HasSpecKey(s.store.crs[k])
    ensures Inv(k, Run(k, s, es)) && Recorded(k, Run(k, s, es)) && WriteOrder(k, Run(k, s, es))
  {
    if es != [] {
      WriteOrderAlways(k, s, es[..|es| - 1]);
      RecordedKeeps(k, Run(k, s, es[..|es| - 1]), es[|es| - 1]);
      WriteOrderKeeps(k, Run(k, s, es[..|es| - 1]), es[|es| - 1]);
    }
  }

  // ----- when in a run the writes come -----

  /** Consecutive calls, each with its fault. */
  function Calls(k: Key, s: System, faults: seq<Fault>): System {
    if faults == [] then s else CallStep(k, Calls(k, s, faults[..|faults| - 1]), faults[|faults| - 1])
  }

  /** The number of calls a run has made when it is here. */
  function Depth(pc: Pc): nat {
    match pc
    case Returned(_) => 6
    case ReadCr => 0
    case ReadDep(_) => 1
    case CreateDeploy(_) => 2
    case CreateService(_) => 3
    case WriteAnnotation(_) => 4
    case ReadDepAgain(_) => 2
    case UpdateDeploy(_, _) => 3
    case ReadSvc(_) => 4
    case UpdateService(_, _) => 5
  }

  lemma DepthCall(k: Key, s: System, f: Fault)
    ensures var t := CallStep(k, s, f); t.pc.Returned? || Depth(t.pc) == Depth(s.pc) + 1
  {
    hide Decodes, Marshal, NewDeploy, NewService, CreateDep, CreateSvc, UpdateDep, UpdateSvc, UpdateCr, Create, Update;
  }

  /** Each write comes after its reads: whatever fails, a run that creates writes the Deployment with its
      third call, the Service with its fourth and the resource with its fifth, and one that updates writes
      the Deployment with its fourth and the Service with its sixth, at the earliest. */
  lemma {:induction false} WritesComeLate(k: Key, s: System, faults: seq<Fault>)
    requires Inv(k, s) && s.pc == ReadCr
    ensures var t := Calls(k, s, faults);
            && Inv(k, t) && (t.pc.Returned? || Depth(t.pc) == |faults|)
            && (HasDep(k, s.store) ==>
                  !t.pc.CreateDeploy? && !t.pc.CreateService? && !t.pc.WriteAnnotation? && HasDep(k, t.store))
            && (|faults| <= (if HasDep(k, s.store) then 3 else 2) ==> t.store.deps == s.store.deps)
            && (|faults| <= (if HasDep(k, s.store) then 5 else 3) ==> t.store.svcs == s.store.svcs)
            && (|faults| <= 4 || HasDep(k, s.store) ==> t.store.crs == s.store.crs)
  {
    if faults != [] {
      hide CallStep, Inv, Decodes, Marshal, DeploymentFor, ServiceFor;
      var n := |faults| - 1;
      var r := Calls(k, s, faults[..n]);
      WritesComeLate(k, s, faults[..n]);
      CallKeeps(k, r, faults[n]);
      DepthCall(k, r, faults[n]);
      InvHasCr(k, r);
      CallEffect(k, r, faults[n]);
    }
  }

  lemma InvHasCr(k: Key, s: System)
    requires Inv(k, s)
    ensures k in s.store.crs
  {
  }

  // ----- resources under deletion, and resources that are gone -----

  /** The request is for a resource that is not there (any more), or is being deleted; no run that began
      before is under way. A run whose first read fails works on the zero object. */
  ghost predicate HandsOff(k: Key, s: System) {
    && (k in s.store.crs ==> s.store.crs[k].meta.deleting)
    && (HasCr(s.pc) ==> s.pc.cr == ZERO && (s.pc.ReadDep? || s.pc.CreateDeploy?))
  }

  /** No annotation of the resource and no object but resources of users has changed. */
  ghost predicate Untouched(k: Key, st: Store<NgloySpec>, st': Store<NgloySpec>) {
    && st'.deps == st.deps && st'.svcs == st.svcs && st'.crs.Keys == st.crs.Keys
    && (k in st.crs && k in st'.crs ==> st'.crs[k].meta.annotations == st.crs[k].meta.annotations)
  }

  /** A run that does not find the resource fails and is retried; one that finds it under deletion
      succeeds; and one whose first read fails fails later. */
  lemma HandsOffCall(k: Key, s: System, f: Fault)
    requires HandsOff(k, s)
    ensures var t := CallStep(k, s, f);
            && HandsOff(k, t) && t.store.(revision := s.store.revision) == s.store
            && (t.queued <==> s.queued || (!s.pc.Returned? && t.pc == Returned(true)))
            && (!s.pc.Returned? && t.pc == Returned(false) ==> k in s.store.crs)
            && (s.pc.ReadCr? && f.Healthy? ==> t.pc == Returned(k !in s.store.crs))
  {
    hide Decodes, Marshal, DeploymentFor, ServiceFor;
    NoAnnotation();
  }

  lemma HandsOffNext(k: Key, s: System, e: Event)
    requires HandsOff(k, s)
    ensures HandsOff(k, Next(k, s, e)) && Untouched(k, s.store, Next(k, s, e).store)
    ensures k !in s.store.crs && (s.queued || !s.pc.Returned?) ==>
              Next(k, s, e).queued || !Next(k, s, e).pc.Returned?
  {
    hide CallStep;
    if e.Call? {
      HandsOffCall(k, s, e.fault);
    }
  }

  /** Whatever happens after a resource came under deletion, or was removed, failed reads included: its
      children stay as they are or stay away, and its annotations stay. If it is not there at all, the
      request is never done with: it is queued or in work for ever. */
  lemma {:induction false} HandsOffForever(k: Key, s: System, es: seq<Event>)
    requires HandsOff(k, s)
    ensures HandsOff(k, Run(k, s, es)) && Untouched(k, s.store, Run(k, s, es).store)
    ensures k !in s.store.crs && (s.queued || !s.pc.Returned?) ==>
              k !in Run(k, s, es).store.crs && (Run(k, s, es).queued || !Run(k, s, es).pc.Returned?)
  {
    if es != [] {
      hide Next, HandsOff;
      HandsOffForever(k, s, es[..|es| - 1]);
      HandsOffNext(k, Run(k, s, es[..|es| - 1]), es[|es| - 1]);
    }
  }

  /** An error at line 62 other than "not found" does not end the run: it goes on with the zero object. It
      then fails at the gate if the Deployment exists or cannot be read either, and otherwise one call
      later, because the server takes no object without a name; and it never writes anything. */
  lemma FailedReadGoesOn(k: Key, s: System, f: Fault, g: Fault, h: Fault)
    requires Inv(k, s) && s.pc == ReadCr && f != Healthy
    ensures var t := CallStep(k, s, f); var u := CallStep(k, t, g); var v := CallStep(k, u, h);
            && !t.pc.Returned?
            && (if g.Healthy? && !HasDep(k, s.store) then !u.pc.Returned? && v.pc == Returned(true)
                else u.pc == Returned(true))
            && t.store == s.store && u.store == s.store && v.store.(revision := s.store.revision) == s.store
  {
    hide Decodes, Marshal, DeploymentFor, ServiceFor;
    NoAnnotation();
  }

  // ----- what a call leaves alone -----

  /** No call touches another key. */
  lemma OtherKeysKept(k: Key, s: System, f: Fault, o: Key)
    requires Inv(k, s) && o != k
    ensures var t := CallStep(k, s, f);
            && (o in t.store.crs <==> o in s.store.crs) && (o in s.store.crs ==> t.store.crs[o] == s.store.crs[o])
            && (o in t.store.deps <==> o in s.store.deps) && (o in s.store.deps ==> t.store.deps[o] == s.store.deps[o])
            && (o in t.store.svcs <==> o in s.store.svcs) && (o in s.store.svcs ==> t.store.svcs[o] == s.store.svcs[o])
  {
    hide Decodes, Marshal, DeploymentFor, ServiceFor, CallStep;
    CallEffect(k, s, f);
  }

  /** Whatever call is made, existing children keep all their metadata, and the resource keeps
      everything but its `spec` annotation, which only the last call of the create branch writes. */
  lemma MetadataKept(k: Key, s: System, f: Fault)
    requires Inv(k, s)
    ensures var st, st' := s.store, CallStep(k, s, f).store;
            && (HasDep(k, st) ==> HasDep(k, st') && SameButVersion(st.deps[k].meta, st'.deps[k].meta))
            && (HasSvc(k, st) ==> HasSvc(k, st') && SameButVersion(st.svcs[k].meta, st'.svcs[k].meta))
            && k in st'.crs && st'.crs[k].spec == st.crs[k].spec
            && SameButSpecAnnotation(st.crs[k].meta, st'.crs[k].meta)
            && (!s.pc.WriteAnnotation? ==> st'.crs[k] == st.crs[k])
  {
    hide Decodes, Marshal, DeploymentFor, ServiceFor, CallStep;
    CallEffect(k, s, f);
  }
}
