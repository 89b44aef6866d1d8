/** The Prom controller as a machine, one API call at a time. Where it means to create children it
    only reads them. */
module PromMachine {
  import opened Wrappers
  import opened Kube
  import opened PromChildren
  import opened Store

  /** json.Marshal of a PromSpec, and whether json.Unmarshal into a Prom accepts a text. Only the theorems
      that say so depend on what they do; module PromJson has the real ones. */
  datatype Codec = Codec(encode: PromSpec -> string, decodes: string -> bool)

  datatype Pc =
    | Returned(failed: bool)
    | ReadCr
    | ReadDep(cr: Prom)
    | CheckDeploy(cr: Prom)      // line 75
    | CheckService(cr: Prom)     // line 80
    | WriteAnnotation(cr: Prom)
    | ReadDepAgain(cr: Prom)
    | UpdateDeploy(cr: Prom, dep: Deployment)
    | ReadSvc(cr: Prom)
    | UpdateService(cr: Prom)

  /** What the reads of the run under way found: nothing at line 72, a Deployment at line 75, a Service
      at line 80. No step reads this record. */
  datatype Reads = Reads(missed: bool, dep: bool, svc: bool)

  const NOTHING_READ := Reads(false, false, false)

  /** Which objects the run under way has written, with the server's acknowledgement. No step reads this
      record either, and it is kept by comparing tables. */
  datatype Writes = Writes(cr: bool, dep: bool, svc: bool)

  const NOTHING_WRITTEN := Writes(false, false, false)

  datatype System = System(store: Store<PromSpec>, pc: Pc, seen: Reads, wrote: Writes)

  /** What others do: users edit resources, and whoever is in charge of the children, which this
      controller never creates, applies and deletes them. */
  datatype Deed =
    | Edit(key: Key, spec: PromSpec)
    | ApplyDep(dep: Deployment)
    | ApplySvc(svc: Service)
    | DeleteDep(key: Key)
    | DeleteSvc(key: Key)

  datatype Event = Pick | Call(fault: Fault) | Outside(deed: Deed)

  function Do(st: Store<PromSpec>, d: Deed): Store<PromSpec> {
    match d
    case Edit(key, spec) => EditCr(st, key, spec)
    case ApplyDep(o) => st.(deps := Apply(st.deps, o, st.revision), revision := st.revision + 1)
    case ApplySvc(o) => st.(svcs := Apply(st.svcs, o, st.revision), revision := st.revision + 1)
    case DeleteDep(key) => st.(deps := st.deps - {key}, revision := st.revision + 1)
    case DeleteSvc(key) => st.(svcs := st.svcs - {key}, revision := st.revision + 1)
  }

  function DoAll(st: Store<PromSpec>, ds: seq<Deed>): Store<PromSpec> {
    if ds == [] then st else Do(DoAll(st, ds[..|ds| - 1]), ds[|ds| - 1])
  }

  /** Does a read find the object? */
  predicate Found<S>(t: Table<S>, k: Key, f: Fault) {
    f.Healthy? && k in t
  }

  function Observe(k: Key, s: System, f: Fault): Reads {
    match s.pc
    case ReadDep(_) => s.seen.(missed := !Found(s.store.deps, k, f))
    case CheckDeploy(_) => s.seen.(dep := Found(s.store.deps, k, f))
    case CheckService(_) => s.seen.(svc := Found(s.store.svcs, k, f))
    case _ => s.seen
  }

  function Note(w: Writes, st: Store<PromSpec>, st': Store<PromSpec>, f: Fault): Writes {
    Writes(w.cr || (f.Healthy? && st'.crs != st.crs),
           w.dep || (f.Healthy? && st'.deps != st.deps),
           w.svc || (f.Healthy? && st'.svcs != st.svcs))
  }

  function Return(s: System, failed: bool): System {
    s.(pc := Returned(failed))
  }

  function Annotated(c: Codec, cr: Prom): Prom {
    cr.(meta := Annotate(cr.meta, "spec", c.encode(cr.spec)))
  }

  function Step(c: Codec, k: Key, s: System, f: Fault): System {
    var st := s.store;
    match s.pc
    case Returned(_) => s
    case ReadCr =>
      if f != Healthy then Return(s, true)
      else if k !in st.crs || st.crs[k].meta.deleting then Return(s, false)
      else s.(pc := ReadDep(st.crs[k]))
    case ReadDep(cr) =>
      if !Found(st.deps, k, f) then s.(pc := CheckDeploy(cr))
      else if c.decodes(Annotation(cr.meta, "spec")) then s.(pc := ReadDepAgain(cr))
      else Return(s, true)
    case CheckDeploy(cr) =>
      if Found(st.deps, k, f) then s.(pc := CheckService(cr)) else Return(s, true)
    case CheckService(cr) =>
      if Found(st.svcs, k, f) then s.(pc := WriteAnnotation(cr)) else Return(s, true)
    case WriteAnnotation(cr) =>
      var (st', ok) := UpdateCr(st, Annotated(c, cr), f);
      Return(s.(store := st'), !ok)
    case ReadDepAgain(cr) =>
      if Found(st.deps, k, f) then s.(pc := UpdateDeploy(cr, st.deps[k])) else Return(s, true)
    case UpdateDeploy(cr, dep) =>
      var (st', ok) := UpdateDep(st, dep.(spec := NewDeploy(cr).spec), f);
      if ok then s.(store := st', pc := ReadSvc(cr)) else Return(s.(store := st'), true)
    case ReadSvc(cr) =>
      if Found(st.svcs, k, f) then s.(pc := UpdateService(cr)) else Return(s, true)
    case UpdateService(cr) =>
      var (st', ok) := UpdateSvc(st, NewService(cr), f);
      Return(s.(store := st'), !ok)
  }

  /** One API call on behalf of the request for `k`, and what Reconcile does up to the next one. */
  function CallStep(c: Codec, k: Key, s: System, f: Fault): System {
    var t := Step(c, k, s, f);
    t.(seen := Observe(k, s, f), wrote := Note(s.wrote, s.store, t.store, f))
  }

  function Next(c: Codec, k: Key, s: System, e: Event): System {
    match e
    case Pick => if s.pc.Returned? then s.(pc := ReadCr, seen := NOTHING_READ, wrote := NOTHING_WRITTEN) else s
    case Call(f) => CallStep(c, k, s, f)
    case Outside(d) => s.(store := Do(s.store, d))
  }

  function Run(c: Codec, k: Key, s: System, es: seq<Event>): System {
    if es == [] then s else Next(c, k, Run(c, k, s, es[..|es| - 1]), es[|es| - 1])
  }

  // ----- conservation -----

  ghost predicate SameKeys(a: Store<PromSpec>, b: Store<PromSpec>) {
    a.crs.Keys == b.crs.Keys && a.deps.Keys == b.deps.Keys && a.svcs.Keys == b.svcs.Keys
  }

  lemma CallConserves(c: Codec, k: Key, s: System, f: Fault)
    ensures SameKeys(CallStep(c, k, s, f).store, s.store)
  {
    hide NewDeploy, NewService, Annotated, Observe, Note, Update;
    match s.pc
    case WriteAnnotation(cr) => UpdateKeys(s.store.crs, Annotated(c, cr), s.store.revision);
    case UpdateDeploy(cr, dep) => UpdateKeys(s.store.deps, dep.(spec := NewDeploy(cr).spec), s.store.revision);
    case UpdateService(cr) => UpdateKeys(s.store.svcs, NewService(cr), s.store.revision);
    case _ =>
  }

  lemma UpdateKeys<S>(t: Table<S>, o: Resource<S>, revision: nat)
    ensures Update(t, o, revision).Some? ==> Update(t, o, revision).value.Keys == t.Keys
  {
  }

  lemma DeedOnKeys(a: Store<PromSpec>, b: Store<PromSpec>, d: Deed)
    requires SameKeys(a, b)
    ensures SameKeys(Do(a, d), Do(b, d))
  {
  }

  /** What others did in a run. */
  function Deeds(es: seq<Event>): seq<Deed> {
    if es == [] then []
    else
      var before, e := Deeds(es[..|es| - 1]), es[|es| - 1];
      if e.Outside? then before + [e.deed] else before
  }

  lemma SameKeysAll(a: Store<PromSpec>, b: Store<PromSpec>, c: Store<PromSpec>)
    requires SameKeys(a, b) && SameKeys(b, c)
    ensures SameKeys(a, c)
  {
  }

  lemma NextOnKeys(c: Codec, k: Key, s: System, e: Event)
    ensures SameKeys(Next(c, k, s, e).store, if e.Outside? then Do(s.store, e.deed) else s.store)
  {
    hide CallStep, Do;
    if e.Call? {
      CallConserves(c, k, s, e.fault);
    }
  }

  /** Faulty or not, the controller never creates or removes an object of any kind: after every run there
      are exactly the objects that others left there. */
  lemma {:induction false} KeysConserved(c: Codec, k: Key, s: System, es: seq<Event>)
    ensures SameKeys(Run(c, k, s, es).store, DoAll(s.store, Deeds(es)))
  {
    if es != [] {
      hide Next, Do, SameKeys;
      var n := |es| - 1;
      var r := Run(c, k, s, es[..n]);
      KeysConserved(c, k, s, es[..n]);
      NextOnKeys(c, k, r, es[n]);
      if es[n].Outside? {
        DeedOnKeys(r.store, DoAll(s.store, Deeds(es[..n])), es[n].deed);
        assert Deeds(es)[..|Deeds(es)| - 1] == Deeds(es[..n]);
        SameKeysAll(Run(c, k, s, es).store, Do(r.store, es[n].deed), DoAll(s.store, Deeds(es)));
      } else {
        SameKeysAll(Run(c, k, s, es).store, r.store, DoAll(s.store, Deeds(es)));
      }
    }
  }

  // ----- when the annotation is written -----

  function ReadsAt(pc: Pc): Reads {
    match pc
    case CheckDeploy(_) => Reads(true, false, false)
    case CheckService(_) => Reads(true, true, false)
    case WriteAnnotation(_) => Reads(true, true, true)
    case _ => NOTHING_READ
  }

  function WritesAt(pc: Pc): Writes {
    if pc.ReadSvc? || pc.UpdateService? then Writes(false, true, false) else NOTHING_WRITTEN
  }

  ghost predicate Inv(k: Key, s: System) {
    var st, pc := s.store, s.pc;
    && k in st.crs && Consistent(st, k)
    && (!pc.Returned? && !pc.ReadCr? ==>
          && pc.cr.meta.key == k && 0 < pc.cr.meta.version <= st.crs[k].meta.version
          && (pc.cr.meta.version == st.crs[k].meta.version ==> pc.cr == st.crs[k]))
    && (!pc.Returned? ==> s.seen == ReadsAt(pc) && s.wrote == WritesAt(pc))
    && (pc.UpdateDeploy? ==>
          && pc.dep.meta.key == k && 0 < pc.dep.meta.version <= st.revision
          && (k in st.deps && pc.dep.meta.version == st.deps[k].meta.version ==> pc.dep == st.deps[k]))
  }

  /** newService gives no version, so its update replaces whatever is stored. */
  lemma NewServiceMeta(cr: Prom)
    ensures NewService(cr).meta.key == cr.meta.key && NewService(cr).meta.version == 0
  {
  }

  predicate Writing(pc: Pc) {
    pc.WriteAnnotation? || pc.UpdateDeploy? || pc.UpdateService?
  }

  lemma ReadKeeps(c: Codec, k: Key, s: System, f: Fault)
    requires Inv(k, s) && !Writing(s.pc)
    ensures Inv(k, CallStep(c, k, s, f)) && CallStep(c, k, s, f).store == s.store
  {
    hide NewDeploy, NewService;
  }

  lemma WriteKeeps(c: Codec, k: Key, s: System, f: Fault)
    requires Inv(k, s) && Writing(s.pc)
    ensures Inv(k, CallStep(c, k, s, f)) && CallStep(c, k, s, f).seen == s.seen
  {
    hide NewDeploy, NewService;
    NewServiceMeta(s.pc.cr);
  }

  lemma CallKeeps(c: Codec, k: Key, s: System, f: Fault)
    requires Inv(k, s)
    ensures Inv(k, CallStep(c, k, s, f))
  {
    hide CallStep, Inv;
    if Writing(s.pc) {
      WriteKeeps(c, k, s, f);
    } else {
      ReadKeeps(c, k, s, f);
    }
  }

  lemma DeedKeeps(k: Key, s: System, d: Deed)
    requires Inv(k, s)
    ensures Inv(k, s.(store := Do(s.store, d)))
  {
  }

  lemma NextKeeps(c: Codec, k: Key, s: System, e: Event)
    requires Inv(k, s)
    ensures Inv(k, Next(c, k, s, e))
  {
    hide CallStep;
    match e
    case Pick =>
    case Call(f) => CallKeeps(c, k, s, f);
    case Outside(d) => DeedKeeps(k, s, d);
  }

  lemma {:induction false} RunKeeps(c: Codec, k: Key, s: System, es: seq<Event>)
    requires Inv(k, s)
    ensures Inv(k, Run(c, k, s, es))
  {
    if es != [] {
      hide Inv, Next;
      RunKeeps(c, k, s, es[..|es| - 1]);
      NextKeeps(c, k, Run(c, k, s, es[..|es| - 1]), es[|es| - 1]);
    }
  }

  /** A call writes the resource if and only if it is that of line 92, nothing rejects it, and nobody
      edited the resource since it was read. */
  lemma CallWrites(c: Codec, k: Key, s: System, f: Fault)
    requires Inv(k, s)
    ensures var t := CallStep(c, k, s, f);
            && (t.store.crs != s.store.crs <==> s.pc.WriteAnnotation? && !f.Rejected? && s.pc.cr == s.store.crs[k])
            && k in t.store.crs && t.store.crs[k].spec == s.store.crs[k].spec
            && SameButSpecAnnotation(t.store.crs[k].meta, s.store.crs[k].meta)
            && (t.store.crs == s.store.crs || t.store.crs == s.store.crs[k := t.store.crs[k]])
            && (t.store.crs != s.store.crs ==>
                  && t.store.crs[k].meta.annotations.Some? && "spec" in t.store.crs[k].meta.annotations.value
                  && Annotation(t.store.crs[k].meta, "spec") == c.encode(s.store.crs[k].spec))
  {
    hide NewDeploy, NewService, Observe;
    if s.pc.WriteAnnotation? && !f.Rejected? && s.pc.cr == s.store.crs[k] {
      assert CallStep(c, k, s, f).store.crs[k].meta.version != s.store.crs[k].meta.version;
    }
  }

  /** When the annotation is written, exactly. In every run, whatever fails and whatever others do, the
      next event makes the controller write the resource if and only if, in the Reconcile under way,
      the read of line 72 found no Deployment, by a fault or because there was none yet, those of
      lines 75 and 80 both found what they looked for, the write itself is not rejected, and nobody has
      edited the resource since line 59. What is written then is the text of its spec. */
  lemma {:induction false} AnnotationExact(c: Codec, k: Key, s: System, es: seq<Event>, f: Fault)
    requires Inv(k, s)
    ensures var r := Run(c, k, s, es); var t := CallStep(c, k, r, f);
            && k in r.store.crs && k in t.store.crs
            && (t.store.crs != r.store.crs <==>
                  && !r.pc.Returned? && r.seen == Reads(true, true, true)
                  && !f.Rejected? && r.pc.WriteAnnotation? && r.pc.cr == r.store.crs[k])
            && (r.pc.WriteAnnotation? <==> !r.pc.Returned? && r.seen == Reads(true, true, true))
            && t.store.crs[k].spec == r.store.crs[k].spec
            && SameButSpecAnnotation(t.store.crs[k].meta, r.store.crs[k].meta)
            && (t.store.crs != r.store.crs ==>
                  Annotation(t.store.crs[k].meta, "spec") == c.encode(r.store.crs[k].spec))
  {
    hide CallStep;
    RunKeeps(c, k, s, es);
    CallWrites(c, k, Run(c, k, s, es), f);
  }

  /** No fault is needed for it. Let there be neither child when lines 59 and 72 read, and let somebody
      apply both before line 75: then the run annotates the resource, and all its calls succeed. */
  lemma {:induction false} AppliedInBetween(c: Codec, k: Key, s: System, dep: Deployment, svc: Service)
    requires Inv(k, s) && s.pc == ReadCr && !s.store.crs[k].meta.deleting
    requires k !in s.store.deps && k !in s.store.svcs && dep.meta.key == k && svc.meta.key == k
    ensures var before := CallStep(c, k, CallStep(c, k, s, Healthy), Healthy);
            var applied := before.(store := DoAll(before.store, [ApplyDep(dep), ApplySvc(svc)]));
            var t := Quiet(c, k, applied, 3);
            && t.pc == Returned(false) && k in t.store.crs
            && Annotation(t.store.crs[k].meta, "spec") == c.encode(s.store.crs[k].spec)
  {
    hide NewDeploy, NewService, Observe, Note;
    var before := CallStep(c, k, CallStep(c, k, s, Healthy), Healthy);
    assert before.store == s.store && before.pc == CheckDeploy(s.store.crs[k]);
    var deeds := [ApplyDep(dep), ApplySvc(svc)];
    assert deeds[..1] == [ApplyDep(dep)] && deeds[..1][..0] == [];
    assert DoAll(before.store, deeds[..1]) == Do(before.store, deeds[0]);
    assert DoAll(before.store, deeds) == Do(Do(before.store, deeds[0]), deeds[1]);
    var applied := before.(store := DoAll(before.store, deeds));
    assert k in applied.store.deps && k in applied.store.svcs && applied.store.crs == s.store.crs;
    var t1 := CallStep(c, k, applied, Healthy);
    assert t1.pc == CheckService(s.store.crs[k]) && t1.store == applied.store;
    var t2 := CallStep(c, k, t1, Healthy);
    assert t2.pc == WriteAnnotation(s.store.crs[k]) && t2.store == applied.store;
    assert Quiet(c, k, applied, 3) == Quiet(c, k, t1, 2) == Quiet(c, k, t2, 1);
  }

  // ----- the order of the writes, and what success means -----

  /** What a call does to the children. A Deployment is written only as it was read, a Service whatever
      has become of it; and what is written is what the resource asked for when it was read. */
  lemma ChildWrites(c: Codec, k: Key, s: System, f: Fault)
    requires Inv(k, s)
    ensures var st, st' := s.store, CallStep(c, k, s, f).store;
            && (st'.deps != st.deps <==>
                  s.pc.UpdateDeploy? && !f.Rejected? && k in st.deps && st.deps[k] == s.pc.dep)
            && (st'.deps != st.deps ==>
                  && k in st'.deps && st'.deps == st.deps[k := st'.deps[k]]
                  && RunsSpec(st'.deps[k].spec, k.name, s.pc.cr.spec)
                  && SameButVersion(st'.deps[k].meta, st.deps[k].meta))
            && (st'.svcs != st.svcs <==> s.pc.UpdateService? && !f.Rejected? && k in st.svcs)
            && (st'.svcs != st.svcs ==>
                  && k in st'.svcs && st'.svcs == st.svcs[k := st'.svcs[k]]
                  && ExposesSpec(st'.svcs[k].spec, k.name, s.pc.cr.spec)
                  && Bare(st'.svcs[k].meta, k, Owner("", "v1", "Prom", k.name)))
  {
    if s.pc.UpdateDeploy? {
      DeploymentWrites(c, k, s, f);
    } else if s.pc.UpdateService? {
      ServiceWrites(c, k, s, f);
    } else {
      OtherWrites(c, k, s, f);
    }
  }

  lemma DeploymentWrites(c: Codec, k: Key, s: System, f: Fault)
    requires Inv(k, s) && s.pc.UpdateDeploy?
    ensures var st, st' := s.store, CallStep(c, k, s, f).store;
            && st'.svcs == st.svcs
            && (st'.deps != st.deps <==> !f.Rejected? && k in st.deps && st.deps[k] == s.pc.dep)
            && (st'.deps != st.deps ==>
                  && k in st'.deps && st'.deps == st.deps[k := st'.deps[k]]
                  && RunsSpec(st'.deps[k].spec, k.name, s.pc.cr.spec)
                  && SameButVersion(st'.deps[k].meta, st.deps[k].meta))
  {
    hide NewDeploy, NewService, RunsSpec, Observe;
    ChildSpecsExact(s.pc.cr, NewDeploy(s.pc.cr).spec, NewService(s.pc.cr).spec);
    var st := s.store;
    if k in st.deps && st.deps[k] == s.pc.dep && !f.Rejected? {
      assert CallStep(c, k, s, f).store.deps[k].meta.version != st.deps[k].meta.version;
    }
  }

  lemma ServiceWrites(c: Codec, k: Key, s: System, f: Fault)
    requires Inv(k, s) && s.pc.UpdateService?
    ensures var st, st' := s.store, CallStep(c, k, s, f).store;
            && st'.deps == st.deps
            && (st'.svcs != st.svcs <==> !f.Rejected? && k in st.svcs)
            && (st'.svcs != st.svcs ==>
                  && k in st'.svcs && st'.svcs == st.svcs[k := st'.svcs[k]]
                  && ExposesSpec(st'.svcs[k].spec, k.name, s.pc.cr.spec)
                  && Bare(st'.svcs[k].meta, k, Owner("", "v1", "Prom", k.name)))
  {
    hide NewDeploy, NewService, ExposesSpec, Observe;
    ChildSpecsExact(s.pc.cr, NewDeploy(s.pc.cr).spec, NewService(s.pc.cr).spec);
    CreatedMeta(s.pc.cr);
    NewServiceMeta(s.pc.cr);
    var st := s.store;
    if k in st.svcs && !f.Rejected? {
      assert CallStep(c, k, s, f).store.svcs[k].meta.version != st.svcs[k].meta.version;
    }
  }

  lemma OtherWrites(c: Codec, k: Key, s: System, f: Fault)
    requires Inv(k, s) && !s.pc.UpdateDeploy? && !s.pc.UpdateService?
    ensures var st, st' := s.store, CallStep(c, k, s, f).store; st'.deps == st.deps && st'.svcs == st.svcs
  {
    hide NewDeploy, NewService, Observe;
  }

  lemma ReturnExact(c: Codec, k: Key, s: System, f: Fault)
    requires Inv(k, s) && !s.pc.Returned?
    ensures var t := CallStep(c, k, s, f);
            t.pc.Returned? ==>
              (t.pc == Returned(false) <==>
                 || (s.pc.ReadCr? && f.Healthy? && s.store.crs[k].meta.deleting)
                 || t.wrote.cr || (t.wrote.dep && t.wrote.svc))
  {
    hide NewDeploy, NewService, RunsSpec, ExposesSpec, Step;
    CallWrites(c, k, s, f);
    ChildWrites(c, k, s, f);
    ReturnsFalse(c, k, s, f);
  }

  lemma ReturnsFalse(c: Codec, k: Key, s: System, f: Fault)
    requires Inv(k, s) && !s.pc.Returned?
    ensures CallStep(c, k, s, f).pc == Returned(false) <==>
              match s.pc
              case ReadCr => f.Healthy? && s.store.crs[k].meta.deleting
              case WriteAnnotation(cr) => f.Healthy? && cr == s.store.crs[k]
              case UpdateService(_) => f.Healthy? && k in s.store.svcs
              case _ => false
  {
    hide NewDeploy, NewService, Observe;
    if s.pc.UpdateService? {
      NewServiceMeta(s.pc.cr);
    }
  }

  /** What success means, in every run, whatever fails and whatever others do: a Reconcile that returns
      without an error has annotated the resource, or has written the Deployment and the Service, both
      acknowledged; or it found the resource under deletion. And only such a one returns without. */
  lemma {:induction false} SuccessExact(c: Codec, k: Key, s: System, es: seq<Event>, f: Fault)
    requires Inv(k, s) && !Run(c, k, s, es).pc.Returned?
    ensures var r := Run(c, k, s, es); var t := CallStep(c, k, r, f);
            k in r.store.crs && (t.pc.Returned? ==>
              (t.pc == Returned(false) <==>
                 || (r.pc.ReadCr? && f.Healthy? && r.store.crs[k].meta.deleting)
                 || t.wrote.cr || (t.wrote.dep && t.wrote.svc)))
  {
    hide CallStep;
    RunKeeps(c, k, s, es);
    ReturnExact(c, k, Run(c, k, s, es), f);
  }

  /** In every run, a call writes the Service only if the Reconcile under way has had its update of the
      Deployment acknowledged. */
  lemma {:induction false} ServiceAfterDeployment(c: Codec, k: Key, s: System, es: seq<Event>, f: Fault)
    requires Inv(k, s)
    ensures var r := Run(c, k, s, es);
            CallStep(c, k, r, f).store.svcs != r.store.svcs ==> !r.pc.Returned? && r.wrote.dep
  {
    hide CallStep, RunsSpec, ExposesSpec;
    RunKeeps(c, k, s, es);
    ChildWrites(c, k, Run(c, k, s, es), f);
  }

  /** Consecutive calls, each with its fault. */
  function Calls(c: Codec, k: Key, s: System, faults: seq<Fault>): System {
    if faults == [] then s
    else CallStep(c, k, Calls(c, k, s, faults[..|faults| - 1]), faults[|faults| - 1])
  }

  /** The number of calls a run has made when it is here. */
  function Depth(pc: Pc): nat {
    match pc
    case Returned(_) => 6
    case ReadCr => 0
    case ReadDep(_) => 1
    case CheckDeploy(_) => 2
    case CheckService(_) => 3
    case WriteAnnotation(_) => 4
    case ReadDepAgain(_) => 2
    case UpdateDeploy(_, _) => 3
    case ReadSvc(_) => 4
    case UpdateService(_) => 5
  }

  lemma DepthCall(c: Codec, k: Key, s: System, f: Fault)
    ensures var t := CallStep(c, k, s, f); t.pc.Returned? || Depth(t.pc) == Depth(s.pc) + 1
  {
    hide NewDeploy, NewService, Annotated, Observe, Note, UpdateCr, UpdateDep, UpdateSvc;
  }

  /** Each write comes after its reads: whatever fails, the first three calls write nothing, the fourth
      nothing but the Deployment, and the first five no Service. */
  lemma {:induction false} WritesComeLate(c: Codec, k: Key, s: System, faults: seq<Fault>)
    requires Inv(k, s) && s.pc == ReadCr
    ensures var t := Calls(c, k, s, faults);
            && Inv(k, t) && (t.pc.Returned? || Depth(t.pc) == |faults|)
            && (|faults| <= 3 ==> t.store.deps == s.store.deps)
            && (|faults| <= 4 ==> t.store.crs == s.store.crs)
            && (|faults| <= 5 ==> t.store.svcs == s.store.svcs)
  {
    if faults != [] {
      hide CallStep, Inv, RunsSpec, ExposesSpec;
      var n := |faults| - 1;
      var r := Calls(c, k, s, faults[..n]);
      WritesComeLate(c, k, s, faults[..n]);
      CallKeeps(c, k, r, faults[n]);
      DepthCall(c, k, r, faults[n]);
      CallWrites(c, k, r, faults[n]);
      ChildWrites(c, k, r, faults[n]);
    }
  }

  /** How far the children are, in a run on `cr` that others leave alone. */
  ghost predicate Underway(k: Key, s: System, crs: Table<PromSpec>) {
    && k in crs && Inv(k, s)
    && (s.pc.Returned? || s.store.crs == crs)
    && (!s.pc.Returned? && !s.pc.ReadCr? ==> s.pc.cr == crs[k])
    && (s.pc.ReadSvc? || s.pc.UpdateService? ==>
          k in s.store.deps && RunsSpec(s.store.deps[k].spec, k.name, crs[k].spec))
    && (s.pc == Returned(false) && s.store.crs == crs ==>
          && k in s.store.deps && RunsSpec(s.store.deps[k].spec, k.name, crs[k].spec)
          && k in s.store.svcs && ExposesSpec(s.store.svcs[k].spec, k.name, crs[k].spec))
  }

  lemma UnderwayCall(c: Codec, k: Key, s: System, crs: Table<PromSpec>, f: Fault)
    requires Underway(k, s, crs) && !crs[k].meta.deleting
    ensures Underway(k, CallStep(c, k, s, f), crs)
  {
    hide NewDeploy, NewService, RunsSpec, ExposesSpec, Observe, Note;
    CallKeeps(c, k, s, f);
    CallWrites(c, k, s, f);
    ChildWrites(c, k, s, f);
    if !s.pc.Returned? {
      ReturnsFalse(c, k, s, f);
    }
  }

  /** Among no deeds of others, for every sequence of faults: if Reconcile succeeds and has not written the
      resource, both children are what the resource asks for. */
  lemma {:induction false} SuccessMeansMatch(c: Codec, k: Key, s: System, faults: seq<Fault>)
    requires Inv(k, s) && s.pc == ReadCr && !s.store.crs[k].meta.deleting
    ensures var t := Calls(c, k, s, faults);
            && Underway(k, t, s.store.crs)
            && (t.pc == Returned(false) && t.store.crs == s.store.crs ==> Matches(k, t.store))
  {
    hide CallStep, Inv, Matches, RunsSpec, ExposesSpec;
    InvKey(k, s);
    if faults != [] {
      SuccessMeansMatch(c, k, s, faults[..|faults| - 1]);
      UnderwayCall(c, k, Calls(c, k, s, faults[..|faults| - 1]), s.store.crs, faults[|faults| - 1]);
    }
    var t := Calls(c, k, s, faults);
    if t.pc == Returned(false) && t.store.crs == s.store.crs {
      assert t.store.crs[k].meta.key == k by { InvKey(k, t); }
      MatchesExact(k, t.store);
    }
  }

  lemma InvKey(k: Key, s: System)
    requires Inv(k, s)
    ensures k in s.store.crs && s.store.crs[k].meta.key == k
  {
  }

  // ----- resources under deletion, and resources that are gone -----

  /** There is nothing to reconcile, and no run that began before is under way. */
  predicate Gone(k: Key, s: System) {
    && (k in s.store.crs ==> s.store.crs[k].meta.deleting)
    && (s.pc.Returned? || s.pc.ReadCr?)
  }

  lemma GoneNext(c: Codec, k: Key, s: System, e: Event)
    requires Gone(k, s)
    ensures var t := Next(c, k, s, e);
            && Gone(k, t) && t.store == (if e.Outside? then Do(s.store, e.deed) else s.store)
            && (e.Call? && s.pc.ReadCr? ==> t.pc == Returned(e.fault != Healthy))
  {
  }

  /** For a resource under deletion, and for one that is not there, the controller does nothing at all:
      whatever happens, the store is what others made of it. Every run succeeds unless its read fails. */
  lemma {:induction false} GoneIsLeftAlone(c: Codec, k: Key, s: System, es: seq<Event>)
    requires Gone(k, s)
    ensures Gone(k, Run(c, k, s, es)) && Run(c, k, s, es).store == DoAll(s.store, Deeds(es))
  {
    if es != [] {
      hide Next, Do, Gone;
      var n := |es| - 1;
      GoneIsLeftAlone(c, k, s, es[..n]);
      GoneNext(c, k, Run(c, k, s, es[..n]), es[n]);
      if es[n].Outside? {
        assert Deeds(es)[..|Deeds(es)| - 1] == Deeds(es[..n]);
      }
    }
  }

  // ----- runs without a fault in which no Deployment is applied -----

  predicate AllHealthy(es: seq<Event>) {
    forall i :: 0 <= i < |es| && es[i].Call? ==> es[i].fault == Healthy
  }

  /** Nobody applies a Deployment for the resource. */
  predicate NoneApplied(k: Key, es: seq<Event>) {
    forall i :: 0 <= i < |es| && es[i].Outside? && es[i].deed.ApplyDep? ==> es[i].deed.dep.meta.key != k
  }

  /** If line 72 found no Deployment then there is none. */
  predicate Absent(k: Key, s: System) {
    && (s.pc.CheckDeploy? ==> k !in s.store.deps)
    && !s.pc.CheckService? && !s.pc.WriteAnnotation?
  }

  lemma AbsentKeeps(c: Codec, k: Key, s: System)
    requires Inv(k, s) && Absent(k, s)
    ensures Absent(k, CallStep(c, k, s, Healthy))
  {
    hide NewDeploy, NewService, Observe;
  }

  /** It takes one or the other: as long as no call fails and nobody applies a Deployment, whatever else
      others do, the annotation stays as it is. */
  lemma {:induction false} AnnotationFrozen(c: Codec, k: Key, s: System, es: seq<Event>)
    requires Inv(k, s) && s.pc.Returned? && AllHealthy(es) && NoneApplied(k, es)
    ensures var t := Run(c, k, s, es);
            Inv(k, t) && Absent(k, t) && t.store.crs[k].meta.annotations == s.store.crs[k].meta.annotations
  {
    hide CallStep;
    if es != [] {
      var n := |es| - 1;
      AnnotationFrozen(c, k, s, es[..n]);
      var r := Run(c, k, s, es[..n]);
      NextKeeps(c, k, r, es[n]);
      if es[n].Call? {
        AbsentKeeps(c, k, r);
        CallWrites(c, k, r, Healthy);
      }
    }
  }

  // ----- what a call leaves alone -----

  /** The Deployment keeps its metadata, the Service is replaced as a whole, labels and annotations
      included, and the resource changes in nothing but its `spec` annotation. */
  lemma UpdateFrame(c: Codec, k: Key, s: System, f: Fault)
    requires Inv(k, s)
    ensures var st, st' := s.store, CallStep(c, k, s, f).store;
            && (k in st.deps ==> k in st'.deps && SameButVersion(st.deps[k].meta, st'.deps[k].meta))
            && (k in st.svcs && k in st'.svcs && st'.svcs[k] != st.svcs[k] ==>
                  && s.pc.UpdateService? && ExposesSpec(st'.svcs[k].spec, k.name, s.pc.cr.spec)
                  && Bare(st'.svcs[k].meta, k, Owner("", "v1", "Prom", k.name)))
            && k in st'.crs && st'.crs[k].spec == st.crs[k].spec
            && SameButSpecAnnotation(st'.crs[k].meta, st.crs[k].meta)
            && (st'.crs[k] == st.crs[k] || Annotation(st'.crs[k].meta, "spec") == c.encode(st.crs[k].spec))
  {
    hide CallStep, RunsSpec, ExposesSpec;
    ChildWrites(c, k, s, f);
    CallWrites(c, k, s, f);
  }

  // ----- one run without a fault -----

  function Quiet(c: Codec, k: Key, s: System, n: nat): System
    decreases n
  {
    if n == 0 then s else Quiet(c, k, CallStep(c, k, s, Healthy), n - 1)
  }

  lemma QuietReturned(c: Codec, k: Key, s: System, n: nat)
    requires s.pc.Returned?
    ensures Quiet(c, k, s, n) == s
    decreases n
  {
    if n > 0 {
      QuietReturned(c, k, s, n - 1);
    }
  }

  lemma QuietUpdate(c: Codec, k: Key, s: System)
    requires Inv(k, s) && s.pc.ReadDepAgain? && k in s.store.deps
    ensures var t := Quiet(c, k, s, 4);
            && t.pc == Returned(k !in s.store.svcs) && t.store.crs == s.store.crs
            && k in t.store.deps && t.store.deps[k].spec == NewDeploy(s.pc.cr).spec
            && (if k in s.store.svcs then k in t.store.svcs && t.store.svcs[k].spec == NewService(s.pc.cr).spec
                else t.store.svcs == s.store.svcs)
  {
    hide NewDeploy, NewService;
    var s1 := CallStep(c, k, s, Healthy);
    var s2 := CallStep(c, k, s1, Healthy);
    var s3 := CallStep(c, k, s2, Healthy);
    CallKeeps(c, k, s, Healthy);
    CallKeeps(c, k, s1, Healthy);
    CallKeeps(c, k, s2, Healthy);
    NewServiceMeta(s.pc.cr);
    assert Quiet(c, k, s, 4) == Quiet(c, k, s1, 3) == Quiet(c, k, s2, 2) == Quiet(c, k, s3, 1);
  }

  /** A run without a fault changes nothing at all unless the Deployment exists and the annotation
      decodes; then it brings the Deployment up to date, and the Service too if that exists. */
  lemma QuietRun(c: Codec, k: Key, s: System)
    requires Inv(k, s) && s.pc == ReadCr && !s.store.crs[k].meta.deleting
    ensures var cr := s.store.crs[k]; var t := Quiet(c, k, s, 6);
            && t.pc.Returned? && t.store.crs == s.store.crs
            && (if k in s.store.deps && c.decodes(Annotation(cr.meta, "spec")) then
                  && k in t.store.deps && t.store.deps[k].spec == NewDeploy(cr).spec
                  && (if k in s.store.svcs then k in t.store.svcs && t.store.svcs[k].spec == NewService(cr).spec
                      else t.store.svcs == s.store.svcs && t.pc == Returned(true))
                else t.store == s.store && t.pc == Returned(true))
  {
    hide NewDeploy, NewService;
    var cr := s.store.crs[k];
    var s1 := s.(pc := ReadDep(cr));
    var s2 := CallStep(c, k, s1, Healthy);
    assert Quiet(c, k, s, 6) == Quiet(c, k, s1, 5) == Quiet(c, k, s2, 4);
    if k !in s.store.deps {
      QuietReturned(c, k, CallStep(c, k, s2, Healthy), 3);
    } else if c.decodes(Annotation(cr.meta, "spec")) {
      QuietUpdate(c, k, s2);
    } else {
      QuietReturned(c, k, s2, 4);
    }
  }

  /** Both children are what the resource asks for. */
  predicate Matches(k: Key, st: Store<PromSpec>)
    requires k in st.crs
  {
    && k in st.deps && st.deps[k].spec == NewDeploy(st.crs[k]).spec
    && k in st.svcs && st.svcs[k].spec == NewService(st.crs[k]).spec
  }

  /** What it means that they match, field by field. */
  lemma MatchesExact(k: Key, st: Store<PromSpec>)
    requires k in st.crs && st.crs[k].meta.key == k
    ensures Matches(k, st) <==>
              && k in st.deps && RunsSpec(st.deps[k].spec, k.name, st.crs[k].spec)
              && k in st.svcs && ExposesSpec(st.svcs[k].spec, k.name, st.crs[k].spec)
  {
    hide RunsSpec, ExposesSpec, NewDeploy, NewService;
    if k in st.deps && k in st.svcs {
      ChildSpecsExact(st.crs[k], st.deps[k].spec, st.svcs[k].spec);
    }
  }

  /** The basin of the Prom controller, exactly: it brings the children up to date if and only if
      somebody else made both of them and the annotation; from nothing it converges nowhere. */
  lemma ConvergenceExact(c: Codec, k: Key, s: System)
    requires Inv(k, s) && s.pc == ReadCr && !s.store.crs[k].meta.deleting
    ensures var st := s.store; var t := Quiet(c, k, s, 6);
            && k in t.store.crs
            && (Matches(k, t.store) <==>
                  || (k in st.deps && k in st.svcs && c.decodes(Annotation(st.crs[k].meta, "spec")))
                  || Matches(k, st))
  {
    hide NewDeploy, NewService, Quiet;
    QuietRun(c, k, s);
  }

  // ----- after line 92 -----

  /** The gate of line 98 accepts whatever line 92 writes. */
  ghost predicate Accepts(c: Codec) {
    forall spec :: c.decodes(c.encode(spec))
  }

  ghost predicate GateOpen(c: Codec, k: Key, s: System) {
    k in s.store.crs && c.decodes(Annotation(s.store.crs[k].meta, "spec"))
  }

  lemma GateStaysOpen(c: Codec, k: Key, s: System, e: Event)
    requires Inv(k, s) && Accepts(c) && GateOpen(c, k, s)
    ensures Inv(k, Next(c, k, s, e)) && GateOpen(c, k, Next(c, k, s, e))
  {
    hide CallStep;
    NextKeeps(c, k, s, e);
    if e.Call? {
      CallWrites(c, k, s, e.fault);
      assert c.decodes(c.encode(s.store.crs[k].spec));
    }
  }

  lemma {:induction false} GateOpenInRun(c: Codec, k: Key, s: System, es: seq<Event>)
    requires Inv(k, s) && Accepts(c) && GateOpen(c, k, s)
    ensures Inv(k, Run(c, k, s, es)) && GateOpen(c, k, Run(c, k, s, es))
  {
    if es != [] {
      hide Inv, Accepts, GateOpen, Next;
      GateOpenInRun(c, k, s, es[..|es| - 1]);
      GateStaysOpen(c, k, Run(c, k, s, es[..|es| - 1]), es[|es| - 1]);
    }
  }

  /** Once line 92 has taken effect, reported or not, the controller converges, level-triggered. Whatever
      happens then, edits, failing runs and deeds of others to the children included, a run without a
      fault makes both children match the last spec if and only if both exist. */
  lemma {:induction false} ConvergesAfterAnnotation(c: Codec, k: Key, s: System, f: Fault, es: seq<Event>)
    requires Inv(k, s) && Accepts(c)
    requires s.pc.WriteAnnotation? && !f.Rejected? && s.pc.cr == s.store.crs[k]
    requires var r := Run(c, k, CallStep(c, k, s, f), es);
             r.pc.Returned? && k in r.store.crs && !r.store.crs[k].meta.deleting
    ensures var r := Run(c, k, CallStep(c, k, s, f), es);
            var t := Quiet(c, k, Next(c, k, r, Pick), 6);
            && k in t.store.crs && t.store.crs[k].spec == r.store.crs[k].spec
            && (Matches(k, t.store) <==> k in r.store.deps && k in r.store.svcs)
  {
    hide CallStep, NewDeploy, NewService, Quiet, Run;
    CallWrites(c, k, s, f);
    CallKeeps(c, k, s, f);
    assert c.decodes(c.encode(s.store.crs[k].spec));
    GateOpenInRun(c, k, CallStep(c, k, s, f), es);
    var r := Run(c, k, CallStep(c, k, s, f), es);
    ConvergenceExact(c, k, Next(c, k, r, Pick));
    QuietRun(c, k, Next(c, k, r, Pick));
  }
}
