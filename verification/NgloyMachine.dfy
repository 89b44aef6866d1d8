/** The Ngloy controller as a machine: one step is one API call of Reconcile, one pick from the work
    queue, or one edit of a custom resource by a user, in any interleaving. */
module NgloyMachine {
  import opened Wrappers
  import opened Kube
  import opened SpecJson
  import opened NgloyChildren
  import opened Store

  /** The next API call of Reconcile, with the local variables it still needs. */
  datatype Pc =
    | Returned(failed: bool)
    | ReadCr
    | ReadDep(cr: Ngloy)
    | CreateDeploy(cr: Ngloy)
    | CreateService(cr: Ngloy)
    | WriteAnnotation(cr: Ngloy)
    | ReadDepAgain(cr: Ngloy)
    | UpdateDeploy(cr: Ngloy, dep: Deployment)
    | ReadSvc(cr: Ngloy)
    | UpdateService(cr: Ngloy, svc: Service)

  /** What an observer remembers; no step reads it. Generation g of the watched resource had specs[g]. */
  datatype History = History(
    specs: seq<NgloySpec>,
    depGen: nat,    // the generation last written to the Deployment
    svcGen: nat,    // the generation last written to the Service
    created: nat)   // the generation from which the Deployment was created

  datatype System = System(store: Store<NgloySpec>, pc: Pc, queued: bool, hist: History)

  datatype Event = Pick | Call(fault: Fault) | Edit(key: Key, spec: NgloySpec)

  /** `&nginxcomv1.Ngloy{}`. */
  const ZERO := Resource(NewMeta(Key("", ""), []), NgloySpec(None, "", Resources(None, None), None))

  /** Reconcile returns; an error puts the request back into the queue. */
  function Return(s: System, failed: bool): System {
    s.(pc := Returned(failed), queued := s.queued || failed)
  }

  function Applied<S>(written: Option<Table<S>>, f: Fault): bool {
    written.Some? && !f.Rejected?
  }

  /** The resource with the annotation that the create branch adds. */
  function Annotated(cr: Ngloy): Ngloy {
    cr.(meta := Annotate(cr.meta, "spec", Marshal(cr.spec)))
  }

  /** One API call on behalf of the request for `k`, and what Reconcile does up to the next one. */
  function CallStep(k: Key, s: System, f: Fault): System {
    var st := s.store;
    match s.pc
    case Returned(_) => s
    case ReadCr =>
      if f != Healthy then s.(pc := ReadDep(ZERO))
      else if k !in st.crs then Return(s, true)
      else if st.crs[k].meta.deleting then Return(s, false)
      else s.(pc := ReadDep(st.crs[k]))
    case ReadDep(cr) =>
      if f == Healthy && k !in st.deps then s.(pc := CreateDeploy(cr))
      else if Decodes(Annotation(cr.meta, "spec")) then s.(pc := ReadDepAgain(cr))
      else Return(s, true)
    case CreateDeploy(cr) =>
      var (st', ok) := CreateDep(st, NewDeploy(cr), f);
      var g := cr.meta.generation;
      var s' := s.(store := st',
                   hist := if Applied(Create(st.deps, NewDeploy(cr), st.revision), f)
                           then s.hist.(depGen := g, created := g) else s.hist);
      if ok then s'.(pc := CreateService(cr)) else Return(s', true)
    case CreateService(cr) =>
      var (st', ok) := CreateSvc(st, NewService(cr), f);
      var s' := s.(store := st',
                   hist := if Applied(Create(st.svcs, NewService(cr), st.revision), f)
                           then s.hist.(svcGen := cr.meta.generation) else s.hist);
      if ok then s'.(pc := WriteAnnotation(cr)) else Return(s', true)
    case WriteAnnotation(cr) =>
      var (st', ok) := UpdateCr(st, Annotated(cr), f);
      var changed := Applied(Update(st.crs, Annotated(cr), st.revision), f);
      Return(s.(store := st', queued := s.queued || (changed && cr.meta.key == k)), !ok)
    case ReadDepAgain(cr) =>
      if f != Healthy || k !in st.deps then Return(s, true) else s.(pc := UpdateDeploy(cr, st.deps[k]))
    case UpdateDeploy(cr, dep) =>
      var changed := dep.(spec := NewDeploy(cr).spec);
      var (st', ok) := UpdateDep(st, changed, f);
      var s' := s.(store := st',
                   hist := if Applied(Update(st.deps, changed, st.revision), f)
                           then s.hist.(depGen := cr.meta.generation) else s.hist);
      if ok then s'.(pc := ReadSvc(cr)) else Return(s', true)
    case ReadSvc(cr) =>
      if f != Healthy || k !in st.svcs then Return(s, true) else s.(pc := UpdateService(cr, st.svcs[k]))
    case UpdateService(cr, svc) =>
      var changed := svc.(spec := NewService(cr).spec);
      var (st', ok) := UpdateSvc(st, changed, f);
      var s' := s.(store := st',
                   hist := if Applied(Update(st.svcs, changed, st.revision), f)
                           then s.hist.(svcGen := cr.meta.generation) else s.hist);
      Return(s', !ok)
  }

  /** Every change of the watched resource wakes the controller; changes of its children do not. */
  function EditStep(k: Key, s: System, key: Key, spec: NgloySpec): System {
    var watched := key == k && key in s.store.crs;
    System(EditCr(s.store, key, spec), s.pc, s.queued || watched,
           if watched then s.hist.(specs := s.hist.specs + [spec]) else s.hist)
  }

  function Next(k: Key, s: System, e: Event): System {
    match e
    case Pick => if s.pc.Returned? && s.queued then s.(pc := ReadCr, queued := false) else s
    case Call(f) => CallStep(k, s, f)
    case Edit(key, spec) => EditStep(k, s, key, spec)
  }

  function Run(k: Key, s: System, es: seq<Event>): System {
    if es == [] then s else Next(k, Run(k, s, es[..|es| - 1]), es[|es| - 1])
  }

  // ----- the state of the children -----

  predicate HasDep(k: Key, st: Store<NgloySpec>) {
    k in st.deps
  }

  predicate HasSvc(k: Key, st: Store<NgloySpec>) {
    k in st.svcs
  }

  /** The annotation of the resource decodes. */
  predicate HasAnn(k: Key, st: Store<NgloySpec>) {
    k in st.crs && Decodes(Annotation(st.crs[k].meta, "spec"))
  }

  predicate DepMatches(k: Key, st: Store<NgloySpec>)
    requires k in st.crs
  {
    k in st.deps && st.deps[k].spec == DeploymentFor(k.name, st.crs[k].spec)
  }

  predicate SvcMatches(k: Key, st: Store<NgloySpec>)
    requires k in st.crs
  {
    k in st.svcs && st.svcs[k].spec == ServiceFor(k.name, st.crs[k].spec)
  }

  /** Both children are what the resource asks for. */
  predicate Matches(k: Key, st: Store<NgloySpec>) {
    k in st.crs && DepMatches(k, st) && SvcMatches(k, st)
  }

  /** What it means that they match, field by field. */
  lemma MatchesExact(k: Key, st: Store<NgloySpec>)
    ensures Matches(k, st) <==>
              && k in st.crs && k in st.deps && k in st.svcs
              && RunsSpec(st.deps[k].spec, k.name, st.crs[k].spec)
              && ExposesSpec(st.svcs[k].spec, k.name, st.crs[k].spec)
  {
    hide RunsSpec, ExposesSpec, DeploymentFor, ServiceFor;
    if k in st.crs && k in st.deps && k in st.svcs {
      ChildSpecsExact(k.name, st.crs[k].spec, st.deps[k].spec, st.svcs[k].spec);
    }
  }

  // ----- what the local variables of a run are worth -----

  predicate HasCr(pc: Pc) {
    !pc.Returned? && !pc.ReadCr?
  }

  ghost predicate LocalOk(k: Key, s: System, cr: Ngloy)
    requires k in s.store.crs
  {
    var now := s.store.crs[k];
    && cr.meta.key == k && cr.meta.annotations == now.meta.annotations
    && 0 < cr.meta.version <= now.meta.version && cr.meta.generation <= now.meta.generation
    && (cr.meta.version == now.meta.version ==> cr == now)
  }

  ghost predicate Inv(k: Key, s: System) {
    var st, pc := s.store, s.pc;
    && k.name != "" && Consistent(st, k) && k in st.crs
    && (HasCr(pc) ==> LocalOk(k, s, pc.cr) || (pc.cr == ZERO && (pc.ReadDep? || pc.CreateDeploy?)))
    && (pc.CreateDeploy? ==> !HasDep(k, st))
    && (pc.CreateService? || pc.WriteAnnotation? || pc.UpdateDeploy? || pc.ReadSvc? || pc.UpdateService? ==> HasDep(k, st))
    && (pc.WriteAnnotation? || pc.UpdateService? ==> HasSvc(k, st))
    && (pc.ReadDepAgain? || pc.UpdateDeploy? || pc.ReadSvc? || pc.UpdateService? ==> HasAnn(k, st))
    && (pc.UpdateDeploy? ==> pc.dep == st.deps[k])
    && (pc.UpdateService? ==> pc.svc == st.svcs[k])
  }

  lemma ReadKeeps(k: Key, s: System, f: Fault)
    requires Inv(k, s)
    requires s.pc.Returned? || s.pc.ReadCr? || s.pc.ReadDep? || s.pc.ReadDepAgain? || s.pc.ReadSvc?
    ensures Inv(k, CallStep(k, s, f))
  {
    hide Decodes;
    NoAnnotation();
  }

  lemma CreateKeeps(k: Key, s: System, f: Fault)
    requires Inv(k, s)
    requires s.pc.CreateDeploy? || s.pc.CreateService?
    ensures Inv(k, CallStep(k, s, f))
  {
    hide Decodes;
  }

  lemma AnnotateKeeps(k: Key, s: System, f: Fault)
    requires Inv(k, s) && s.pc.WriteAnnotation?
    ensures Inv(k, CallStep(k, s, f))
  {
    hide Decodes, Marshal;
  }

  lemma UpdateKeeps(k: Key, s: System, f: Fault)
    requires Inv(k, s)
    requires s.pc.UpdateDeploy? || s.pc.UpdateService?
    ensures Inv(k, CallStep(k, s, f))
  {
    hide Decodes;
  }

  lemma CallKeeps(k: Key, s: System, f: Fault)
    requires Inv(k, s)
    ensures Inv(k, CallStep(k, s, f))
  {
    match s.pc
    case CreateDeploy(_) => CreateKeeps(k, s, f);
    case CreateService(_) => CreateKeeps(k, s, f);
    case WriteAnnotation(_) => AnnotateKeeps(k, s, f);
    case UpdateDeploy(_, _) => UpdateKeeps(k, s, f);
    case UpdateService(_, _) => UpdateKeeps(k, s, f);
    case _ => ReadKeeps(k, s, f);
  }

  lemma EditKeeps(k: Key, s: System, key: Key, spec: NgloySpec)
    requires Inv(k, s)
    ensures Inv(k, EditStep(k, s, key, spec))
  {
  }

  lemma NextKeeps(k: Key, s: System, e: Event)
    requires Inv(k, s)
    ensures Inv(k, Next(k, s, e))
  {
    match e
    case Pick =>
    case Call(f) => CallKeeps(k, s, f);
    case Edit(key, spec) => EditKeeps(k, s, key, spec);
  }
}
