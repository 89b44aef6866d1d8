/** The generated deep copies of Prom and PromList. Structs are values that hold pointers: a pointer,
    a map and a slice are references to cells and arrays on the heap, or nil. */
module DeepCopy {
  import opened Wrappers
  import K = Kube

  type int32 = K.int32

  /** What a pointer points to, or what a map header refers to. */
  class Cell<T> {
    var v: T

    constructor (v: T)
      ensures this.v == v
    {
      this.v := v;
    }
  }

  type Labels = map<string, string>

  datatype EnvVar = EnvVar(name: string, value: string, valueFrom: Cell?<string>)

  datatype ServicePort = ServicePort(
    name: string, protocol: string, appProtocol: Cell?<string>, port: int32, targetPort: K.IntOrString, nodePort: int32)

  datatype Resources = Resources(limits: Cell?<Labels>, requests: Cell?<Labels>)

  datatype PromSpec = PromSpec(
    size: Cell?<int32>, image: string, resources: Resources, envs: array?<EnvVar>, ports: array?<ServicePort>)

  datatype ObjectMeta = ObjectMeta(name: string, labels: Cell?<Labels>, annotations: Cell?<Labels>)

  datatype PromStatus = PromStatus(replicas: int32, collisionCount: Cell?<int32>)

  datatype Prom = Prom(kind: string, meta: ObjectMeta, spec: PromSpec, status: PromStatus)

  datatype PromList = PromList(kind: string, version: string, items: array?<Prom>)

  // ----- the cells that a value owns -----

  function CellFp<T>(c: Cell?<T>): set<object> {
    if c == null then {} else {c}
  }

  ghost function EnvsFp(a: array?<EnvVar>): set<object>
    reads a
  {
    if a == null then {} else {a} + set i | 0 <= i < a.Length && a[i].valueFrom != null :: a[i].valueFrom as object
  }

  ghost function PortsFp(a: array?<ServicePort>): set<object>
    reads a
  {
    if a == null then {} else {a} + set i | 0 <= i < a.Length && a[i].appProtocol != null :: a[i].appProtocol as object
  }

  function ResourcesFp(r: Resources): set<object> {
    CellFp(r.limits) + CellFp(r.requests)
  }

  ghost function SpecFp(s: PromSpec): set<object>
    reads s.envs, s.ports
  {
    CellFp(s.size) + ResourcesFp(s.resources) + EnvsFp(s.envs) + PortsFp(s.ports)
  }

  function MetaFp(m: ObjectMeta): set<object> {
    CellFp(m.labels) + CellFp(m.annotations)
  }

  ghost function PromFp(p: Prom): set<object>
    reads p.spec.envs, p.spec.ports
  {
    MetaFp(p.meta) + SpecFp(p.spec) + CellFp(p.status.collisionCount)
  }

  // ----- no two parts of a value share a cell -----

  predicate Apart<T>(c: Cell?<T>, d: Cell?<T>) {
    c == null || c != d
  }

  ghost predicate EnvsApart(a: array?<EnvVar>)
    reads a
  {
    a != null ==> forall i, j :: 0 <= i < j < a.Length ==> Apart(a[i].valueFrom, a[j].valueFrom)
  }

  ghost predicate PortsApart(a: array?<ServicePort>)
    reads a
  {
    a != null ==> forall i, j :: 0 <= i < j < a.Length ==> Apart(a[i].appProtocol, a[j].appProtocol)
  }

  ghost predicate SpecApart(s: PromSpec)
    reads s.envs, s.ports
  {
    && Apart(s.resources.limits, s.resources.requests) && EnvsApart(s.envs) && PortsApart(s.ports)
    && CellFp(s.size) !! ResourcesFp(s.resources) !! EnvsFp(s.envs) !! PortsFp(s.ports)
  }

  ghost predicate PromApart(p: Prom)
    reads p.spec.envs, p.spec.ports
  {
    && Apart(p.meta.labels, p.meta.annotations) && SpecApart(p.spec)
    && MetaFp(p.meta) !! SpecFp(p.spec) !! CellFp(p.status.collisionCount)
  }

  // ----- the plain value behind the pointers -----

  datatype EnvValue = EnvValue(name: string, value: string, valueFrom: Option<string>)

  datatype PortValue = PortValue(
    name: string, protocol: string, appProtocol: Option<string>, port: int32, targetPort: K.IntOrString, nodePort: int32)

  datatype ResourcesValue = ResourcesValue(limits: Option<Labels>, requests: Option<Labels>)

  datatype SpecValue = SpecValue(
    size: Option<int32>, image: string, resources: ResourcesValue, envs: Option<seq<EnvValue>>, ports: Option<seq<PortValue>>)

  datatype PromValue = PromValue(
    kind: string, name: string, labels: Option<Labels>, annotations: Option<Labels>, spec: SpecValue,
    replicas: int32, collisionCount: Option<int32>)

  ghost function Deref<T>(c: Cell?<T>): Option<T>
    reads CellFp(c)
  {
    if c == null then None else Some(c.v)
  }

  ghost function EnvOf(e: EnvVar): EnvValue
    reads CellFp(e.valueFrom)
  {
    EnvValue(e.name, e.value, Deref(e.valueFrom))
  }

  ghost function PortOf(p: ServicePort): PortValue
    reads CellFp(p.appProtocol)
  {
    PortValue(p.name, p.protocol, Deref(p.appProtocol), p.port, p.targetPort, p.nodePort)
  }

  ghost function EnvsOf(a: array?<EnvVar>): Option<seq<EnvValue>>
    reads a, EnvsFp(a)
  {
    if a == null then None
    else Some(seq(a.Length, i requires 0 <= i < a.Length reads a, EnvsFp(a) => EnvOf(a[i])))
  }

  ghost function PortsOf(a: array?<ServicePort>): Option<seq<PortValue>>
    reads a, PortsFp(a)
  {
    if a == null then None
    else Some(seq(a.Length, i requires 0 <= i < a.Length reads a, PortsFp(a) => PortOf(a[i])))
  }

  ghost function SpecOf(s: PromSpec): SpecValue
    reads s.envs, s.ports, SpecFp(s)
  {
    SpecValue(Deref(s.size), s.image, ResourcesValue(Deref(s.resources.limits), Deref(s.resources.requests)),
              EnvsOf(s.envs), PortsOf(s.ports))
  }

  ghost function PromOf(p: Prom): PromValue
    reads p.spec.envs, p.spec.ports, PromFp(p)
  {
    PromValue(p.kind, p.meta.name, Deref(p.meta.labels), Deref(p.meta.annotations), SpecOf(p.spec),
              p.status.replicas, Deref(p.status.collisionCount))
  }

  // ----- copying -----

  method CopyCell<T>(c: Cell?<T>) returns (d: Cell?<T>)
    ensures (d == null <==> c == null) && (d != null ==> fresh(d))
    ensures Deref(d) == Deref(c)
  {
    d := null;
    if c != null {
      d := new Cell(c.v);
    }
  }

  method CopyEnv(e: EnvVar) returns (f: EnvVar)
    ensures fresh(CellFp(f.valueFrom)) && EnvOf(f) == EnvOf(e)
  {
    var source := CopyCell(e.valueFrom);
    f := e.(valueFrom := source);
  }

  method CopyEnvsArray(a: array<EnvVar>) returns (b: array<EnvVar>)
    ensures fresh(b) && b.Length == a.Length && EnvsApart(b)
    ensures forall i :: 0 <= i < a.Length ==>
              (b[i].valueFrom != null ==> fresh(b[i].valueFrom)) && EnvOf(b[i]) == EnvOf(a[i])
  {
    b := new EnvVar[a.Length](_ => EnvVar("", "", null));
    ghost var cells: set<object> := {};
    for i := 0 to a.Length
      invariant fresh(b) && b.Length == a.Length && fresh(cells)
      invariant forall j :: 0 <= j < i ==> CellFp(b[j].valueFrom) <= cells && EnvOf(b[j]) == EnvOf(a[j])
      invariant forall j, k :: 0 <= j < k < i ==> Apart(b[j].valueFrom, b[k].valueFrom)
    {
      var e := CopyEnv(a[i]);
      assert CellFp(e.valueFrom) !! cells;
      b[i] := e;
      cells := cells + CellFp(e.valueFrom);
    }
  }

  method CopyEnvs(a: array?<EnvVar>) returns (b: array?<EnvVar>)
    ensures fresh(EnvsFp(b)) && EnvsApart(b) && EnvsOf(b) == EnvsOf(a)
  {
    b := null;
    if a != null {
      b := CopyEnvsArray(a);
      assert EnvsOf(b).value == EnvsOf(a).value;
    }
  }

  method CopyPort(p: ServicePort) returns (q: ServicePort)
    ensures fresh(CellFp(q.appProtocol)) && PortOf(q) == PortOf(p)
  {
    var protocol := CopyCell(p.appProtocol);
    q := p.(appProtocol := protocol);
  }

  method CopyPortsArray(a: array<ServicePort>) returns (b: array<ServicePort>)
    ensures fresh(b) && b.Length == a.Length && PortsApart(b)
    ensures forall i :: 0 <= i < a.Length ==>
              (b[i].appProtocol != null ==> fresh(b[i].appProtocol)) && PortOf(b[i]) == PortOf(a[i])
  {
    b := new ServicePort[a.Length](_ => ServicePort("", "", null, 0, K.IntVal(0), 0));
    ghost var cells: set<object> := {};
    for i := 0 to a.Length
      invariant fresh(b) && b.Length == a.Length && fresh(cells)
      invariant forall j :: 0 <= j < i ==> CellFp(b[j].appProtocol) <= cells && PortOf(b[j]) == PortOf(a[j])
      invariant forall j, k :: 0 <= j < k < i ==> Apart(b[j].appProtocol, b[k].appProtocol)
    {
      var p := CopyPort(a[i]);
      assert CellFp(p.appProtocol) !! cells;
      b[i] := p;
      cells := cells + CellFp(p.appProtocol);
    }
  }

  method CopyPorts(a: array?<ServicePort>) returns (b: array?<ServicePort>)
    ensures fresh(PortsFp(b)) && PortsApart(b) && PortsOf(b) == PortsOf(a)
  {
    b := null;
    if a != null {
      b := CopyPortsArray(a);
      assert PortsOf(b).value == PortsOf(a).value;
    }
  }

  /** Values do not change while only other objects are made. */
  twostate lemma EnvsKept(a: array?<EnvVar>)
    requires a != null ==> unchanged(a)
    requires a != null ==> forall i :: 0 <= i < a.Length && a[i].valueFrom != null ==> unchanged(a[i].valueFrom)
    ensures EnvsOf(a) == old(EnvsOf(a))
  {
    if a != null {
      assert EnvsOf(a).value == old(EnvsOf(a).value);
    }
  }

  method CopySlices(es: array?<EnvVar>, ps: array?<ServicePort>) returns (fs: array?<EnvVar>, qs: array?<ServicePort>)
    ensures fresh(EnvsFp(fs)) && fresh(PortsFp(qs)) && EnvsFp(fs) !! PortsFp(qs)
    ensures EnvsApart(fs) && PortsApart(qs)
    ensures EnvsOf(fs) == EnvsOf(es) && PortsOf(qs) == PortsOf(ps)
  {
    fs := CopyEnvs(es);
    ghost var done := EnvsFp(fs);
    label copied:
    qs := CopyPorts(ps);
    EnvsKept@copied(es);
    EnvsKept@copied(fs);
    assert EnvsFp(fs) == done;
  }

  method CopyResources(r: Resources) returns (q: Resources)
    ensures fresh(ResourcesFp(q)) && Apart(q.limits, q.requests)
    ensures Deref(q.limits) == Deref(r.limits) && Deref(q.requests) == Deref(r.requests)
  {
    q := r;
    var limits := CopyCell(r.limits);
    q := q.(limits := limits);
    var requests := CopyCell(r.requests);
    q := q.(requests := requests);
  }

  /** PromSpec.DeepCopyInto: a shallow copy, whose references are then replaced one by one. */
  method CopySpec(a: PromSpec) returns (b: PromSpec)
    ensures fresh(SpecFp(b)) && SpecApart(b) && SpecOf(b) == SpecOf(a)
  {
    b := a;
    var size := CopyCell(a.size);
    b := b.(size := size);
    var resources := CopyResources(a.resources);
    b := b.(resources := resources);
    ghost var cells: set<object> := CellFp(size) + ResourcesFp(resources);
    assert CellFp(size) !! ResourcesFp(resources);
    var envs, ports := CopySlices(a.envs, a.ports);
    b := b.(envs := envs, ports := ports);
    assert cells !! EnvsFp(envs) + PortsFp(ports);
  }

  method CopyMeta(m: ObjectMeta) returns (n: ObjectMeta)
    ensures fresh(MetaFp(n)) && Apart(n.labels, n.annotations)
    ensures n.name == m.name && Deref(n.labels) == Deref(m.labels) && Deref(n.annotations) == Deref(m.annotations)
  {
    n := m;
    var labels := CopyCell(m.labels);
    n := n.(labels := labels);
    var annotations := CopyCell(m.annotations);
    n := n.(annotations := annotations);
  }

  method CopySpecAndStatus(s: PromSpec, t: PromStatus) returns (s': PromSpec, t': PromStatus)
    ensures fresh(SpecFp(s')) && SpecApart(s') && SpecOf(s') == SpecOf(s)
    ensures fresh(CellFp(t'.collisionCount)) && CellFp(t'.collisionCount) !! SpecFp(s')
    ensures t'.replicas == t.replicas && Deref(t'.collisionCount) == Deref(t.collisionCount)
  {
    s' := CopySpec(s);
    ghost var cells := SpecFp(s');
    assert allocated(SpecFp(s')) && allocated(SpecFp(s));
    var count := CopyCell(t.collisionCount);
    t' := t.(collisionCount := count);
    assert cells !! CellFp(count);
  }

  /** Prom.DeepCopyInto. */
  method CopyProm(a: Prom) returns (b: Prom)
    ensures fresh(PromFp(b)) && PromApart(b) && PromOf(b) == PromOf(a)
  {
    b := a;
    var meta := CopyMeta(a.meta);
    b := b.(meta := meta);
    ghost var cells := MetaFp(meta);
    var spec, status := CopySpecAndStatus(a.spec, a.status);
    b := b.(spec := spec, status := status);
    assert cells !! SpecFp(spec) && cells !! CellFp(status.collisionCount);
  }

  // ----- lists -----

  ghost function Slices(a: array?<Prom>): set<object?>
    reads a
  {
    if a == null then {}
    else (set i | 0 <= i < a.Length :: a[i].spec.envs as object?) + (set i | 0 <= i < a.Length :: a[i].spec.ports as object?)
  }

  ghost predicate ListApart(a: array?<Prom>)
    reads a, Slices(a)
  {
    a != null ==>
      && (forall i :: 0 <= i < a.Length ==> PromApart(a[i]))
      && (forall i, j :: 0 <= i < j < a.Length ==> PromFp(a[i]) !! PromFp(a[j]))
  }

  const NO_PROM := Prom("", ObjectMeta("", null, null), PromSpec(null, "", Resources(null, null), null, null), PromStatus(0, null))

  /** `q` is a copy of `p` that owns exactly the cells `own`. */
  ghost predicate IsCopy(p: Prom, q: Prom, own: set<object>)
    reads p.spec.envs, p.spec.ports, PromFp(p), q.spec.envs, q.spec.ports, PromFp(q)
  {
    PromFp(q) == own && PromApart(q) && PromOf(q) == PromOf(p)
  }

  /** A value changes only with the cells it owns. */
  twostate lemma PromKept(p: Prom)
    requires forall o :: o in old(PromFp(p)) ==> unchanged(o)
    ensures PromFp(p) == old(PromFp(p)) && PromApart(p) == old(PromApart(p)) && PromOf(p) == old(PromOf(p))
  {
  }

  /** An array of items is none of the cells of an item. */
  lemma ItemsApart(p: Prom, b: array<Prom>)
    ensures b !in PromFp(p)
  {
  }

  /** The loop of PromList.DeepCopyInto. */
  method CopyItems(a: array<Prom>) returns (b: array<Prom>)
    ensures fresh(b) && b.Length == a.Length && ListApart(b)
    ensures forall i :: 0 <= i < a.Length ==> fresh(PromFp(b[i])) && PromOf(b[i]) == PromOf(a[i])
  {
    hide PromFp, PromApart, PromOf;
    b := new Prom[a.Length](_ => NO_PROM);
    ghost var owned: seq<set<object>> := [];
    for i := 0 to a.Length
      invariant fresh(b) && b.Length == a.Length && |owned| == i
      invariant forall j :: 0 <= j < i ==> IsCopy(a[j], b[j], owned[j]) && fresh(owned[j])
      invariant forall j, k :: 0 <= j < k < i ==> owned[j] !! owned[k]
    {
      label before:
      ghost var done := b[..];
      forall j | 0 <= j < i
        ensures allocated(PromFp(a[j])) && allocated(PromFp(done[j])) && b !in PromFp(a[j]) && b !in PromFp(done[j])
      {
        ItemsApart(a[j], b);
        ItemsApart(done[j], b);
      }
      assert forall j :: 0 <= j < i ==> PromFp(done[j]) == owned[j];
      var p := CopyProm(a[i]);
      assert forall j :: 0 <= j < i ==> owned[j] !! PromFp(p);
      ItemsApart(p, b);
      ItemsApart(a[i], b);
      label copied:
      b[i] := p;
      PromKept@copied(p);
      PromKept@copied(a[i]);
      forall j | 0 <= j < i ensures IsCopy(a[j], b[j], owned[j]) {
        PromKept@before(a[j]);
        PromKept@before(done[j]);
      }
      owned := owned + [PromFp(p)];
    }
  }

  /** PromList.DeepCopy: nil for nil; otherwise a list of the same value on cells and arrays that are
      all new, and so disjoint from those of the original, and shared by no two of its items. Nil
      slices and pointers stay nil, and the original is unchanged. */
  method DeepCopyList(a: Cell?<PromList>) returns (b: Cell?<PromList>)
    ensures b == null <==> a == null
    ensures b != null ==>
              && fresh(b) && b.v.kind == a.v.kind && b.v.version == a.v.version
              && (b.v.items == null <==> a.v.items == null)
    ensures b != null && b.v.items != null ==>
              && fresh(b.v.items) && b.v.items.Length == a.v.items.Length && ListApart(b.v.items)
              && forall i :: 0 <= i < a.v.items.Length ==>
                   && fresh(PromFp(b.v.items[i])) && PromOf(b.v.items[i]) == PromOf(a.v.items[i])
                   && PromOf(a.v.items[i]) == old(PromOf(a.v.items[i]))
  {
    hide PromFp, PromApart, PromOf;
    b := null;
    if a != null {
      var out := a.v;
      if a.v.items != null {
        var items: array<Prom> := a.v.items;
        assert forall i :: 0 <= i < items.Length ==> allocated(PromFp(items[i]));
        var copies := CopyItems(items);
        out := out.(items := copies);
        forall i | 0 <= i < items.Length ensures PromOf(items[i]) == old(PromOf(a.v.items[i])) {
          PromKept(items[i]);
        }
      }
      label copied:
      if out.items != null {
        ghost var copies: array<Prom> := out.items;
        assert forall i :: 0 <= i < copies.Length ==> allocated(PromFp(copies[i])) && allocated(PromFp(a.v.items[i]));
      }
      b := new Cell(out);
      if out.items != null {
        ghost var copies: array<Prom> := out.items;
        forall i | 0 <= i < copies.Length
          ensures PromOf(copies[i]) == old@copied(PromOf(copies[i])) && PromFp(copies[i]) == old@copied(PromFp(copies[i]))
          ensures PromApart(copies[i])
        {
          PromKept@copied(copies[i]);
        }
        forall i | 0 <= i < copies.Length ensures PromOf(a.v.items[i]) == old@copied(PromOf(a.v.items[i])) {
          PromKept@copied(a.v.items[i]);
        }
      }
    }
  }
}
