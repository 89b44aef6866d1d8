/** The Kubernetes objects that the two operators read and write, as far as they look at them. */
module Kube {
  import opened Wrappers

  type int32 = n: int | -0x8000_0000 <= n < 0x8000_0000

  datatype Key = Key(namespace: string, name: string)

  datatype IntOrString = IntVal(n: int32) | StrVal(s: string)

  /** An absent slice (nil) and an empty one are different values. */
  datatype ServicePort = ServicePort(
    name: string,
    protocol: string,
    appProtocol: Option<string>,
    port: int32,
    targetPort: IntOrString,
    nodePort: int32)

  datatype ContainerPort = ContainerPort(name: string, containerPort: int32, protocol: string)

  /** Strings in the order in which a map is listed when it is written as JSON. */
  predicate Less(a: string, b: string) {
    if b == [] then false
    else if a == [] then true
    else if a[0] != b[0] then a[0] < b[0]
    else Less(a[1..], b[1..])
  }

  predicate Sorted(l: seq<(string, string)>) {
    forall i, j :: 0 <= i < j < |l| ==> Less(l[i].0, l[j].0)
  }

  /** A map from resource names to quantities, listed by name. */
  type ResourceList = l: seq<(string, string)> | Sorted(l) witness []

  datatype Resources = Resources(limits: Option<ResourceList>, requests: Option<ResourceList>)

  datatype EnvVar = EnvVar(name: string, value: string)

  datatype Container = Container(
    name: string,
    image: string,
    resources: Resources,
    ports: seq<ContainerPort>,
    imagePullPolicy: string,
    env: Option<seq<EnvVar>>)

  datatype DeploymentSpec = DeploymentSpec(
    replicas: Option<int32>,
    selector: map<string, string>,
    templateName: string,
    templateLabels: map<string, string>,
    containers: seq<Container>)

  datatype ServiceSpec = ServiceSpec(
    kind: string,
    ports: Option<seq<ServicePort>>,
    selector: map<string, string>)

  datatype Owner = Owner(group: string, version: string, kind: string, name: string)

  /** `version` is the resourceVersion (0 is "not set"); `generation` counts the spec edits. */
  datatype Meta = Meta(
    key: Key,
    version: nat,
    generation: nat,
    deleting: bool,
    labels: map<string, string>,
    annotations: Option<map<string, string>>,
    owners: seq<Owner>)

  datatype Resource<+S> = Resource(meta: Meta, spec: S)

  type Deployment = Resource<DeploymentSpec>
  type Service = Resource<ServiceSpec>

  /** The metadata of an object under construction. */
  function NewMeta(key: Key, owners: seq<Owner>): Meta {
    Meta(key, 0, 0, false, map[], None, owners)
  }

  /** Nothing is set but the key, the owner and what the server assigns. */
  predicate Bare(m: Meta, key: Key, owner: Owner) {
    m.key == key && m.labels == map[] && m.annotations.None? && !m.deleting && m.owners == [owner]
  }

  /** Indexing a nil map, or one without the key, gives the empty string. */
  function Annotation(m: Meta, name: string): string {
    if m.annotations.Some? && name in m.annotations.value then m.annotations.value[name] else ""
  }

  function Annotate(m: Meta, name: string, text: string): Meta {
    m.(annotations := Some(if m.annotations.Some? then m.annotations.value[name := text] else map[name := text]))
  }

  predicate SameButVersion(a: Meta, b: Meta) {
    a.(version := 0) == b.(version := 0)
  }

  /** Two states of an object that differ in nothing but its version and its `spec` annotation. */
  ghost predicate SameButSpecAnnotation(a: Meta, b: Meta) {
    && a.(version := 0, annotations := None) == b.(version := 0, annotations := None)
    && forall n :: n != "spec" ==> Annotation(a, n) == Annotation(b, n)
  }

  /** A selector matches a pod whose labels include every pair of the selector. */
  predicate Selects(selector: map<string, string>, labels: map<string, string>) {
    forall k :: k in selector ==> k in labels && labels[k] == selector[k]
  }

  /** The container port that a named target stands for on a pod with these ports. */
  function FindPort(ports: seq<ContainerPort>, name: string, protocol: string): Option<int32> {
    if ports == [] then None
    else if ports[0].name == name && ports[0].protocol == protocol then Some(ports[0].containerPort)
    else FindPort(ports[1..], name, protocol)
  }

  /** The port of the pod that traffic to this service port reaches; an unset target is the port itself. */
  function TargetOf(p: ServicePort, ports: seq<ContainerPort>): Option<int32> {
    match p.targetPort
    case IntVal(n) => Some(if n == 0 then p.port else n)
    case StrVal(s) => if s == "" then None else FindPort(ports, s, p.protocol)
  }

  /** Traffic to port i of the Service arrives at this container port of the Deployment's pods. */
  predicate Reaches(svc: ServiceSpec, i: nat, dep: DeploymentSpec, port: int32) {
    && Selects(svc.selector, dep.templateLabels)
    && svc.ports.Some? && i < |svc.ports.value| && |dep.containers| == 1
    && TargetOf(svc.ports.value[i], dep.containers[0].ports) == Some(port)
  }

  // ----- the order of names -----

  lemma {:induction false} LessTrichotomy(a: string, b: string)
    requires a != b && !Less(a, b)
    ensures Less(b, a)
  {
    if a != [] && b != [] && a[0] == b[0] {
      assert a == [a[0]] + a[1..] && b == [b[0]] + b[1..];
      LessTrichotomy(a[1..], b[1..]);
    }
  }

  lemma {:induction false} LessTransitive(a: string, b: string, c: string)
    requires Less(a, b) && Less(b, c)
    ensures Less(a, c)
  {
    if a != [] && a[0] == b[0] == c[0] {
      LessTransitive(a[1..], b[1..], c[1..]);
    }
  }

  lemma {:induction false} LessIrreflexive(a: string)
    ensures !Less(a, a)
  {
    if a != [] {
      LessIrreflexive(a[1..]);
    }
  }

  /** Setting one entry of a map. */
  function Insert(l: ResourceList, k: string, v: string): (r: ResourceList)
    ensures forall i :: 0 <= i < |r| ==> r[i].0 == k || exists j :: 0 <= j < |l| && l[j].0 == r[i].0
  {
    if l == [] then [(k, v)]
    else if l[0].0 == k then [(k, v)] + l[1..]
    else if Less(k, l[0].0) then
      InsertFirst(l, k, v);
      [(k, v)] + l
    else
      InsertLater(l, k);
      var more := Insert(l[1..], k, v);
      assert forall i :: 0 <= i < |more| ==> Less(l[0].0, more[i].0);
      [l[0]] + more
  }

  lemma InsertFirst(l: ResourceList, k: string, v: string)
    requires l != [] && Less(k, l[0].0)
    ensures Sorted([(k, v)] + l)
  {
    forall j | 0 < j < |l| ensures Less(k, l[j].0) {
      LessTransitive(k, l[0].0, l[j].0);
    }
  }

  lemma InsertLater(l: ResourceList, k: string)
    requires l != [] && l[0].0 != k && !Less(k, l[0].0)
    ensures Less(l[0].0, k)
  {
    LessTrichotomy(k, l[0].0);
  }

  /** Setting an entry behind all others appends it. */
  lemma {:induction false} InsertLast(l: ResourceList, k: string, v: string)
    requires forall i :: 0 <= i < |l| ==> Less(l[i].0, k)
    ensures Insert(l, k, v) == l + [(k, v)]
  {
    if l != [] {
      LessIrreflexive(k);
      if Less(k, l[0].0) {
        LessTransitive(k, l[0].0, k);
      }
      InsertLast(l[1..], k, v);
      assert [l[0]] + (l[1..] + [(k, v)]) == l + [(k, v)];
    }
  }
}
