/** The Deployment and the Service that an Ngloy asks for, and where traffic to the Service arrives. */
module NgloyChildren {
  import opened Wrappers
  import opened Kube
  import opened SpecJson

  type Ngloy = Resource<NgloySpec>

  const GROUP := ""  // the core API group
  const VERSION := "v1"

  function Ports(s: NgloySpec): seq<ServicePort> {
    if s.ports.Some? then s.ports.value else []
  }

  function ContainerPorts(ps: seq<ServicePort>): seq<ContainerPort> {
    seq(|ps|, i requires 0 <= i < |ps| => ContainerPort(ps[i].name, ps[i].port, ps[i].protocol))
  }

  /** What a container should be, field by field. */
  predicate ContainerRuns(c: Container, name: string, spec: NgloySpec) {
    && c.name == name && c.image == spec.image && c.resources == spec.resources
    && c.imagePullPolicy == "IfNotPresent" && c.env.None?
    && |c.ports| == (if spec.ports.Some? then |spec.ports.value| else 0)
    && forall i :: 0 <= i < |c.ports| ==>
         && c.ports[i].name == spec.ports.value[i].name
         && c.ports[i].containerPort == spec.ports.value[i].port
         && c.ports[i].protocol == spec.ports.value[i].protocol
  }

  /** The Deployment runs this spec. */
  predicate RunsSpec(d: DeploymentSpec, name: string, spec: NgloySpec) {
    && d.replicas == spec.size && d.templateName == name
    && d.selector == map["app" := name] && d.templateLabels == map["app" := name]
    && |d.containers| == 1 && ContainerRuns(d.containers[0], name, spec)
  }

  /** The Service exposes this spec. */
  predicate ExposesSpec(s: ServiceSpec, name: string, spec: NgloySpec) {
    s.kind == "NodePort" && s.ports == spec.ports && s.selector == map["app" := name]
  }

  /** The loop fills one ContainerPort variable again and again and appends copies of it. */
  method NewContainers(app: Ngloy) returns (r: seq<Container>)
    ensures r == Containers(app.meta.key.name, app.spec)
    ensures |r| == 1 && ContainerRuns(r[0], app.meta.key.name, app.spec)
  {
    var containerPorts: seq<ContainerPort> := [];
    var cport := ContainerPort("", 0, "");
    var ports := Ports(app.spec);
    for i := 0 to |ports|
      invariant containerPorts == ContainerPorts(ports[..i])
    {
      cport := cport.(containerPort := ports[i].port);
      cport := cport.(name := ports[i].name);
      cport := cport.(protocol := ports[i].protocol);
      containerPorts := containerPorts + [cport];
    }
    assert ports[..|ports|] == ports;
    r := [Container(app.meta.key.name, app.spec.image, app.spec.resources, containerPorts, "IfNotPresent", None)];
  }

  function Containers(name: string, spec: NgloySpec): seq<Container> {
    [Container(name, spec.image, spec.resources, ContainerPorts(Ports(spec)), "IfNotPresent", None)]
  }

  function DeploymentFor(name: string, spec: NgloySpec): DeploymentSpec {
    DeploymentSpec(spec.size, map["app" := name], name, map["app" := name], Containers(name, spec))
  }

  function ServiceFor(name: string, spec: NgloySpec): ServiceSpec {
    ServiceSpec("NodePort", spec.ports, map["app" := name])
  }

  /** newDeploy. */
  function NewDeploy(app: Ngloy): Deployment {
    Resource(NewMeta(app.meta.key, [Owner(GROUP, VERSION, "Ngloy", app.meta.key.name)]),
             DeploymentFor(app.meta.key.name, app.spec))
  }

  /** newService; its owner reference names the kind Prom. */
  function NewService(app: Ngloy): Service {
    Resource(NewMeta(app.meta.key, [Owner(GROUP, VERSION, "Prom", app.meta.key.name)]),
             ServiceFor(app.meta.key.name, app.spec))
  }

  /** What newDeploy and newService put where: of all child specs exactly these run and expose the spec. */
  lemma ChildSpecsExact(name: string, spec: NgloySpec, d: DeploymentSpec, s: ServiceSpec)
    ensures d == DeploymentFor(name, spec) <==> RunsSpec(d, name, spec)
    ensures s == ServiceFor(name, spec) <==> ExposesSpec(s, name, spec)
  {
    if RunsSpec(d, name, spec) {
      assert d.containers[0].ports == ContainerPorts(Ports(spec));
      assert d.containers == Containers(name, spec);
    }
  }

  /** The API group of the resource. */
  const OWN_GROUP := "nginx.com.kblog.club"

  /** The children are created under the key of the resource with no labels or annotations; and the owner
      references say the core group, so that neither names the resource. */
  lemma CreatedMeta(app: Ngloy)
    ensures Bare(NewDeploy(app).meta, app.meta.key, Owner("", "v1", "Ngloy", app.meta.key.name))
    ensures Bare(NewService(app).meta, app.meta.key, Owner("", "v1", "Prom", app.meta.key.name))
    ensures NewDeploy(app).meta.owners[0].group != OWN_GROUP && NewService(app).meta.owners[0].group != OWN_GROUP
  {
    assert |OWN_GROUP| > 0;
  }

  /** Nothing of a spec is lost on the way to the children: together they determine it. */
  lemma ChildrenDetermineSpec(name: string, s: NgloySpec, t: NgloySpec)
    requires DeploymentFor(name, s) == DeploymentFor(name, t) && ServiceFor(name, s) == ServiceFor(name, t)
    ensures s == t
  {
    assert Containers(name, s)[0] == Containers(name, t)[0];
  }

  // ----- routing -----

  /** The first entry with this port name and protocol. */
  function FirstNamed(ps: seq<ServicePort>, name: string, protocol: string): (r: Option<nat>)
    ensures r.Some? ==> r.value < |ps| && ps[r.value].name == name && ps[r.value].protocol == protocol
  {
    if ps == [] then None
    else if ps[0].name == name && ps[0].protocol == protocol then Some(0)
    else
      var k := FirstNamed(ps[1..], name, protocol);
      if k.Some? then Some(k.value + 1) else None
  }

  lemma {:induction false} FindPortIsFirstNamed(ps: seq<ServicePort>, name: string, protocol: string)
    ensures var k := FirstNamed(ps, name, protocol);
            FindPort(ContainerPorts(ps), name, protocol) == if k.Some? then Some(ps[k.value].port) else None
  {
    if ps != [] {
      assert ContainerPorts(ps)[1..] == ContainerPorts(ps[1..]);
      FindPortIsFirstNamed(ps[1..], name, protocol);
    }
  }

  /** Traffic to port i of the Service arrives at the container port emitted for entry i, on pods that the
      Service selects. */
  predicate Arrives(app: Ngloy, i: nat)
    requires i < |Ports(app.spec)|
  {
    var d := NewDeploy(app).spec;
    && |d.containers| == 1 && i < |d.containers[0].ports|
    && Reaches(NewService(app).spec, i, d, d.containers[0].ports[i].containerPort)
  }

  /** Exactly when it does: a numeric target has to be unset or the port itself, and a named target
      has to name, first of all entries with that name and protocol, one with the same port. */
  lemma ArrivesExact(app: Ngloy, i: nat)
    requires i < |Ports(app.spec)|
    ensures var ps := Ports(app.spec);
            Arrives(app, i) <==>
            match ps[i].targetPort
            case IntVal(n) => n == 0 || n == ps[i].port
            case StrVal(s) =>
              s != "" && FirstNamed(ps, s, ps[i].protocol).Some?
              && ps[FirstNamed(ps, s, ps[i].protocol).value].port == ps[i].port
  {
    var ps := Ports(app.spec);
    if ps[i].targetPort.StrVal? {
      FindPortIsFirstNamed(ps, ps[i].targetPort.s, ps[i].protocol);
    }
  }

  predicate UniqueNames(ps: seq<ServicePort>) {
    forall i, j :: 0 <= i < j < |ps| ==> ps[i].name != ps[j].name
  }

  /** With unique port names, a target that names its own entry arrives there. */
  lemma OwnNameArrives(app: Ngloy, i: nat)
    requires i < |Ports(app.spec)| && UniqueNames(Ports(app.spec))
    requires Ports(app.spec)[i].targetPort == StrVal(Ports(app.spec)[i].name) && Ports(app.spec)[i].name != ""
    ensures Arrives(app, i)
  {
    var ps := Ports(app.spec);
    FirstNamedUnique(ps, i);
    ArrivesExact(app, i);
  }

  lemma {:induction false} FirstNamedUnique(ps: seq<ServicePort>, i: nat)
    requires i < |ps| && UniqueNames(ps)
    ensures FirstNamed(ps, ps[i].name, ps[i].protocol) == Some(i)
  {
    if i > 0 {
      FirstNamedUnique(ps[1..], i - 1);
    }
  }

  /** Among the pods of all Ngloys of a namespace, the Service of one, like its Deployment, selects
      exactly the pods of its own Deployment. */
  lemma SelectsOwnPods(a: Ngloy, b: Ngloy)
    ensures Selects(NewService(a).spec.selector, NewDeploy(b).spec.templateLabels) <==> a.meta.key.name == b.meta.key.name
    ensures Selects(NewDeploy(a).spec.selector, NewDeploy(b).spec.templateLabels) <==> a.meta.key.name == b.meta.key.name
  {
    assert "app" in NewService(a).spec.selector && "app" in NewDeploy(a).spec.selector;
  }
}
