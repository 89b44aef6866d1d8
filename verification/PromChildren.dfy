/** The Deployment and the Service that a Prom asks for, and where traffic to the Service arrives. */
module PromChildren {
  import opened Wrappers
  import opened Kube

  datatype PromSpec = PromSpec(
    size: Option<int32>,
    image: string,
    resources: Resources,
    envs: Option<seq<EnvVar>>,
    ports: Option<seq<ServicePort>>)

  type Prom = Resource<PromSpec>

  function Ports(s: PromSpec): seq<ServicePort> {
    if s.ports.Some? then s.ports.value else []
  }

  /** The IntVal field of a target port, which is 0 when the target is a name. */
  function NumberOf(t: IntOrString): int32 {
    if t.IntVal? then t.n else 0
  }

  /** Container ports are the numeric targets, without name or protocol. */
  function ContainerPorts(ps: seq<ServicePort>): seq<ContainerPort> {
    seq(|ps|, i requires 0 <= i < |ps| => ContainerPort("", NumberOf(ps[i].targetPort), ""))
  }

  function Containers(name: string, spec: PromSpec): seq<Container> {
    [Container(name, spec.image, spec.resources, ContainerPorts(Ports(spec)), "IfNotPresent", spec.envs)]
  }

  /** What a container should be, field by field. */
  predicate ContainerRuns(c: Container, name: string, spec: PromSpec) {
    && c.name == name && c.image == spec.image && c.resources == spec.resources
    && c.imagePullPolicy == "IfNotPresent" && c.env == spec.envs
    && |c.ports| == (if spec.ports.Some? then |spec.ports.value| else 0)
    && forall i :: 0 <= i < |c.ports| ==>
         && c.ports[i].name == "" && c.ports[i].protocol == ""
         && match spec.ports.value[i].targetPort
            case IntVal(n) => c.ports[i].containerPort == n
            case StrVal(_) => c.ports[i].containerPort == 0
  }

  /** The Deployment runs this spec. */
  predicate RunsSpec(d: DeploymentSpec, name: string, spec: PromSpec) {
    && d.replicas == spec.size && d.templateName == ""
    && d.selector == map["app" := name] && d.templateLabels == map["app" := name]
    && |d.containers| == 1 && ContainerRuns(d.containers[0], name, spec)
  }

  /** The Service exposes this spec. */
  predicate ExposesSpec(s: ServiceSpec, name: string, spec: PromSpec) {
    s.kind == "NodePort" && s.ports == spec.ports && s.selector == map["app" := name]
  }

  method NewContainers(app: Prom) returns (r: seq<Container>)
    ensures r == Containers(app.meta.key.name, app.spec)
    ensures |r| == 1 && ContainerRuns(r[0], app.meta.key.name, app.spec)
  {
    var containerPorts: seq<ContainerPort> := [];
    var ports := Ports(app.spec);
    for i := 0 to |ports|
      invariant containerPorts == ContainerPorts(ports[..i])
    {
      var cport := ContainerPort("", 0, "");
      cport := cport.(containerPort := NumberOf(ports[i].targetPort));
      containerPorts := containerPorts + [cport];
    }
    assert ports[..|ports|] == ports;
    r := [Container(app.meta.key.name, app.spec.image, app.spec.resources, containerPorts, "IfNotPresent", app.spec.envs)];
  }

  function NewDeploy(app: Prom): Deployment {
    var name := app.meta.key.name;
    Resource(NewMeta(app.meta.key, [Owner("", "v1", "", name)]),
             DeploymentSpec(app.spec.size, map["app" := name], "", map["app" := name], Containers(name, app.spec)))
  }

  function NewService(app: Prom): Service {
    var name := app.meta.key.name;
    Resource(NewMeta(app.meta.key, [Owner("", "v1", "Prom", name)]),
             ServiceSpec("NodePort", app.spec.ports, map["app" := name]))
  }

  /** What newDeploy and newService put where: of all child specs exactly these run and expose the spec. */
  lemma ChildSpecsExact(app: Prom, d: DeploymentSpec, s: ServiceSpec)
    ensures d == NewDeploy(app).spec <==> RunsSpec(d, app.meta.key.name, app.spec)
    ensures s == NewService(app).spec <==> ExposesSpec(s, app.meta.key.name, app.spec)
  {
    if RunsSpec(d, app.meta.key.name, app.spec) {
      assert d.containers[0].ports == ContainerPorts(Ports(app.spec));
      assert d.containers == Containers(app.meta.key.name, app.spec);
    }
  }

  /** The API group of the resource. */
  const OWN_GROUP := "prom.my.domain"

  /** Both carry the key of the resource and no labels or annotations; and the owner references say the
      core group, so that neither names the resource. */
  lemma CreatedMeta(app: Prom)
    ensures Bare(NewDeploy(app).meta, app.meta.key, Owner("", "v1", "", app.meta.key.name))
    ensures Bare(NewService(app).meta, app.meta.key, Owner("", "v1", "Prom", app.meta.key.name))
    ensures NewDeploy(app).meta.owners[0].group != OWN_GROUP && NewService(app).meta.owners[0].group != OWN_GROUP
  {
    assert |OWN_GROUP| > 0;
  }

  /** The Service of one Prom, and its Deployment, select the pods of another if and only if they have the
      same name; so among the Proms of a namespace each selects exactly its own. */
  lemma SelectsOwnPods(a: Prom, b: Prom)
    ensures Selects(NewService(a).spec.selector, NewDeploy(b).spec.templateLabels) <==> a.meta.key.name == b.meta.key.name
    ensures Selects(NewDeploy(a).spec.selector, NewDeploy(b).spec.templateLabels) <==> a.meta.key.name == b.meta.key.name
  {
    assert "app" in NewService(a).spec.selector && "app" in NewDeploy(a).spec.selector;
  }

  /** Nothing of a spec is lost on the way to the children: together they determine it. */
  lemma ChildrenDetermineSpec(a: Prom, b: Prom)
    requires NewDeploy(a).spec == NewDeploy(b).spec && NewService(a).spec == NewService(b).spec
    ensures a.spec == b.spec
  {
    assert NewDeploy(a).spec.containers[0] == NewDeploy(b).spec.containers[0];
  }

  /** Traffic to port i of the Service arrives at the container port emitted for entry i, on pods that the
      Service selects. */
  predicate Arrives(app: Prom, i: nat)
    requires i < |Ports(app.spec)|
  {
    var d := NewDeploy(app).spec;
    && |d.containers| == 1 && i < |d.containers[0].ports|
    && Reaches(NewService(app).spec, i, d, d.containers[0].ports[i].containerPort)
  }

  lemma {:induction false} NoNamedPort(ps: seq<ServicePort>, name: string, protocol: string)
    requires name != ""
    ensures FindPort(ContainerPorts(ps), name, protocol) == None
  {
    if ps != [] {
      assert ContainerPorts(ps)[1..] == ContainerPorts(ps[1..]);
      NoNamedPort(ps[1..], name, protocol);
    }
  }

  /** Unlike an Ngloy's, a Prom's Service reaches the container port of its entry exactly when the
      target is a number, which must be set unless the port itself is 0: a named target never
      resolves, and an unset one leads to a container port 0. */
  lemma ArrivesExact(app: Prom, i: nat)
    requires i < |Ports(app.spec)|
    ensures Arrives(app, i) <==>
              var p := Ports(app.spec)[i]; p.targetPort.IntVal? && (p.targetPort.n != 0 || p.port == 0)
  {
    var ps := Ports(app.spec);
    if ps[i].targetPort.StrVal? && ps[i].targetPort.s != "" {
      NoNamedPort(ps, ps[i].targetPort.s, ps[i].protocol);
    }
  }
}
