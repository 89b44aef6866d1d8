/** The text of the `spec` annotation: json.Marshal and json.Unmarshal of a NgloySpec under its
    struct tags. */
module SpecJson {
  import opened Wrappers
  import opened Kube
  import opened Json

  datatype NgloySpec = NgloySpec(
    size: Option<int32>,
    image: string,
    resources: Resources,
    ports: Option<seq<ServicePort>>)

  // ----- writing -----

  /** A struct field under its tag; `omit` says that the tag has omitempty and the field is empty. */
  datatype Field = Field(name: string, value: Value, omit: bool)

  function WriteFields(fs: seq<Field>): Members {
    if fs == [] then End
    else if fs[0].omit then WriteFields(fs[1..])
    else Member(fs[0].name, fs[0].value, WriteFields(fs[1..]))
  }

  function WriteInt(n: int): Value {
    Number(IntText(n))
  }

  function WriteIntOrString(t: IntOrString): Value {
    match t
    case IntVal(n) => WriteInt(n)
    case StrVal(s) => Str(s)
  }

  function WriteList(l: seq<(string, string)>): Members {
    if l == [] then End else Member(l[0].0, Str(l[0].1), WriteList(l[1..]))
  }

  predicate EmptyList(l: Option<ResourceList>) {
    l.None? || l.value == []
  }

  function WriteOptional(l: Option<ResourceList>): Value {
    Object(WriteList(if l.Some? then l.value else []))
  }

  function ResourcesFields(r: Resources): seq<Field> {
    [Field("limits", WriteOptional(r.limits), EmptyList(r.limits)),
     Field("requests", WriteOptional(r.requests), EmptyList(r.requests))]
  }

  function WriteResources(r: Resources): Value {
    Object(WriteFields(ResourcesFields(r)))
  }

  function PortFields(p: ServicePort): seq<Field> {
    [Field("name", Str(p.name), p.name == ""),
     Field("protocol", Str(p.protocol), p.protocol == ""),
     Field("appProtocol", Str(if p.appProtocol.Some? then p.appProtocol.value else ""), p.appProtocol.None?),
     Field("port", WriteInt(p.port), false),
     Field("targetPort", WriteIntOrString(p.targetPort), false),
     Field("nodePort", WriteInt(p.nodePort), p.nodePort == 0)]
  }

  function WritePort(p: ServicePort): Value {
    Object(WriteFields(PortFields(p)))
  }

  function WritePorts(ps: seq<ServicePort>): seq<Value> {
    seq(|ps|, i requires 0 <= i < |ps| => WritePort(ps[i]))
  }

  function SpecFields(s: NgloySpec): seq<Field> {
    var ports := if s.ports.Some? then s.ports.value else [];
    [Field("size", if s.size.Some? then WriteInt(s.size.value) else Null, false),
     Field("image", Str(s.image), false),
     Field("resources", WriteResources(s.resources), false),
     Field("ports", Array(WritePorts(ports)), ports == [])]
  }

  function WriteSpec(s: NgloySpec): Value {
    Object(WriteFields(SpecFields(s)))
  }

  function Marshal(s: NgloySpec): string {
    Print(WriteSpec(s))
  }

  // ----- reading -----

  /** The value of the last member with this name; null, which leaves a field alone, if there is none. */
  function Get(ms: Members, name: string): Value {
    if Has(ms, name) then Find(ms, name) else Null
  }

  predicate Has(ms: Members, name: string) {
    ms.Member? && (ms.name == name || Has(ms.more, name))
  }

  function Find(ms: Members, name: string): Value
    requires Has(ms, name)
  {
    if Has(ms.more, name) then Find(ms.more, name) else ms.value
  }

  function ReadInt32(v: Value): Option<int32> {
    match v
    case Null => Some(0)
    case Number(lexeme) =>
      var n :- IntOf(lexeme);
      if -0x8000_0000 <= n < 0x8000_0000 then Some(n) else None
    case _ => None
  }

  function ReadText(v: Value): Option<string> {
    match v
    case Null => Some("")
    case Str(s) => Some(s)
    case _ => None
  }

  function ReadIntOrString(v: Value): Option<IntOrString> {
    if v.Str? then Some(StrVal(v.s))
    else
      var n :- ReadInt32(v);
      Some(IntVal(n))
  }

  /** The text of a quantity, which may also be written as a bare number. */
  function ReadQuantity(v: Value): Option<string> {
    match v
    case Null => Some("0")
    case Str(s) => Some(s)
    case Number(lexeme) => Some(lexeme)
    case _ => None
  }

  function ReadList(ms: Members, l: ResourceList): Option<ResourceList> {
    if ms.End? then Some(l)
    else
      var q :- ReadQuantity(ms.value);
      ReadList(ms.more, Insert(l, ms.name, q))
  }

  function ReadOptional(v: Value): Option<Option<ResourceList>> {
    match v
    case Null => Some(None)
    case Object(ms) =>
      var l :- ReadList(ms, []);
      Some(Some(l))
    case _ => None
  }

  function ReadResources(v: Value): Option<Resources> {
    match v
    case Null => Some(Resources(None, None))
    case Object(ms) =>
      var limits :- ReadOptional(Get(ms, "limits"));
      var requests :- ReadOptional(Get(ms, "requests"));
      Some(Resources(limits, requests))
    case _ => None
  }

  function ReadPort(v: Value): Option<ServicePort> {
    match v
    case Null => Some(ServicePort("", "", None, 0, IntVal(0), 0))
    case Object(ms) =>
      var name :- ReadText(Get(ms, "name"));
      var protocol :- ReadText(Get(ms, "protocol"));
      var app :- ReadText(Get(ms, "appProtocol"));
      var port :- ReadInt32(Get(ms, "port"));
      var target :- ReadIntOrString(Get(ms, "targetPort"));
      var node :- ReadInt32(Get(ms, "nodePort"));
      Some(ServicePort(name, protocol, if Get(ms, "appProtocol").Null? then None else Some(app), port, target, node))
    case _ => None
  }

  function ReadPorts(vs: seq<Value>): Option<seq<ServicePort>> {
    if vs == [] then Some([])
    else
      var p :- ReadPort(vs[0]);
      var more :- ReadPorts(vs[1..]);
      Some([p] + more)
  }

  function ReadSlice(v: Value): Option<Option<seq<ServicePort>>> {
    match v
    case Null => Some(None)
    case Array(vs) =>
      var ps :- ReadPorts(vs);
      Some(Some(ps))
    case _ => None
  }

  function ReadSize(v: Value): Option<Option<int32>> {
    if v.Null? then Some(None)
    else
      var n :- ReadInt32(v);
      Some(Some(n))
  }

  function ReadSpec(v: Value): Option<NgloySpec> {
    match v
    case Null => Some(NgloySpec(None, "", Resources(None, None), None))
    case Object(ms) =>
      var size :- ReadSize(Get(ms, "size"));
      var image :- ReadText(Get(ms, "image"));
      var resources :- ReadResources(Get(ms, "resources"));
      var ports :- ReadSlice(Get(ms, "ports"));
      Some(NgloySpec(size, image, resources, ports))
    case _ => None
  }

  function Unmarshal(text: string): Option<NgloySpec> {
    var v :- Parse(text);
    ReadSpec(v)
  }

  /** The gate of the update branch: does the annotation decode? */
  predicate Decodes(text: string) {
    Unmarshal(text).Some?
  }

  // ----- the round trip -----

  /** Empty slices and maps are written like absent ones. */
  function OmitEmpty(s: NgloySpec): NgloySpec {
    s.(resources := Resources(if EmptyList(s.resources.limits) then None else s.resources.limits,
                              if EmptyList(s.resources.requests) then None else s.resources.requests),
       ports := if s.ports == Some([]) then None else s.ports)
  }

  predicate Distinct(fs: seq<Field>) {
    forall i, j :: 0 <= i < j < |fs| ==> fs[i].name != fs[j].name
  }

  lemma {:induction false} NoField(fs: seq<Field>, name: string)
    requires forall i :: 0 <= i < |fs| ==> fs[i].name != name
    ensures !Has(WriteFields(fs), name)
  {
    if fs != [] {
      NoField(fs[1..], name);
    }
  }

  lemma {:induction false} GetField(fs: seq<Field>, i: nat)
    requires Distinct(fs) && i < |fs|
    ensures Get(WriteFields(fs), fs[i].name) == if fs[i].omit then Null else fs[i].value
  {
    if i == 0 {
      NoField(fs[1..], fs[0].name);
    } else {
      GetField(fs[1..], i - 1);
    }
  }

  lemma {:induction false} FieldsCanonical(fs: seq<Field>)
    requires forall i :: 0 <= i < |fs| ==> Canonical(fs[i].value)
    ensures CanonicalMembers(WriteFields(fs))
  {
    if fs != [] {
      FieldsCanonical(fs[1..]);
    }
  }

  lemma IntRoundTrip(n: int32)
    ensures ReadInt32(WriteInt(n)) == Some(n)
  {
    IntOfText(n);
  }

  lemma {:induction false} ListRoundTrip(l: ResourceList, k: nat)
    requires k <= |l|
    ensures ReadList(WriteList(l[k..]), l[..k]) == Some(l)
    decreases |l| - k
  {
    hide Insert;
    if k == |l| {
      assert l[..k] == l;
    } else {
      InsertLast(l[..k], l[k].0, l[k].1);
      assert l[..k] + [(l[k].0, l[k].1)] == l[..k + 1];
      assert l[k..][1..] == l[k + 1..];
      ListRoundTrip(l, k + 1);
    }
  }

  lemma ResourcesRoundTrip(r: Resources)
    ensures ReadResources(WriteResources(r))
         == Some(Resources(if EmptyList(r.limits) then None else r.limits,
                           if EmptyList(r.requests) then None else r.requests))
  {
    GetField(ResourcesFields(r), 0);
    GetField(ResourcesFields(r), 1);
    if !EmptyList(r.limits) {
      assert r.limits.value[0..] == r.limits.value;
      ListRoundTrip(r.limits.value, 0);
    }
    if !EmptyList(r.requests) {
      assert r.requests.value[0..] == r.requests.value;
      ListRoundTrip(r.requests.value, 0);
    }
  }

  lemma PortNames(p: ServicePort)
    ensures Distinct(PortFields(p))
  {
    var lengths := [4, 8, 11, 4, 10, 8];
    var initials := ['n', 'p', 'a', 'p', 't', 'n'];
    var fs := PortFields(p);
    assert forall i :: 0 <= i < 6 ==> |fs[i].name| == lengths[i] && fs[i].name[0] == initials[i];
    assert forall i, j :: 0 <= i < j < 6 ==> lengths[i] != lengths[j] || initials[i] != initials[j];
  }

  /** What the members of a written struct are, whatever order they come in. */
  ghost predicate Holds(ms: Members, f: Field) {
    Get(ms, f.name) == if f.omit then Null else f.value
  }

  lemma HoldsAll(fs: seq<Field>)
    requires Distinct(fs)
    ensures forall i :: 0 <= i < |fs| ==> Holds(WriteFields(fs), fs[i])
  {
    forall i | 0 <= i < |fs| ensures Holds(WriteFields(fs), fs[i]) {
      GetField(fs, i);
    }
  }

  lemma TextField(ms: Members, f: Field, s: string)
    requires Holds(ms, f) && f.value == Str(s) && (f.omit ==> s == "")
    ensures ReadText(Get(ms, f.name)) == Some(s)
  {
  }

  lemma IntField(ms: Members, f: Field, n: int32)
    requires Holds(ms, f) && f.value == WriteInt(n) && (f.omit ==> n == 0)
    ensures ReadInt32(Get(ms, f.name)) == Some(n)
  {
    IntRoundTrip(n);
  }

  lemma TargetField(ms: Members, f: Field, t: IntOrString)
    requires Holds(ms, f) && f.value == WriteIntOrString(t) && !f.omit
    ensures ReadIntOrString(Get(ms, f.name)) == Some(t)
  {
    if t.IntVal? {
      IntRoundTrip(t.n);
    }
  }

  lemma PortFromMembers(ms: Members, p: ServicePort)
    requires ReadText(Get(ms, "name")) == Some(p.name)
    requires ReadText(Get(ms, "protocol")) == Some(p.protocol)
    requires Get(ms, "appProtocol") == if p.appProtocol.None? then Null else Str(p.appProtocol.value)
    requires ReadInt32(Get(ms, "port")) == Some(p.port)
    requires ReadIntOrString(Get(ms, "targetPort")) == Some(p.targetPort)
    requires ReadInt32(Get(ms, "nodePort")) == Some(p.nodePort)
    ensures ReadPort(Object(ms)) == Some(p)
  {
  }

  lemma PortRoundTrip(p: ServicePort)
    ensures ReadPort(WritePort(p)) == Some(p)
  {
    PortNames(p);
    var fs := PortFields(p);
    var ms := WriteFields(fs);
    HoldsAll(fs);
    TextField(ms, fs[0], p.name);
    TextField(ms, fs[1], p.protocol);
    assert Holds(ms, fs[2]);
    IntField(ms, fs[3], p.port);
    TargetField(ms, fs[4], p.targetPort);
    IntField(ms, fs[5], p.nodePort);
    PortFromMembers(ms, p);
  }

  lemma {:induction false} ReadEach(vs: seq<Value>, ps: seq<ServicePort>)
    requires |vs| == |ps| && forall i :: 0 <= i < |vs| ==> ReadPort(vs[i]) == Some(ps[i])
    ensures ReadPorts(vs) == Some(ps)
  {
    if vs != [] {
      ReadEach(vs[1..], ps[1..]);
      assert [ps[0]] + ps[1..] == ps;
    }
  }

  lemma PortsRoundTrip(ps: seq<ServicePort>)
    ensures ReadPorts(WritePorts(ps)) == Some(ps)
  {
    var vs := WritePorts(ps);
    forall i | 0 <= i < |vs| ensures ReadPort(vs[i]) == Some(ps[i]) {
      PortRoundTrip(ps[i]);
    }
    ReadEach(vs, ps);
  }

  lemma SpecFromMembers(ms: Members, s: NgloySpec)
    requires var fs := SpecFields(s); Holds(ms, fs[0]) && Holds(ms, fs[1]) && Holds(ms, fs[2]) && Holds(ms, fs[3])
    ensures ReadSpec(Object(ms)) == Some(OmitEmpty(s))
  {
    ResourcesRoundTrip(s.resources);
    PortsRoundTrip(if s.ports.Some? then s.ports.value else []);
    if s.size.Some? {
      IntRoundTrip(s.size.value);
    }
  }

  lemma SpecRoundTrip(s: NgloySpec)
    ensures ReadSpec(WriteSpec(s)) == Some(OmitEmpty(s))
  {
    assert "size"[0] != "image"[0];
    HoldsAll(SpecFields(s));
    SpecFromMembers(WriteFields(SpecFields(s)), s);
  }

  lemma IntCanonical(n: int)
    ensures Canonical(WriteInt(n))
  {
    IntOfText(n);
  }

  lemma {:induction false} ListCanonical(l: seq<(string, string)>)
    ensures CanonicalMembers(WriteList(l))
  {
    if l != [] {
      ListCanonical(l[1..]);
    }
  }

  lemma PortCanonical(p: ServicePort)
    ensures Canonical(WritePort(p))
  {
    hide WriteInt;
    IntCanonical(p.port);
    IntCanonical(p.nodePort);
    if p.targetPort.IntVal? {
      IntCanonical(p.targetPort.n);
    }
    FieldsCanonical(PortFields(p));
  }

  lemma ResourcesCanonical(r: Resources)
    ensures Canonical(WriteResources(r))
  {
    ListCanonical(if r.limits.Some? then r.limits.value else []);
    ListCanonical(if r.requests.Some? then r.requests.value else []);
    FieldsCanonical(ResourcesFields(r));
  }

  lemma SpecCanonical(s: NgloySpec)
    ensures Canonical(WriteSpec(s))
  {
    if s.size.Some? {
      IntCanonical(s.size.value);
    }
    ResourcesCanonical(s.resources);
    var ports := if s.ports.Some? then s.ports.value else [];
    forall i | 0 <= i < |ports| ensures Canonical(WritePorts(ports)[i]) {
      PortCanonical(ports[i]);
    }
    FieldsCanonical(SpecFields(s));
  }

  /** The text that the create branch writes decodes to the spec it was written from, up to absent
      and empty slices and maps; so the gate of the update branch accepts it. */
  lemma AnnotationRoundTrip(s: NgloySpec)
    ensures Unmarshal(Marshal(s)) == Some(OmitEmpty(s))
    ensures Decodes(Marshal(s))
  {
    SpecCanonical(s);
    PrintParse(WriteSpec(s));
    SpecRoundTrip(s);
  }

  /** Two specs get the same annotation only if they differ in nothing but absent and empty parts. */
  lemma AnnotationFaithful(s: NgloySpec, t: NgloySpec)
    requires Marshal(s) == Marshal(t)
    ensures OmitEmpty(s) == OmitEmpty(t)
  {
    AnnotationRoundTrip(s);
    AnnotationRoundTrip(t);
  }

  /** A missing annotation, which reads as the empty string, does not decode. */
  lemma NoAnnotation()
    ensures !Decodes("")
  {
  }

  // ----- what the gate accepts -----

  predicate TextShape(v: Value) {
    v.Null? || v.Str?
  }

  /** null, or an integer of 32 bits without fraction or exponent. */
  predicate IntShape(v: Value) {
    v.Null? || (v.Number? && IntOf(v.lexeme).Some? && -0x8000_0000 <= IntOf(v.lexeme).value < 0x8000_0000)
  }

  predicate QuantitiesShape(ms: Members) {
    ms.Member? ==> (ms.value.Null? || ms.value.Str? || ms.value.Number?) && QuantitiesShape(ms.more)
  }

  predicate ListShape(v: Value) {
    v.Null? || (v.Object? && QuantitiesShape(v.members))
  }

  predicate ResourcesShape(v: Value) {
    v.Null? || (v.Object? && ListShape(Get(v.members, "limits")) && ListShape(Get(v.members, "requests")))
  }

  predicate PortShape(v: Value) {
    v.Null? ||
    (&& v.Object?
     && TextShape(Get(v.members, "name")) && TextShape(Get(v.members, "protocol"))
     && TextShape(Get(v.members, "appProtocol"))
     && IntShape(Get(v.members, "port")) && IntShape(Get(v.members, "nodePort"))
     && (Get(v.members, "targetPort").Str? || IntShape(Get(v.members, "targetPort"))))
  }

  predicate PortsShape(v: Value) {
    v.Null? || (v.Array? && forall i :: 0 <= i < |v.items| ==> PortShape(v.items[i]))
  }

  predicate SpecShape(v: Value) {
    v.Null? ||
    (&& v.Object?
     && IntShape(Get(v.members, "size")) && TextShape(Get(v.members, "image"))
     && ResourcesShape(Get(v.members, "resources")) && PortsShape(Get(v.members, "ports")))
  }

  lemma {:induction false} QuantitiesExact(ms: Members, l: ResourceList)
    ensures ReadList(ms, l).Some? <==> QuantitiesShape(ms)
  {
    hide Insert;
    if ms.Member? && ReadQuantity(ms.value).Some? {
      QuantitiesExact(ms.more, Insert(l, ms.name, ReadQuantity(ms.value).value));
    }
  }

  lemma ListExact(v: Value)
    ensures ReadOptional(v).Some? <==> ListShape(v)
  {
    if v.Object? {
      QuantitiesExact(v.members, []);
    }
  }

  lemma ResourcesExact(v: Value)
    ensures ReadResources(v).Some? <==> ResourcesShape(v)
  {
    if v.Object? {
      ListExact(Get(v.members, "limits"));
      ListExact(Get(v.members, "requests"));
    }
  }

  lemma PortExact(v: Value)
    ensures ReadPort(v).Some? <==> PortShape(v)
  {
    hide Get, IntOf;
  }

  lemma {:induction false} PortItemsExact(vs: seq<Value>)
    ensures ReadPorts(vs).Some? <==> forall i :: 0 <= i < |vs| ==> PortShape(vs[i])
  {
    hide ReadPort, PortShape;
    if vs != [] {
      PortExact(vs[0]);
      PortItemsExact(vs[1..]);
      assert vs == [vs[0]] + vs[1..];
    }
  }

  lemma PortsExact(v: Value)
    ensures ReadSlice(v).Some? <==> PortsShape(v)
  {
    if v.Array? {
      PortItemsExact(v.items);
    }
  }

  /** The gate, exactly: it accepts the texts that are JSON as a whole, and whose value is null or an object
      in which `size` is null or a 32-bit integer, `image` is null or a string, and so on for every
      field; a field that is absent reads as null, and fields with other names may be anything. */
  lemma GateExact(text: string)
    ensures Decodes(text) <==> Parse(text).Some? && SpecShape(Parse(text).value)
  {
    hide Parse, Get, IntOf, ReadResources, ResourcesShape, ReadSlice, PortsShape;
    if Parse(text).Some? && Parse(text).value.Object? {
      var ms := Parse(text).value.members;
      ResourcesExact(Get(ms, "resources"));
      PortsExact(Get(ms, "ports"));
    }
  }

  /** A text that is not JSON, such as v2, is rejected, and so are a spec followed by something else and
      a spec whose size is a string. */
  lemma GateRejects(s: NgloySpec, rest: string)
    requires Closing(rest) && SkipSpace(rest) != []
    ensures !Decodes("v2") && !Decodes(Marshal(s) + rest)
    ensures !Decodes(Print(Object(Member("size", Str("3"), End))))
  {
    hide Print, SpecShape;
    NotAValue("v2");
    GateExact("v2");
    SpecCanonical(s);
    PrintParseRest(WriteSpec(s), rest);
    var v := Object(Member("size", Str("3"), End));
    assert Canonical(v);
    PrintParse(v);
    GateExact(Print(v));
    assert !SpecShape(v) by { SizeIsText(); }
  }

  lemma SizeIsText()
    ensures !SpecShape(Object(Member("size", Str("3"), End)))
  {
    assert Get(Member("size", Str("3"), End), "size") == Str("3");
  }

  // ----- the tags -----

  lemma {:induction false} HasField(fs: seq<Field>, name: string)
    ensures Has(WriteFields(fs), name) <==> exists i :: 0 <= i < |fs| && fs[i].name == name && !fs[i].omit
  {
    if fs != [] {
      HasField(fs[1..], name);
      if Has(WriteFields(fs[1..]), name) {
        var i :| 0 <= i < |fs[1..]| && fs[1..][i].name == name && !fs[1..][i].omit;
        assert fs[i + 1] == fs[1..][i];
      }
    }
  }

  /** The names under which a port of a Service is written. */
  lemma PortTags(p: ServicePort, name: string)
    ensures Has(WriteFields(PortFields(p)), name) <==>
              || name == "port" || name == "targetPort"
              || (name == "name" && p.name != "") || (name == "protocol" && p.protocol != "")
              || (name == "appProtocol" && p.appProtocol.Some?) || (name == "nodePort" && p.nodePort != 0)
  {
    hide WriteInt, WriteIntOrString, WriteFields;
    var fs := PortFields(p);
    HasField(fs, name);
    assert fs[0].name == "name" && fs[1].name == "protocol" && fs[2].name == "appProtocol";
    assert fs[3].name == "port" && fs[4].name == "targetPort" && fs[5].name == "nodePort";
  }

  predicate Plain(s: string) {
    forall i :: 0 <= i < |s| ==> 'a' <= s[i] <= 'z'
  }

  lemma {:induction false} PlainQuote(s: string)
    requires Plain(s)
    ensures EscapeAll(s) == s
  {
    if s != [] {
      PlainQuote(s[1..]);
      assert Escape(s[0]) == [s[0]];
    }
  }

  /** A member as it stands in the text. */
  function Tagged(name: string, v: Value): string {
    "\"" + name + "\"" + ":" + Print(v)
  }

  lemma MemberText(name: string, v: Value, more: Members)
    requires Plain(name)
    ensures PrintMembers(Member(name, v, more)) == Tagged(name, v) + if more.End? then "" else "," + PrintMembers(more)
  {
    PlainQuote(name);
    assert Quote(name) == "\"" + name + "\"";
  }

  /** The layout of the annotation: the tags of the four fields, in their order, `ports` only if there
      are any, and nothing in between. */
  lemma AnnotationText(s: NgloySpec)
    ensures var fs := SpecFields(s);
            Marshal(s) == "{" + (Tagged("size", fs[0].value) + ("," + (Tagged("image", fs[1].value) + ("," +
              (Tagged("resources", fs[2].value) + if fs[3].omit then "" else "," + (Tagged("ports", fs[3].value) + "")))))) + "}"
  {
    hide Print, PrintMembers, Tagged, WriteResources, WritePorts, WriteInt;
    var fs := SpecFields(s);
    var ports := if fs[3].omit then End else Member("ports", fs[3].value, End);
    var resources := Member("resources", fs[2].value, ports);
    var image := Member("image", fs[1].value, resources);
    var size := Member("size", fs[0].value, image);
    FourFields(fs[0], fs[1], fs[2], fs[3]);
    assert fs == [fs[0], fs[1], fs[2], fs[3]];
    ObjectPrint(size);
    MemberText("size", fs[0].value, image);
    MemberText("image", fs[1].value, resources);
    MemberText("resources", fs[2].value, ports);
    if !fs[3].omit {
      MemberText("ports", fs[3].value, End);
    }
  }

  lemma ObjectPrint(ms: Members)
    requires ms.Member?
    ensures Print(Object(ms)) == "{" + PrintMembers(ms) + "}"
  {
  }

  lemma FourFields(a: Field, b: Field, c: Field, d: Field)
    requires !a.omit && !b.omit && !c.omit
    ensures WriteFields([a, b, c, d])
         == Member(a.name, a.value, Member(b.name, b.value, Member(c.name, c.value,
              if d.omit then End else Member(d.name, d.value, End))))
  {
    assert [a, b, c, d][1..] == [b, c, d] && [b, c, d][1..] == [c, d] && [c, d][1..] == [d] && [d][1..] == [];
    assert WriteFields([d]) == if d.omit then End else Member(d.name, d.value, End);
    assert WriteFields([c, d]) == Member(c.name, c.value, WriteFields([d]));
  }
}
