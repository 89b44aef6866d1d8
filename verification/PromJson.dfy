/** The annotation of the Prom controller: it writes a PromSpec, and reads the text back as a Prom. */
module PromJson {
  import opened Wrappers
  import opened Kube
  import opened Json
  import opened SpecJson
  import opened PromChildren
  import opened Store
  import opened PromMachine

  // ----- writing -----

  function WriteEnv(e: EnvVar): Value {
    Object(WriteFields([Field("name", Str(e.name), false), Field("value", Str(e.value), e.value == "")]))
  }

  function WriteEnvs(es: seq<EnvVar>): seq<Value> {
    seq(|es|, i requires 0 <= i < |es| => WriteEnv(es[i]))
  }

  function PromFields(s: PromSpec): seq<Field> {
    var envs := if s.envs.Some? then s.envs.value else [];
    [Field("size", if s.size.Some? then WriteInt(s.size.value) else Null, false),
     Field("image", Str(s.image), false),
     Field("resources", WriteResources(s.resources), false),
     Field("envs", Array(WriteEnvs(envs)), envs == []),
     Field("ports", Array(WritePorts(Ports(s))), Ports(s) == [])]
  }

  function MarshalProm(s: PromSpec): string {
    Print(Object(WriteFields(PromFields(s))))
  }

  // ----- reading -----

  function ReadEnv(v: Value): Option<EnvVar> {
    match v
    case Null => Some(EnvVar("", ""))
    case Object(ms) =>
      var name :- ReadText(Get(ms, "name"));
      var value :- ReadText(Get(ms, "value"));
      Some(EnvVar(name, value))
    case _ => None
  }

  function ReadEnvItems(vs: seq<Value>): Option<seq<EnvVar>> {
    if vs == [] then Some([])
    else
      var e :- ReadEnv(vs[0]);
      var more :- ReadEnvItems(vs[1..]);
      Some([e] + more)
  }

  function ReadEnvs(v: Value): Option<Option<seq<EnvVar>>> {
    match v
    case Null => Some(None)
    case Array(vs) =>
      var es :- ReadEnvItems(vs);
      Some(Some(es))
    case _ => None
  }

  const ZERO_SPEC := PromSpec(None, "", Resources(None, None), None, None)

  function ReadPromSpec(v: Value): Option<PromSpec> {
    match v
    case Null => Some(ZERO_SPEC)
    case Object(ms) =>
      var size :- ReadSize(Get(ms, "size"));
      var image :- ReadText(Get(ms, "image"));
      var resources :- ReadResources(Get(ms, "resources"));
      var envs :- ReadEnvs(Get(ms, "envs"));
      var ports :- ReadSlice(Get(ms, "ports"));
      Some(PromSpec(size, image, resources, envs, ports))
    case _ => None
  }

  /** Which values the decoder takes for the metadata and the status of an object. */
  datatype Shapes = Shapes(metadata: Value -> bool, status: Value -> bool)

  /** Like every field, these two are left alone by null and by their absence. */
  predicate Sane(o: Shapes) {
    o.metadata(Null) && o.status(Null)
  }

  /** json.Unmarshal into an empty Prom, of which only the spec is kept here. */
  function UnmarshalProm(o: Shapes, text: string): Option<PromSpec> {
    var v :- Parse(text);
    match v
    case Null => Some(ZERO_SPEC)
    case Object(ms) =>
      var kind :- ReadText(Get(ms, "kind"));
      var apiVersion :- ReadText(Get(ms, "apiVersion"));
      if !o.metadata(Get(ms, "metadata")) || !o.status(Get(ms, "status")) then None
      else ReadPromSpec(Get(ms, "spec"))
    case _ => None
  }

  function JsonCodec(o: Shapes): Codec {
    Codec(MarshalProm, text => UnmarshalProm(o, text).Some?)
  }

  // ----- what the gate makes of the annotation -----

  lemma EnvsCanonical(es: seq<EnvVar>)
    ensures Canonical(Array(WriteEnvs(es)))
  {
    forall i | 0 <= i < |es| ensures Canonical(WriteEnvs(es)[i]) {
      FieldsCanonical([Field("name", Str(es[i].name), false), Field("value", Str(es[i].value), es[i].value == "")]);
    }
  }

  lemma PortsCanonical(ps: seq<ServicePort>)
    ensures Canonical(Array(WritePorts(ps)))
  {
    forall i | 0 <= i < |ps| ensures Canonical(WritePorts(ps)[i]) {
      PortCanonical(ps[i]);
    }
  }

  lemma PromCanonical(s: PromSpec)
    ensures Canonical(Object(WriteFields(PromFields(s))))
  {
    hide WriteEnvs, WritePorts, WriteResources;
    if s.size.Some? {
      IntCanonical(s.size.value);
    }
    ResourcesCanonical(s.resources);
    EnvsCanonical(if s.envs.Some? then s.envs.value else []);
    PortsCanonical(Ports(s));
    FieldsCanonical(PromFields(s));
  }

  /** Empty slices and maps are written like absent ones. */
  function OmitEmptyParts(s: PromSpec): PromSpec {
    s.(resources := Resources(if EmptyList(s.resources.limits) then None else s.resources.limits,
                              if EmptyList(s.resources.requests) then None else s.resources.requests),
       envs := if s.envs == Some([]) then None else s.envs,
       ports := if s.ports == Some([]) then None else s.ports)
  }

  lemma EnvRoundTrip(e: EnvVar)
    ensures ReadEnv(WriteEnv(e)) == Some(e)
  {
    var fs := [Field("name", Str(e.name), false), Field("value", Str(e.value), e.value == "")];
    assert |fs[0].name| == 4 && |fs[1].name| == 5;
    HoldsAll(fs);
    TextField(WriteFields(fs), fs[0], e.name);
    TextField(WriteFields(fs), fs[1], e.value);
  }

  lemma {:induction false} EnvsRoundTrip(es: seq<EnvVar>)
    ensures ReadEnvItems(WriteEnvs(es)) == Some(es)
  {
    hide ReadEnv, WriteEnv;
    if es != [] {
      EnvRoundTrip(es[0]);
      EnvsRoundTrip(es[1..]);
      assert WriteEnvs(es)[1..] == WriteEnvs(es[1..]);
      assert [es[0]] + es[1..] == es;
    }
  }

  lemma SpecFromFields(ms: Members, s: PromSpec)
    requires var fs := PromFields(s); forall i :: 0 <= i < |fs| ==> Holds(ms, fs[i])
    ensures ReadPromSpec(Object(ms)) == Some(OmitEmptyParts(s))
  {
    hide ReadResources, WriteResources, ReadPorts, WritePorts, ReadEnvItems, WriteEnvs;
    var fs := PromFields(s);
    assert Holds(ms, fs[0]) && Holds(ms, fs[1]) && Holds(ms, fs[2]) && Holds(ms, fs[3]) && Holds(ms, fs[4]);
    ResourcesRoundTrip(s.resources);
    EnvsRoundTrip(if s.envs.Some? then s.envs.value else []);
    PortsRoundTrip(Ports(s));
    if s.size.Some? {
      IntRoundTrip(s.size.value);
    }
  }

  /** The text that line 92 writes holds the whole spec, up to absent and empty parts: read as what it is,
      a spec, it gives the spec back. */
  lemma SpecTextRoundTrip(s: PromSpec)
    ensures var v := Parse(MarshalProm(s)); v.Some? && ReadPromSpec(v.value) == Some(OmitEmptyParts(s))
  {
    hide Canonical, Print, Parse, ReadPromSpec, OmitEmptyParts;
    PromCanonical(s);
    PrintParse(Object(WriteFields(PromFields(s))));
    FieldNames(s);
    HoldsAll(PromFields(s));
    SpecFromFields(WriteFields(PromFields(s)), s);
  }

  lemma FieldNames(s: PromSpec)
    ensures Distinct(PromFields(s))
  {
    var lengths := [4, 5, 9, 4, 5];
    var initials := ['s', 'i', 'r', 'e', 'p'];
    var fs := PromFields(s);
    assert forall i :: 0 <= i < 5 ==> |fs[i].name| == lengths[i] && fs[i].name[0] == initials[i];
    assert forall i, j :: 0 <= i < j < 5 ==> lengths[i] != lengths[j] || initials[i] != initials[j];
  }

  /** The names under which a spec is written: the first three always, the slices if they hold anything. */
  lemma PromTags(s: PromSpec, name: string)
    ensures Has(WriteFields(PromFields(s)), name) <==>
              || name == "size" || name == "image" || name == "resources"
              || (name == "envs" && s.envs.Some? && s.envs.value != [])
              || (name == "ports" && s.ports.Some? && s.ports.value != [])
  {
    hide WriteInt, WriteResources, WriteEnvs, WritePorts, WriteFields;
    var fs := PromFields(s);
    HasField(fs, name);
    assert fs[0].name == "size" && fs[1].name == "image" && fs[2].name == "resources";
    assert fs[3].name == "envs" && fs[4].name == "ports";
  }

  /** Two specs get the same annotation only if they differ in nothing but absent and empty parts. */
  lemma PromAnnotationFaithful(s: PromSpec, t: PromSpec)
    requires MarshalProm(s) == MarshalProm(t)
    ensures OmitEmptyParts(s) == OmitEmptyParts(t)
  {
    hide MarshalProm, Parse, ReadPromSpec, OmitEmptyParts;
    SpecTextRoundTrip(s);
    SpecTextRoundTrip(t);
  }

  /** No field of a spec has the name of a field of a resource. */
  lemma OtherNames(s: PromSpec, name: string)
    requires name in {"kind", "apiVersion", "metadata", "spec", "status"}
    ensures Get(WriteFields(PromFields(s)), name) == Null
  {
    hide WriteEnvs, WritePorts, WriteResources, WriteInt;
    var fs := PromFields(s);
    assert |fs[0].name| == 4 && fs[0].name[0] == 's' && fs[0].name[1] == 'i';
    assert |fs[1].name| == 5;
    assert |fs[2].name| == 9;
    assert |fs[3].name| == 4 && fs[3].name[0] == 'e';
    assert |fs[4].name| == 5;
    assert |name| in {4, 10, 8, 6} && (|name| == 4 ==> name[0] == 'k' || (name[0] == 's' && name[1] == 'p'));
    NoField(fs, name);
  }

  /** The gate of line 98 accepts every text that line 92 writes, but only because a decoder ignores what it
      does not know: the text is that of a spec and is read as a whole Prom, none of whose fields it
      has, so what comes out is the empty spec, whatever went in. */
  lemma AnnotationDecodesToNothing(o: Shapes, s: PromSpec)
    requires Sane(o)
    ensures UnmarshalProm(o, MarshalProm(s)) == Some(ZERO_SPEC)
  {
    hide PromFields, Canonical, Print, Parse;
    PromCanonical(s);
    PrintParse(Object(WriteFields(PromFields(s))));
    OtherNames(s, "kind");
    OtherNames(s, "apiVersion");
    OtherNames(s, "metadata");
    OtherNames(s, "spec");
    OtherNames(s, "status");
  }

  /** So the controller converges once it has written the annotation: see ConvergesAfterAnnotation. */
  lemma Converges(o: Shapes, k: Key, s: System, f: Fault, es: seq<Event>)
    requires Sane(o) && Inv(k, s)
    requires s.pc.WriteAnnotation? && !f.Rejected? && s.pc.cr == s.store.crs[k]
    requires var r := Run(JsonCodec(o), k, CallStep(JsonCodec(o), k, s, f), es);
             r.pc.Returned? && k in r.store.crs && !r.store.crs[k].meta.deleting
    ensures var c := JsonCodec(o);
            var r := Run(c, k, CallStep(c, k, s, f), es);
            var t := Quiet(c, k, Next(c, k, r, Pick), 6);
            && k in t.store.crs && t.store.crs[k].spec == r.store.crs[k].spec
            && (Matches(k, t.store) <==> k in r.store.deps && k in r.store.svcs)
  {
    hide MarshalProm, UnmarshalProm, CallStep, Run, Quiet, Matches;
    var c := JsonCodec(o);
    forall spec ensures c.decodes(c.encode(spec)) {
      AnnotationDecodesToNothing(o, spec);
    }
    ConvergesAfterAnnotation(c, k, s, f, es);
  }
}
