/** The API server: one table per kind, optimistic concurrency by resourceVersion, and calls that may
    fail, even after they took effect. */
module Store {
  import opened Wrappers
  import opened Kube

  type Table<S> = map<Key, Resource<S>>

  /** The two operators watch different kinds, so the kind of the custom resources is a parameter. */
  datatype Store<S> = Store(
    crs: Table<S>,
    deps: Table<DeploymentSpec>,
    svcs: Table<ServiceSpec>,
    revision: nat)

  /** What befalls one call: nothing, an error before it takes effect, or an error after it did. */
  datatype Fault = Healthy | Rejected | Unacknowledged

  /** None if the object exists already or has no name. */
  function Create<S>(t: Table<S>, o: Resource<S>, revision: nat): Option<Table<S>> {
    if o.meta.key.name == "" || o.meta.key in t then None
    else Some(t[o.meta.key := o.(meta := o.meta.(version := revision + 1))])
  }

  /** None if the object does not exist, or has changed since the version that the caller read. A
      caller that gives no version replaces whatever is there. */
  function Update<S>(t: Table<S>, o: Resource<S>, revision: nat): Option<Table<S>> {
    if o.meta.key !in t || (o.meta.version != 0 && o.meta.version != t[o.meta.key].meta.version) then None
    else Some(t[o.meta.key := o.(meta := o.meta.(version := revision + 1))])
  }

  /** What the server holds after a write, and whether the caller is told that it succeeded. */
  function Outcome<S>(t: Table<S>, written: Option<Table<S>>, f: Fault): (Table<S>, bool) {
    if f.Rejected? || written.None? then (t, false) else (written.value, f.Healthy?)
  }

  function CreateDep<S>(s: Store<S>, o: Deployment, f: Fault): (Store<S>, bool) {
    var (t, ok) := Outcome(s.deps, Create(s.deps, o, s.revision), f);
    (s.(deps := t, revision := s.revision + 1), ok)
  }

  function UpdateDep<S>(s: Store<S>, o: Deployment, f: Fault): (Store<S>, bool) {
    var (t, ok) := Outcome(s.deps, Update(s.deps, o, s.revision), f);
    (s.(deps := t, revision := s.revision + 1), ok)
  }

  function CreateSvc<S>(s: Store<S>, o: Service, f: Fault): (Store<S>, bool) {
    var (t, ok) := Outcome(s.svcs, Create(s.svcs, o, s.revision), f);
    (s.(svcs := t, revision := s.revision + 1), ok)
  }

  function UpdateSvc<S>(s: Store<S>, o: Service, f: Fault): (Store<S>, bool) {
    var (t, ok) := Outcome(s.svcs, Update(s.svcs, o, s.revision), f);
    (s.(svcs := t, revision := s.revision + 1), ok)
  }

  function UpdateCr<S>(s: Store<S>, o: Resource<S>, f: Fault): (Store<S>, bool) {
    var (t, ok) := Outcome(s.crs, Update(s.crs, o, s.revision), f);
    (s.(crs := t, revision := s.revision + 1), ok)
  }

  /** A user edits the spec of a custom resource. */
  function EditCr<S>(s: Store<S>, key: Key, spec: S): Store<S> {
    if key !in s.crs then s
    else
      var o := s.crs[key];
      s.(crs := s.crs[key := Resource(o.meta.(version := s.revision + 1, generation := o.meta.generation + 1), spec)],
         revision := s.revision + 1)
  }

  /** Somebody else applies an object: creates it, or overwrites what is there. */
  function Apply<S>(t: Table<S>, o: Resource<S>, revision: nat): Table<S> {
    t[o.meta.key := o.(meta := o.meta.(version := revision + 1))]
  }

  predicate Stored<S>(t: Table<S>, k: Key, revision: nat) {
    k in t ==> t[k].meta.key == k && 0 < t[k].meta.version <= revision
  }

  /** What is stored under `k` carries that key, and a version that was already given out. */
  predicate Consistent<S>(s: Store<S>, k: Key) {
    Stored(s.crs, k, s.revision) && Stored(s.deps, k, s.revision) && Stored(s.svcs, k, s.revision)
  }
}
