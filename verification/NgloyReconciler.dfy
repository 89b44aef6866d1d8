/** Reconcile as the controller runs it: one method that calls the API server up to six times and
    changes the store under way, while users edit resources between the calls and calls fail. It
    refines the machine of NgloyMachine, about which the theorems are proved. */
module NgloyReconciler {
  import opened Wrappers
  import opened Kube
  import opened SpecJson
  import opened NgloyChildren
  import opened Store
  import opened NgloyMachine
  import NgloySafety

  /** What happens around one API call: the edits that users make before it, and its fault. */
  datatype Turn = Turn(edits: seq<(Key, NgloySpec)>, fault: Fault)

  function EditAll(k: Key, s: System, edits: seq<(Key, NgloySpec)>): System {
    if edits == [] then s
    else
      var last := edits[|edits| - 1];
      EditStep(k, EditAll(k, s, edits[..|edits| - 1]), last.0, last.1)
  }

  function TakeTurn(k: Key, s: System, t: Turn): System {
    CallStep(k, EditAll(k, s, t.edits), t.fault)
  }

  /** One run of the machine, call by call, until Reconcile returns. */
  function Play(k: Key, s: System, turns: seq<Turn>): System
    decreases |turns|
  {
    if turns == [] || s.pc.Returned? then s else Play(k, TakeTurn(k, s, turns[0]), turns[1..])
  }

  lemma PlayStep(k: Key, s: System, turns: seq<Turn>, i: nat)
    requires i < |turns| && !s.pc.Returned?
    ensures Play(k, s, turns[i..]) == Play(k, TakeTurn(k, s, turns[i]), turns[i + 1..])
  {
    assert turns[i..][1..] == turns[i + 1..];
  }

  lemma {:induction false} EditsKeepPc(k: Key, s: System, edits: seq<(Key, NgloySpec)>)
    ensures EditAll(k, s, edits).pc == s.pc
  {
    if edits != [] {
      EditsKeepPc(k, s, edits[..|edits| - 1]);
    }
  }

  lemma {:induction false} RunAppend(k: Key, s: System, es: seq<Event>, fs: seq<Event>)
    ensures Run(k, s, es + fs) == Run(k, Run(k, s, es), fs)
  {
    if fs == [] {
      assert es + fs == es;
    } else {
      var n := |fs| - 1;
      assert (es + fs)[..|es + fs| - 1] == es + fs[..n];
      RunAppend(k, s, es, fs[..n]);
    }
  }

  lemma {:induction false} EditsAreRun(k: Key, s: System, edits: seq<(Key, NgloySpec)>) returns (es: seq<Event>)
    ensures Run(k, s, es) == EditAll(k, s, edits)
  {
    es := [];
    if edits != [] {
      var n := |edits| - 1;
      es := EditsAreRun(k, s, edits[..n]);
      RunAppend(k, s, es, [Edit(edits[n].0, edits[n].1)]);
      es := es + [Edit(edits[n].0, edits[n].1)];
    }
  }

  /** A run of Reconcile is a run of the theorems' machine. */
  lemma {:induction false} PlayIsRun(k: Key, s: System, turns: seq<Turn>) returns (es: seq<Event>)
    ensures Run(k, s, es) == Play(k, s, turns)
    decreases |turns|
  {
    es := [];
    if turns != [] && !s.pc.Returned? {
      es := EditsAreRun(k, s, turns[0].edits);
      var edited := EditAll(k, s, turns[0].edits);
      RunAppend(k, s, es, [Call(turns[0].fault)]);
      es := es + [Call(turns[0].fault)];
      var more := PlayIsRun(k, TakeTurn(k, s, turns[0]), turns[1..]);
      assert Run(k, edited, [Call(turns[0].fault)]) == CallStep(k, Run(k, edited, []), turns[0].fault);
      RunAppend(k, s, es, more);
      es := es + more;
    }
  }

  lemma {:induction false} EditsHandsOff(k: Key, s: System, edits: seq<(Key, NgloySpec)>)
    requires NgloySafety.HandsOff(k, s)
    ensures var t := EditAll(k, s, edits);
            && NgloySafety.HandsOff(k, t) && t.pc == s.pc && NgloySafety.Untouched(k, s.store, t.store)
  {
    if edits != [] {
      EditsHandsOff(k, s, edits[..|edits| - 1]);
    }
  }

  lemma TurnHandsOff(k: Key, s: System, turn: Turn)
    requires NgloySafety.HandsOff(k, s)
    ensures var t := TakeTurn(k, s, turn);
            && NgloySafety.HandsOff(k, t) && NgloySafety.Untouched(k, s.store, t.store)
            && (s.pc.ReadCr? && turn.fault.Healthy? ==> t.pc == Returned(k !in s.store.crs))
  {
    hide CallStep;
    EditsHandsOff(k, s, turn.edits);
    NgloySafety.HandsOffCall(k, EditAll(k, s, turn.edits), turn.fault);
  }

  /** A Reconcile for a resource under deletion, or for one that is not there, leaves everything alone. */
  lemma {:induction false} PlayHandsOff(k: Key, s: System, turns: seq<Turn>)
    ensures NgloySafety.HandsOff(k, s) ==>
              && NgloySafety.Untouched(k, s.store, Play(k, s, turns).store)
              && (s.pc.ReadCr? && turns != [] && turns[0].fault.Healthy? ==>
                    Play(k, s, turns).pc == Returned(k !in s.store.crs))
    decreases |turns|
  {
    if NgloySafety.HandsOff(k, s) && turns != [] && !s.pc.Returned? {
      hide TakeTurn, NgloySafety.HandsOff;
      TurnHandsOff(k, s, turns[0]);
      PlayHandsOff(k, TakeTurn(k, s, turns[0]), turns[1..]);
    }
  }

  /** The outcome of a read. */
  datatype Read<+T> = Found(value: T) | NotFound | Failed

  class Controller {
    var store: Store<NgloySpec>
    var queued: bool

    constructor (store: Store<NgloySpec>, queued: bool)
      ensures this.store == store && this.queued == queued
    {
      this.store, this.queued := store, queued;
    }

    ghost predicate At(s: System)
      reads this
    {
      store == s.store && queued == s.queued
    }

    /** The rest of the world edits resources; a change of the watched one wakes the controller. */
    method Interfere(k: Key, edits: seq<(Key, NgloySpec)>, ghost s: System)
      requires At(s)
      modifies this
      ensures At(EditAll(k, s, edits))
    {
      for i := 0 to |edits|
        invariant At(EditAll(k, s, edits[..i]))
      {
        var (key, spec) := edits[i];
        assert edits[..i + 1][..i] == edits[..i];
        queued := queued || (key == k && key in store.crs);
        store := EditCr(store, key, spec);
      }
      assert edits[..|edits|] == edits;
    }

    method GetCr(k: Key, f: Fault) returns (r: Read<Ngloy>)
      ensures r == if f != Healthy then Failed else if k in store.crs then Found(store.crs[k]) else NotFound
    {
      r := if f != Healthy then Failed else if k in store.crs then Found(store.crs[k]) else NotFound;
    }

    method GetDep(k: Key, f: Fault) returns (r: Read<Deployment>)
      ensures r == if f != Healthy then Failed else if k in store.deps then Found(store.deps[k]) else NotFound
    {
      r := if f != Healthy then Failed else if k in store.deps then Found(store.deps[k]) else NotFound;
    }

    method GetSvc(k: Key, f: Fault) returns (r: Read<Service>)
      ensures r == if f != Healthy then Failed else if k in store.svcs then Found(store.svcs[k]) else NotFound
    {
      r := if f != Healthy then Failed else if k in store.svcs then Found(store.svcs[k]) else NotFound;
    }

    /** Lines 78-108: neither is read again; the first error ends the run. */
    method CreateBranch(k: Key, nginx: Ngloy, turns: seq<Turn>, ghost s: System) returns (failed: bool)
      requires |turns| >= 5 && At(s) && s.pc == CreateDeploy(nginx)
      modifies this
      ensures var t := Play(k, s, turns[2..]); t.pc == Returned(failed) && store == t.store && (queued || failed) == t.queued
    {
      hide Decodes, Marshal, DeploymentFor, ServiceFor, NewDeploy, NewService, EditAll, Create, Update, CreateDep, CreateSvc, UpdateDep, UpdateSvc, UpdateCr;
      ghost var s0 := s;
      Interfere(k, turns[2].edits, s0);
      EditsKeepPc(k, s0, turns[2].edits);
      PlayStep(k, s0, turns, 2);
      s0 := TakeTurn(k, s0, turns[2]);
      var ok;
      var outcome := CreateDep(store, NewDeploy(nginx), turns[2].fault);
      store, ok := outcome.0, outcome.1;
      if !ok { return true; }
      Interfere(k, turns[3].edits, s0);
      EditsKeepPc(k, s0, turns[3].edits);
      PlayStep(k, s0, turns, 3);
      s0 := TakeTurn(k, s0, turns[3]);
      outcome := CreateSvc(store, NewService(nginx), turns[3].fault);
      store, ok := outcome.0, outcome.1;
      if !ok { return true; }
      failed := AnnotateBranch(k, nginx, turns, s0);
    }

    /** Lines 93-108: record the spec in the annotation. */
    method AnnotateBranch(k: Key, nginx: Ngloy, turns: seq<Turn>, ghost s: System) returns (failed: bool)
      requires |turns| >= 5 && At(s) && s.pc == WriteAnnotation(nginx)
      modifies this
      ensures var t := Play(k, s, turns[4..]); t.pc == Returned(failed) && store == t.store && (queued || failed) == t.queued
    {
      hide Decodes, Marshal, EditAll, Create, Update, UpdateCr;
      Interfere(k, turns[4].edits, s);
      EditsKeepPc(k, s, turns[4].edits);
      PlayStep(k, s, turns, 4);
      var annotated := Annotated(nginx);
      queued := queued || (nginx.meta.key == k && Applied(Update(store.crs, annotated, store.revision), turns[4].fault));
      var outcome := UpdateCr(store, annotated, turns[4].fault);
      var ok;
      store, ok := outcome.0, outcome.1;
      return !ok;
    }

    /** Lines 131-152: read and overwrite one child, then the other. */
    method UpdateBranch(k: Key, nginx: Ngloy, turns: seq<Turn>, ghost s: System) returns (failed: bool)
      requires |turns| >= 6 && At(s) && s.pc == ReadDepAgain(nginx)
      modifies this
      ensures var t := Play(k, s, turns[2..]); t.pc == Returned(failed) && store == t.store && (queued || failed) == t.queued
    {
      hide Decodes, Marshal, DeploymentFor, ServiceFor, NewDeploy, NewService, EditAll, Create, Update, CreateDep, CreateSvc, UpdateDep, UpdateSvc, UpdateCr;
      ghost var s0 := s;
      Interfere(k, turns[2].edits, s0);
      EditsKeepPc(k, s0, turns[2].edits);
      PlayStep(k, s0, turns, 2);
      s0 := TakeTurn(k, s0, turns[2]);
      var newDep := NewDeploy(nginx);
      var oldDep := GetDep(k, turns[2].fault);
      if !oldDep.Found? { return true; }
      var dep := oldDep.value.(spec := newDep.spec);
      Interfere(k, turns[3].edits, s0);
      EditsKeepPc(k, s0, turns[3].edits);
      PlayStep(k, s0, turns, 3);
      s0 := TakeTurn(k, s0, turns[3]);
      var ok;
      var outcome := UpdateDep(store, dep, turns[3].fault);
      store, ok := outcome.0, outcome.1;
      if !ok { return true; }
      failed := UpdateServiceBranch(k, nginx, turns, s0);
    }

    method UpdateServiceBranch(k: Key, nginx: Ngloy, turns: seq<Turn>, ghost s: System) returns (failed: bool)
      requires |turns| >= 6 && At(s) && s.pc == ReadSvc(nginx)
      modifies this
      ensures var t := Play(k, s, turns[4..]); t.pc == Returned(failed) && store == t.store && (queued || failed) == t.queued
    {
      hide Decodes, Marshal, DeploymentFor, ServiceFor, NewDeploy, NewService, EditAll, Create, Update, CreateDep, CreateSvc, UpdateDep, UpdateSvc, UpdateCr;
      ghost var s0 := s;
      Interfere(k, turns[4].edits, s0);
      EditsKeepPc(k, s0, turns[4].edits);
      PlayStep(k, s0, turns, 4);
      s0 := TakeTurn(k, s0, turns[4]);
      var newSvc := NewService(nginx);
      var oldSvc := GetSvc(k, turns[4].fault);
      if !oldSvc.Found? { return true; }
      var svc := oldSvc.value.(spec := newSvc.spec);
      Interfere(k, turns[5].edits, s0);
      EditsKeepPc(k, s0, turns[5].edits);
      PlayStep(k, s0, turns, 5);
      var ok;
      var outcome := UpdateSvc(store, svc, turns[5].fault);
      store, ok := outcome.0, outcome.1;
      return !ok;
    }

    /** Lines 76-154: from the read of the Deployment on. */
    method ReconcileRead(k: Key, nginx: Ngloy, turns: seq<Turn>, ghost s: System) returns (failed: bool)
      requires |turns| >= 6 && At(s) && s.pc == ReadDep(nginx)
      modifies this
      ensures var t := Play(k, s, turns[1..]); t.pc == Returned(failed) && store == t.store && (queued || failed) == t.queued
    {
      hide Decodes, Marshal, EditAll;
      Interfere(k, turns[1].edits, s);
      EditsKeepPc(k, s, turns[1].edits);
      PlayStep(k, s, turns, 1);
      ghost var s1 := TakeTurn(k, s, turns[1]);
      var deploy := GetDep(k, turns[1].fault);
      if deploy.NotFound? {
        failed := CreateBranch(k, nginx, turns, s1);
        return;
      }
      if !Decodes(Annotation(nginx.meta, "spec")) { return true; }
      failed := UpdateBranch(k, nginx, turns, s1);
    }

    /** Reconcile: any interleaving and any faults lead to what the machine computes. */
    method Reconcile(k: Key, turns: seq<Turn>, ghost h: History) returns (failed: bool)
      requires |turns| >= 6
      modifies this
      ensures var t := Play(k, System(old(store), ReadCr, old(queued), h), turns);
              t.pc == Returned(failed) && store == t.store && (queued || failed) == t.queued
      ensures (k in old(store).crs ==> old(store).crs[k].meta.deleting) ==>
                && NgloySafety.Untouched(k, old(store), store)
                && (turns[0].fault.Healthy? ==> (failed <==> k !in old(store).crs))
    {
      ghost var s := System(store, ReadCr, queued, h);
      assert (k in store.crs ==> store.crs[k].meta.deleting) ==> NgloySafety.HandsOff(k, s);
      PlayHandsOff(k, s, turns);
      hide Decodes, Marshal, EditAll, NewDeploy, NewService, CreateDep, CreateSvc, UpdateDep, UpdateSvc, UpdateCr, Create, Update,
        NgloySafety.Untouched, NgloySafety.HandsOff;
      assert turns[0..] == turns;
      var nginx := ZERO;
      Interfere(k, turns[0].edits, s);
      EditsKeepPc(k, s, turns[0].edits);
      PlayStep(k, s, turns, 0);
      s := TakeTurn(k, s, turns[0]);
      var got := GetCr(k, turns[0].fault);
      if got.NotFound? { return true; }
      if got.Found? {
        nginx := got.value;
      }
      if nginx.meta.deleting { return false; }
      failed := ReconcileRead(k, nginx, turns, s);
    }
  }
}
