/** PromReconciler.Reconcile as it runs against the API server, while others act between its calls: a
    refinement of PromMachine. */
module PromReconciler {
  import opened Wrappers
  import opened Kube
  import opened PromChildren
  import opened Store
  import opened PromMachine

  /** What happens around one API call: the deeds of others before it, and its fault. */
  datatype Turn = Turn(deeds: seq<Deed>, fault: Fault)

  function TakeTurn(c: Codec, k: Key, s: System, t: Turn): System {
    CallStep(c, k, s.(store := DoAll(s.store, t.deeds)), t.fault)
  }

  /** One run of the machine, call by call, until Reconcile returns. */
  function Play(c: Codec, k: Key, s: System, turns: seq<Turn>): System
    decreases |turns|
  {
    if turns == [] || s.pc.Returned? then s else Play(c, k, TakeTurn(c, k, s, turns[0]), turns[1..])
  }

  lemma PlayStep(c: Codec, k: Key, s: System, turns: seq<Turn>, i: nat)
    requires i < |turns| && !s.pc.Returned?
    ensures Play(c, k, s, turns[i..]) == Play(c, k, TakeTurn(c, k, s, turns[i]), turns[i + 1..])
  {
    assert turns[i..][1..] == turns[i + 1..];
  }

  lemma {:induction false} RunAppend(c: Codec, k: Key, s: System, es: seq<Event>, fs: seq<Event>)
    ensures Run(c, k, s, es + fs) == Run(c, k, Run(c, k, s, es), fs)
  {
    hide Next;
    if fs == [] {
      assert es + fs == es;
    } else {
      var n := |fs| - 1;
      assert (es + fs)[..|es + fs| - 1] == es + fs[..n];
      RunAppend(c, k, s, es, fs[..n]);
    }
  }

  function Outsides(ds: seq<Deed>): (es: seq<Event>) {
    seq(|ds|, i requires 0 <= i < |ds| => Outside(ds[i]))
  }

  lemma {:induction false} DeedsAreRun(c: Codec, k: Key, s: System, ds: seq<Deed>)
    ensures Run(c, k, s, Outsides(ds)) == s.(store := DoAll(s.store, ds))
  {
    hide Do, CallStep;
    if ds != [] {
      var n := |ds| - 1;
      assert Outsides(ds)[..n] == Outsides(ds[..n]);
      DeedsAreRun(c, k, s, ds[..n]);
    }
  }

  /** A run of Reconcile is a run of the theorems' machine. */
  lemma {:induction false} PlayIsRun(c: Codec, k: Key, s: System, turns: seq<Turn>) returns (es: seq<Event>)
    ensures Run(c, k, s, es) == Play(c, k, s, turns)
    decreases |turns|
  {
    hide CallStep, DoAll;
    es := [];
    if turns != [] && !s.pc.Returned? {
      var call := [Call(turns[0].fault)];
      es := Outsides(turns[0].deeds);
      DeedsAreRun(c, k, s, turns[0].deeds);
      var r := Run(c, k, s, es);
      RunAppend(c, k, s, es, call);
      es := es + call;
      assert Run(c, k, r, call) == Next(c, k, Run(c, k, r, []), call[0]);
      var more := PlayIsRun(c, k, TakeTurn(c, k, s, turns[0]), turns[1..]);
      RunAppend(c, k, s, es, more);
      es := es + more;
    }
  }

  // ----- when line 92 is reached -----

  /** The store before call i of a run that has written nothing yet. */
  function Before(st: Store<PromSpec>, turns: seq<Turn>, i: nat): Store<PromSpec>
    requires i < |turns|
  {
    DoAll(if i == 0 then st else Before(st, turns, i - 1), turns[i].deeds)
  }

  /** Reconcile goes as far as line 92: told from the faults of its calls and what others did. */
  predicate Annotates(k: Key, st: Store<PromSpec>, turns: seq<Turn>)
    requires |turns| >= 6
  {
    var st0 := Before(st, turns, 0);
    && Found(st0.crs, k, turns[0].fault) && !st0.crs[k].meta.deleting
    && !Found(Before(st, turns, 1).deps, k, turns[1].fault)
    && Found(Before(st, turns, 2).deps, k, turns[2].fault)
    && Found(Before(st, turns, 3).svcs, k, turns[3].fault)
  }

  /** A run of Reconcile in which the first read succeeds and the reads of lines 72, 75 and 80 find
      nothing, a Deployment and a Service is at line 92 after four calls, with the resource of line 59;
      no other run ever gets there. */
  lemma Line92Exact(c: Codec, k: Key, s: System, turns: seq<Turn>)
    requires |turns| >= 6 && s.pc == ReadCr && s.seen == NOTHING_READ
    ensures Play(c, k, s, turns[..4]).pc.WriteAnnotation? <==> Annotates(k, s.store, turns)
    ensures Annotates(k, s.store, turns) ==>
              && Play(c, k, s, turns[..4]).pc.cr == Before(s.store, turns, 0).crs[k]
              && Play(c, k, s, turns[..4]).store == Before(s.store, turns, 3)
  {
    hide NewDeploy, NewService, DoAll, Annotated, Observe, Note, UpdateCr, UpdateDep, UpdateSvc;
    var t := turns[..4];
    assert t[0..] == t && t[4..] == [];
    PlayStep(c, k, s, t, 0);
    var s1 := TakeTurn(c, k, s, t[0]);
    if !s1.pc.Returned? {
      PlayStep(c, k, s1, t, 1);
      var s2 := TakeTurn(c, k, s1, t[1]);
      if s2.pc.CheckDeploy? {
        PlayStep(c, k, s2, t, 2);
        var s3 := TakeTurn(c, k, s2, t[2]);
        if !s3.pc.Returned? {
          PlayStep(c, k, s3, t, 3);
        }
      } else if s2.pc.ReadDepAgain? {
        PlayStep(c, k, s2, t, 2);
        var s3 := TakeTurn(c, k, s2, t[2]);
        if !s3.pc.Returned? {
          PlayStep(c, k, s3, t, 3);
        }
      }
    }
  }

  // ----- in imperative form -----

  class Controller {
    var store: Store<PromSpec>
    const codec: Codec

    constructor (store: Store<PromSpec>, codec: Codec)
      ensures this.store == store && this.codec == codec
    {
      this.store, this.codec := store, codec;
    }

    method Get<S>(t: Table<S>, k: Key, f: Fault) returns (o: Option<Resource<S>>)
      ensures o == if Found(t, k, f) then Some(t[k]) else None
    {
      o := if f == Healthy && k in t then Some(t[k]) else None;
    }

    /** The rest of the world acts between two calls. */
    method Interfere(deeds: seq<Deed>)
      modifies this
      ensures store == DoAll(old(store), deeds)
    {
      for i := 0 to |deeds|
        invariant store == DoAll(old(store), deeds[..i])
      {
        assert deeds[..i + 1][..i] == deeds[..i];
        store := Do(store, deeds[i]);
      }
      assert deeds[..|deeds|] == deeds;
    }

    /** Lines 74-95: despite its comments it creates nothing; it reads both children and annotates. */
    method MissingBranch(k: Key, instance: Prom, turns: seq<Turn>, ghost s: System) returns (failed: bool)
      requires |turns| >= 5 && store == s.store && s.pc == CheckDeploy(instance)
      modifies this
      ensures var t := Play(codec, k, s, turns[2..]); t.store == store && t.pc == Returned(failed)
    {
      hide NewDeploy, NewService, Update, UpdateCr, DoAll, Observe, Note;
      ghost var s0 := s;
      Interfere(turns[2].deeds);
      PlayStep(codec, k, s0, turns, 2);
      s0 := TakeTurn(codec, k, s0, turns[2]);
      var deploy := Get(store.deps, k, turns[2].fault);
      if deploy.None? { return true; }
      Interfere(turns[3].deeds);
      PlayStep(codec, k, s0, turns, 3);
      s0 := TakeTurn(codec, k, s0, turns[3]);
      var service := Get(store.svcs, k, turns[3].fault);
      if service.None? { return true; }
      Interfere(turns[4].deeds);
      PlayStep(codec, k, s0, turns, 4);
      var outcome := UpdateCr(store, Annotated(codec, instance), turns[4].fault);
      store := outcome.0;
      return !outcome.1;
    }

    /** Lines 101-111: the Deployment keeps its metadata. */
    method UpdateBranch(k: Key, instance: Prom, turns: seq<Turn>, ghost s: System) returns (failed: bool)
      requires |turns| >= 6 && store == s.store && s.pc == ReadDepAgain(instance)
      modifies this
      ensures var t := Play(codec, k, s, turns[2..]); t.store == store && t.pc == Returned(failed)
    {
      hide NewDeploy, NewService, Update, UpdateDep, UpdateSvc, DoAll, Observe, Note;
      ghost var s0 := s;
      Interfere(turns[2].deeds);
      PlayStep(codec, k, s0, turns, 2);
      s0 := TakeTurn(codec, k, s0, turns[2]);
      var newDeploy := NewDeploy(instance);
      var oldDeploy := Get(store.deps, k, turns[2].fault);
      if oldDeploy.None? { return true; }
      Interfere(turns[3].deeds);
      PlayStep(codec, k, s0, turns, 3);
      s0 := TakeTurn(codec, k, s0, turns[3]);
      var ok;
      var outcome := UpdateDep(store, oldDeploy.value.(spec := newDeploy.spec), turns[3].fault);
      store, ok := outcome.0, outcome.1;
      if !ok { return true; }
      failed := UpdateServiceBranch(k, instance, turns, s0);
    }

    /** Lines 112-121: the Service is replaced. */
    method UpdateServiceBranch(k: Key, instance: Prom, turns: seq<Turn>, ghost s: System) returns (failed: bool)
      requires |turns| >= 6 && store == s.store && s.pc == ReadSvc(instance)
      modifies this
      ensures var t := Play(codec, k, s, turns[4..]); t.store == store && t.pc == Returned(failed)
    {
      hide NewDeploy, NewService, Update, UpdateDep, UpdateSvc, DoAll, Observe, Note;
      ghost var s0 := s;
      Interfere(turns[4].deeds);
      PlayStep(codec, k, s0, turns, 4);
      s0 := TakeTurn(codec, k, s0, turns[4]);
      var newService := NewService(instance);
      var oldService := Get(store.svcs, k, turns[4].fault);
      if oldService.None? { return true; }
      Interfere(turns[5].deeds);
      PlayStep(codec, k, s0, turns, 5);
      var ok;
      var outcome := UpdateSvc(store, newService, turns[5].fault);
      store, ok := outcome.0, outcome.1;
      return !ok;
    }

    /** Reconcile: any faults and any interleaving with others lead to what the machine computes. */
    method Reconcile(k: Key, turns: seq<Turn>) returns (failed: bool)
      requires |turns| >= 6
      modifies this
      ensures var t := Play(codec, k, System(old(store), ReadCr, NOTHING_READ, NOTHING_WRITTEN), turns);
              t.store == store && t.pc == Returned(failed)
    {
      hide NewDeploy, NewService, DoAll, Observe, Note, UpdateCr, UpdateDep, UpdateSvc;
      ghost var s := System(store, ReadCr, NOTHING_READ, NOTHING_WRITTEN);
      assert turns[0..] == turns;
      Interfere(turns[0].deeds);
      PlayStep(codec, k, s, turns, 0);
      s := TakeTurn(codec, k, s, turns[0]);
      if turns[0].fault != Healthy { return true; }
      var instance := Get(store.crs, k, turns[0].fault);
      if instance.None? || instance.value.meta.deleting { return false; }
      Interfere(turns[1].deeds);
      PlayStep(codec, k, s, turns, 1);
      s := TakeTurn(codec, k, s, turns[1]);
      var deploy := Get(store.deps, k, turns[1].fault);
      if deploy.None? {
        failed := MissingBranch(k, instance.value, turns, s);
        return;
      }
      if !codec.decodes(Annotation(instance.value.meta, "spec")) { return true; }
      failed := UpdateBranch(k, instance.value, turns, s);
    }
  }
}
