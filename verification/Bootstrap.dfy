/** The StatefulSet does come up: left alone, any number of pods bootstrap into replicating slaves. */
module Bootstrap {
  import opened Wrappers
  import opened Sidecar
  import opened Cluster
  import opened PodInvariant
  import opened ClusterTheorems
  import opened SidecarTheorems

  lemma {:induction false} RunAppend(c: Cluster, es: seq<Event>, fs: seq<Event>)
    ensures Run(c, es + fs) == Run(Run(c, es), fs)
  {
    hide Next;
    if fs == [] {
      assert es + fs == es;
    } else {
      var k := |fs| - 1;
      assert (es + fs)[..|es + fs| - 1] == es + fs[..k] && (es + fs)[|es + fs| - 1] == fs[k];
      RunAppend(c, es, fs[..k]);
    }
  }

  lemma RunOne(c: Cluster, e: Event)
    ensures Run(c, [e]) == Next(c, e)
  {
    hide Next;
    assert [e][..0] == [];
    assert Run(c, []) == c;
  }

  /** Nothing but the scripts' own commands: no loss, no restart, and no transfer that fails. */
  predicate Undisturbed(es: seq<Event>) {
    forall k :: 0 <= k < |es| ==> es[k].Shell? || (es[k].InitStep? && es[k].got == Complete)
  }

  /** Sidecar commands on pod i run its script and touch nothing else. */
  lemma {:induction false} ShellRun(c: Cluster, i: nat, k: nat) returns (es: seq<Event>)
    requires i < |c.pods| && c.pods[i].phase.Main?
    ensures Run(c, es) == c.(pods := c.pods[i := LeftAlone(c.pods[i], k)]) && Undisturbed(es)
    decreases k
  {
    hide Step, LeftAlone;
    es := [];
    if k == 0 {
      LeftAloneUnfold(c.pods[i], k);
    } else {
      var e := Shell(i, true);
      var c' := Next(c, e);
      var more := ShellRun(c', i, k - 1);
      LeftAloneUnfold(c.pods[i], k);
      RunOne(c, e);
      RunAppend(c, [e], more);
      es := [e] + more;
    }
  }

  lemma LeftAloneUnfold(p: Pod, k: nat)
    requires p.phase.Main?
    ensures LeftAlone(p, k) == if k == 0 then p else LeftAlone(ShellPod(p, true), k - 1)
  {
  }

  /** Everything is up: the first n pods serve backups, and nothing that happened to them is in the way. */
  ghost predicate UpTo(c: Cluster, n: nat) {
    n <= |c.pods| && forall i :: 0 <= i < n ==> c.pods[i].phase == Main(Serve) && Clear(c, i)
  }

  /** Pod i is not spoilt, and not left without START SLAVE. */
  predicate Clear(c: Cluster, i: nat) {
    0 < i < |c.pods| ==> Harmless(c.pods[i].hist) && !c.pods[i].hist.stopped
  }

  ghost predicate AllClear(c: Cluster) {
    forall i :: 0 <= i < |c.pods| ==> Clear(c, i)
  }

  ghost predicate Up(c: Cluster) {
    UpTo(c, |c.pods|)
  }

  /** How many commands the init container of a pod needs at most, next to a pod that serves. */
  function InitLeft(p: Pod): nat
    requires p.phase.Init?
  {
    match p.phase.at
    case CheckDir => if p.node.data == Empty then 3 else 1
    case Fetch => 2
    case Prepare => if p.node.data == Empty then 4 else 1
  }

  /** Pod i is sound, and what it clones from serves. */
  ghost predicate Ready(c: Cluster, i: nat) {
    Inv(c) && i < |c.pods| && UpTo(c, i) && Clear(c, i)
  }

  /** What the invariant says of a pod that is ready. */
  lemma ReadyPod(c: Cluster, i: nat)
    requires Ready(c, i) && i > 0
    ensures Fits(c.pods[i]) && Fate(c.pods[i], true, c.log)
    ensures c.pods[i - 1].node.data.Prepared?
  {
    assert ReplicaInv(c, i) && forall j :: 1 <= j < i ==> Clear(c, j);
    assert ParentsOk(c, i);
    if i > 1 {
      assert ReplicaInv(c, i - 1) && ParentsOk(c, i - 1);
    }
  }

  lemma InitGoesOn(i: nat, p: Pod, source: Pod, own: nat, log: seq<Txn>)
    requires p.phase.Init?
    requires if i == 0 then MasterInv(p, log)
             else && Fits(p) && Fate(p, true, log) && Harmless(p.hist)
                  && source.phase == Main(Serve) && source.node.data.Prepared?
    ensures var q := InitPod(i, p, source, Complete, own);
            q.hist == p.hist && (q.phase.Init? ==> InitLeft(q) < InitLeft(p))
  {
  }

  /** The init container of a pod that is ready comes to its end. */
  lemma {:induction false} InitRun(c: Cluster, i: nat) returns (es: seq<Event>)
    requires Ready(c, i)
    ensures var d := Run(c, es);
            && Undisturbed(es) && |d.pods| == |c.pods| && d == c.(pods := c.pods[i := d.pods[i]])
            && d.pods[i].phase.Main? && Ready(d, i)
    decreases if c.pods[i].phase.Init? then 1 + InitLeft(c.pods[i]) else 0
  {
    hide Inv, Next, InitLeft, InitPod, Fits, Fate, MasterInv;
    es := [];
    if c.pods[i].phase.Init? {
      var e := InitStep(i, Complete, 0);
      var d := Next(c, e);
      InitNext(c, i);
      var more := InitRun(d, i);
      RunOne(c, e);
      RunAppend(c, [e], more);
      es := [e] + more;
    }
  }

  lemma InitNext(c: Cluster, i: nat)
    requires Ready(c, i) && c.pods[i].phase.Init?
    ensures var d := Next(c, InitStep(i, Complete, 0));
            && Ready(d, i) && d == c.(pods := c.pods[i := d.pods[i]])
            && (d.pods[i].phase.Init? ==> InitLeft(d.pods[i]) < InitLeft(c.pods[i]))
  {
    hide InitLeft, InitPod, Fits, Fate, ReplicaInv, MasterInv;
    NextKeeps(c, InitStep(i, Complete, 0));
    if i > 0 {
      ReadyPod(c, i);
    }
    InitGoesOn(i, c.pods[i], Source(c, i), if i == 1 then |c.log| else 0, c.log);
  }

  lemma MasterServes(p: Pod, log: seq<Txn>)
    requires MasterInv(p, log) && p.phase.Main?
    ensures LeftAlone(p, 12).phase == Main(Serve)
  {
    if p.phase.pc == TestInfo {
      LeftAloneUnfold(p, 12);
      LeftAloneUnfold(ShellPod(p, true), 11);
      ServeStays(ShellPod(ShellPod(p, true), true), 10);
    } else if p.phase.pc == TestIn {
      LeftAloneUnfold(p, 12);
      ServeStays(ShellPod(p, true), 11);
    } else {
      ServeStays(p, 12);
    }
  }

  lemma {:induction false} ServeStays(p: Pod, k: nat)
    requires p.phase == Main(Serve)
    ensures LeftAlone(p, k) == p
    decreases k
  {
    if k > 0 {
      ServeStays(ShellPod(p, true), k - 1);
    }
  }

  /** One pod that is ready comes up. */
  lemma PodUp(c: Cluster, i: nat) returns (es: seq<Event>)
    requires Ready(c, i)
    ensures var d := Run(c, es);
            && Undisturbed(es) && |d.pods| == |c.pods| && d == c.(pods := c.pods[i := d.pods[i]])
            && Inv(d) && UpTo(d, i + 1)
  {
    hide LeftAlone, Inv, Fits, Fate, MasterInv;
    var init := InitRun(c, i);
    var m := Run(c, init);
    var shell := ShellRun(m, i, 12);
    RunAppend(c, init, shell);
    RunKeeps(m, shell);
    es := init + shell;
    if i > 0 {
      ReadyPod(m, i);
      RecoversFrom(m.pods[i], m.log);
      LeftAloneKeeps(m.pods[i], 12, m.log);
    } else {
      assert MasterInv(m.pods[0], m.log) by { ReadyMaster(m); }
      MasterServes(m.pods[0], m.log);
    }
  }

  lemma ReadyMaster(c: Cluster)
    requires Inv(c) && c.pods != []
    ensures MasterInv(c.pods[0], c.log)
  {
  }

  lemma {:induction false} AllUp(c: Cluster, n: nat) returns (es: seq<Event>)
    requires Inv(c) && AllClear(c) && n <= |c.pods|
    ensures var d := Run(c, es);
            && Undisturbed(es) && d.log == c.log && |d.pods| == |c.pods| && Inv(d) && AllClear(d) && UpTo(d, n)
    decreases n
  {
    hide Inv, Next;
    es := [];
    if n > 0 {
      es := AllUp(c, n - 1);
      var m := Run(c, es);
      assert Clear(m, n - 1);
      var more := PodUp(m, n - 1);
      RunAppend(c, es, more);
      es := es + more;
      var d := Run(m, more);
      forall i | 0 <= i < |d.pods| ensures Clear(d, i) {
        assert Clear(m, i);
      }
    }
  }

  /** Liveness. From every reachable state in which nothing spoiled a pod and none was left without START
      SLAVE, however many of them are still being cloned or in the middle of a script, the scripts left
      to themselves bring up all of them: each pod serves backups and replicates from the end of its
      own prefix of the log. */
  lemma ComesUpFrom(es: seq<Event>) returns (fs: seq<Event>)
    requires AllClear(Run(BOOT, es))
    ensures var c := Run(BOOT, es); var d := Run(BOOT, es + fs);
            && Undisturbed(fs) && |d.pods| == |c.pods| && d.log == c.log && Up(d)
            && forall i :: 1 <= i < |d.pods| ==> Replicating(d.pods[i], d.log)
  {
    hide Inv, Next;
    assert Inv(BOOT) by { BootInv(); }
    RunKeeps(BOOT, es);
    fs := AllUp(Run(BOOT, es), |Run(BOOT, es).pods|);
    RunAppend(BOOT, es, fs);
    var d := Run(BOOT, es + fs);
    forall i | 1 <= i < |d.pods| ensures Replicating(d.pods[i], d.log) {
      UpIsSound(es + fs, i);
    }
  }

  lemma BootInv()
    ensures Inv(BOOT)
  {
  }

  lemma UpIsSound(es: seq<Event>, i: nat)
    requires var c := Run(BOOT, es); Up(c) && i < |c.pods|
    ensures var c := Run(BOOT, es); Inv(c) && c.pods[i].node.data.Prepared? && (i > 0 ==> Replicating(c.pods[i], c.log))
  {
    var c := Run(BOOT, es);
    RunKeeps(BOOT, es);
    if i > 0 {
      assert forall j :: 1 <= j <= i ==> Clear(c, j);
      ReplicaExact(es, i);
    }
  }

  lemma FirstPod() returns (es: seq<Event>)
    ensures var c := Run(BOOT, es);
            |c.pods| == 1 && Up(c) && c.log == [] && c.pods[0].node.data == Prepared([])
  {
    RunOne(BOOT, Launch);
    var more := ComesUpFrom([Launch]);
    es := [Launch] + more;
    UpIsSound(es, 0);
  }

  /** One more pod is launched next to those that are up. */
  lemma NextPod(es: seq<Event>) returns (fs: seq<Event>)
    requires var c := Run(BOOT, es); c.pods != [] && Up(c)
    ensures var c := Run(BOOT, es); var d := Run(BOOT, fs); |d.pods| == |c.pods| + 1 && Up(d) && d.log == c.log
  {
    RunOne(Run(BOOT, es), Launch);
    RunAppend(BOOT, es, [Launch]);
    var c, l := Run(BOOT, es), Run(BOOT, es + [Launch]);
    forall i | 0 <= i < |l.pods| ensures Clear(l, i) {
      assert i < |c.pods| ==> Clear(c, i);
    }
    var more := ComesUpFrom(es + [Launch]);
    fs := es + [Launch] + more;
  }

  /** Transactions committed on mysql-0 before there is a replica. */
  lemma {:induction false} Committed(ts: seq<Txn>) returns (es: seq<Event>)
    ensures var c := Run(BOOT, es); |c.pods| == 1 && Up(c) && c.log == ts && c.pods[0].node.data == Prepared(ts)
    decreases |ts|
  {
    if ts == [] {
      es := FirstPod();
    } else {
      var k := |ts| - 1;
      var before := Committed(ts[..k]);
      RunOne(Run(BOOT, before), Commit(ts[k]));
      RunAppend(BOOT, before, [Commit(ts[k])]);
      es := before + [Commit(ts[k])];
      assert ts[..k] + [ts[k]] == ts;
    }
  }

  /** For every log and every n there is a run that brings up mysql-0 with that log and n replicas,
      all of them replicating from the end of their own data; so the theorems about serving pods are
      not empty. */
  lemma {:induction false} ComesUp(ts: seq<Txn>, n: nat) returns (es: seq<Event>)
    ensures var c := Run(BOOT, es);
            && |c.pods| == n + 1 && Up(c) && c.log == ts
            && forall i :: 1 <= i <= n ==> Replicating(c.pods[i], c.log)
    decreases n
  {
    if n == 0 {
      es := Committed(ts);
    } else {
      var before := ComesUp(ts, n - 1);
      es := NextPod(before);
    }
    var c := Run(BOOT, es);
    forall i | 1 <= i <= n ensures Replicating(c.pods[i], c.log) {
      UpIsSound(es, i);
    }
  }
}
