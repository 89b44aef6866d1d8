/** Safety of the bootstrap over all runs: any number of pods and transactions, and containers and
    pods lost at any command. */
module ClusterTheorems {
  import opened Wrappers
  import opened Sidecar
  import opened Cluster
  import opened PodInvariant
  import opened SidecarTheorems

  /** Nothing spoiled the pods that pod i descends from. */
  ghost predicate ParentsOk(c: Cluster, i: nat) {
    forall j :: 1 <= j < i && j < |c.pods| ==> Harmless(c.pods[j].hist)
  }

  /** mysql-0 never runs a clone: its volume holds the log and no file of the scripts. */
  predicate MasterInv(p: Pod, log: seq<Txn>) {
    && p.node == BLANK.(data := p.node.data)
    && p.hist.attempts == 0
    && p.phase in {Init(CheckDir), Main(TestInfo), Main(TestIn), Main(Serve)}
    && if p.node.data.Empty? then p.phase == Init(CheckDir) && log == [] else p.node.data == Prepared(log)
  }

  predicate Spoilt(p: Pod) {
    p.node.data.Torn? || (p.node.data.Unprepared? && p.hist.interrupted)
  }

  ghost predicate ReplicaInv(c: Cluster, i: nat)
    requires 0 < i < |c.pods|
  {
    var p := c.pods[i];
    && Fits(p)
    && Fate(p, ParentsOk(c, i), c.log)
    && (p.node.data != Empty ==>
          && (forall j :: 0 <= j < i ==> Done(c.pods[j]))
          && (Spoilt(p) <==> p.hist.interrupted || c.pods[i - 1].node.data.Torn?))
  }

  ghost predicate Inv(c: Cluster) {
    && (c.pods == [] ==> c.log == [])
    && (c.pods != [] ==> MasterInv(c.pods[0], c.log))
    && (forall i :: 0 < i < |c.pods| ==> ReplicaInv(c, i))
  }

  lemma PodKeeps(e: Event, i: nat, p: Pod, source: Pod, sourceOk: bool, log: seq<Txn>)
    requires i > 0 && Fits(p)
    requires source.phase == Main(Serve) ==> Serves(source, i - 1, sourceOk, log)
    requires Fate(p, i == 1 || (sourceOk && Harmless(source.hist)), log)
    ensures var q := PodNext(e, i, p, source, log);
            Fits(q) && Fate(q, i == 1 || (sourceOk && Harmless(source.hist)), log)
  {
    var ok := i == 1 || (sourceOk && Harmless(source.hist));
    match e
    case InitStep(_, got, own) =>
      if p.phase.Init? {
        InitKeeps(i, p, source, got, if i == 1 then |log| else own, sourceOk, log);
      }
    case KillInit(_) =>
      if p.phase.Init? {
        LoseInitKeeps(p, ok, log);
      }
    case Shell(_, ready) =>
      if p.phase.Main? {
        ShellFits(p, ready);
        ShellFate(p, ready, ok, log);
      }
    case KillSidecar(_) =>
      if p.phase.Main? {
        LoseFits(p);
        LoseFate(p, ok, log);
      }
    case RestartPod(_) =>
      ReplaceFits(p);
      ReplaceFate(p, ok, log);
    case RestartMysqld(_) =>
      if p.phase.Main? {
        RestartMysqldKeeps(p, ok, log);
      }
    case Replicate(_) =>
      if CanReplicate(p, log) {
        ReplicateKeeps(p, ok, log);
      }
    case _ =>
  }

  lemma ParentsOkStep(c: Cluster, i: nat)
    requires 0 < i < |c.pods|
    ensures ParentsOk(c, i) <==> i == 1 || (ParentsOk(c, i - 1) && Harmless(c.pods[i - 1].hist))
  {
  }

  lemma ParentsOkFrame(c: Cluster, c': Cluster, i: nat)
    requires 0 < i < |c.pods| && i < |c'.pods|
    requires forall j :: 1 <= j < i ==> Harmless(c'.pods[j].hist) == Harmless(c.pods[j].hist)
    ensures ParentsOk(c', i) <==> ParentsOk(c, i)
  {
    if !ParentsOk(c', i) {
      var j :| 1 <= j < i && !Harmless(c'.pods[j].hist);
      assert !Harmless(c.pods[j].hist);
    }
    if !ParentsOk(c, i) {
      var j :| 1 <= j < i && !Harmless(c.pods[j].hist);
      assert !Harmless(c'.pods[j].hist);
    }
  }

  /** What an event on pod i does to that pod. */
  lemma TouchedKeeps(c: Cluster, e: Event, i: nat)
    requires Inv(c) && 0 < i < |c.pods|
    requires !e.Commit? && !e.Launch?
    ensures var q := PodNext(e, i, c.pods[i], Source(c, i), c.log);
            Fits(q) && Fate(q, ParentsOk(c, i), c.log)
  {
    assert ReplicaInv(c, i);
    if i > 1 {
      assert ReplicaInv(c, i - 1);
    }
    ParentsOkStep(c, i);
    PodKeeps(e, i, c.pods[i], Source(c, i), i == 1 || ParentsOk(c, i - 1), c.log);
  }

  /** Data first appears on a pod when it is cloned from one that serves, and is spoilt at once if
      that one's is. */
  lemma PodOrigin(e: Event, i: nat, p: Pod, source: Pod, log: seq<Txn>)
    requires i > 0 && Fits(p)
    requires source.phase == Main(Serve) ==> source.node.data.Prepared? || source.node.data.Torn?
    requires p.node.data != Empty ==> (Spoilt(p) <==> p.hist.interrupted || source.node.data.Torn?)
    ensures var q := PodNext(e, i, p, source, log);
            && (q.node.data != Empty ==> (Spoilt(q) <==> q.hist.interrupted || source.node.data.Torn?))
            && (q.node.data != Empty && p.node.data == Empty ==> source.phase == Main(Serve))
  {
  }

  /** A pod that serves backups is finished, and so are all it descends from. */
  lemma ServesIsDone(c: Cluster, i: nat)
    requires Inv(c) && i < |c.pods| && c.pods[i].phase == Main(Serve)
    ensures forall j :: 0 <= j <= i ==> Done(c.pods[j])
  {
    if i > 0 {
      assert ReplicaInv(c, i);
    }
  }

  lemma TouchedOrigin(c: Cluster, e: Event, i: nat)
    requires Inv(c) && 0 < i < |c.pods|
    ensures var q := PodNext(e, i, c.pods[i], Source(c, i), c.log);
            q.node.data != Empty ==>
              && (forall j :: 0 <= j < i ==> Done(c.pods[j]))
              && (Spoilt(q) <==> q.hist.interrupted || c.pods[i - 1].node.data.Torn?)
  {
    hide PodNext, Done;
    assert ReplicaInv(c, i);
    if c.pods[i - 1].phase == Main(Serve) {
      ServesIsDone(c, i - 1);
      DoneData(c.pods[i - 1]);
    }
    PodOrigin(e, i, c.pods[i], c.pods[i - 1], c.log);
  }

  lemma DoneData(p: Pod)
    requires Done(p)
    ensures p.node.data.Prepared? || p.node.data.Torn?
  {
  }

  /** A pod replaced by `q` leaves the invariant of every other replica alone: those cloned from it
      were cloned when it was finished. */
  lemma OthersKeep(c: Cluster, i: nat, q: Pod, k: nat)
    requires Inv(c) && i < |c.pods| && 0 < k < |c.pods| && k != i
    requires Done(c.pods[i]) ==>
               Done(q) && Harmless(q.hist) == Harmless(c.pods[i].hist) && q.node.data.Torn? == c.pods[i].node.data.Torn?
    ensures ReplicaInv(c.(pods := c.pods[i := q]), k)
  {
    var c' := c.(pods := c.pods[i := q]);
    assert ReplicaInv(c, k);
    if k < i || c.pods[k].node.data != Empty {
      if k > i {
        assert Done(c.pods[i]);
      }
      ParentsOkFrame(c, c', k);
    }
    EmptyHasAnyFate(c.pods[k], ParentsOk(c, k), ParentsOk(c', k), c.log);
  }

  lemma TouchedInv(c: Cluster, e: Event, i: nat)
    requires Inv(c) && 0 < i < |c.pods| && !e.Commit? && !e.Launch?
    ensures ReplicaInv(c.(pods := c.pods[i := PodNext(e, i, c.pods[i], Source(c, i), c.log)]), i)
  {
    var q := PodNext(e, i, c.pods[i], Source(c, i), c.log);
    var c' := c.(pods := c.pods[i := q]);
    TouchedKeeps(c, e, i);
    TouchedOrigin(c, e, i);
    ParentsOkFrame(c, c', i);
  }

  lemma MasterKeeps(e: Event, p: Pod, log: seq<Txn>)
    requires MasterInv(p, log)
    ensures MasterInv(PodNext(e, 0, p, p, log), log)
  {
  }

  lemma PodEventKeeps(c: Cluster, e: Event)
    requires Inv(c) && !e.Commit? && !e.Launch? && e.i < |c.pods|
    ensures Inv(Next(c, e))
  {
    var i, c' := e.i, Next(c, e);
    var q := PodNext(e, i, c.pods[i], Source(c, i), c.log);
    assert c' == c.(pods := c.pods[i := q]);
    if i > 0 {
      TouchedInv(c, e, i);
    } else {
      MasterKeeps(e, c.pods[0], c.log);
    }
    if Done(c.pods[i]) {
      DoneStays(e, i, c.pods[i], Source(c, i), c.log);
    }
    forall k | 0 < k < |c'.pods| ensures ReplicaInv(c', k) {
      if k != i {
        OthersKeep(c, i, q, k);
      }
    }
  }

  lemma CommitKeeps(c: Cluster, t: Txn)
    requires Inv(c)
    ensures Inv(Next(c, Commit(t)))
  {
    var c' := Next(c, Commit(t));
    forall k | 0 < k < |c'.pods| && c' != c ensures ReplicaInv(c', k) {
      assert ReplicaInv(c, k);
      LogGrows(c.pods[k], ParentsOk(c, k), c.log, t);
      ParentsOkFrame(c, c', k);
    }
  }

  lemma LaunchKeeps(c: Cluster)
    requires Inv(c)
    ensures Inv(Next(c, Launch))
  {
    var c' := Next(c, Launch);
    forall k | 0 < k < |c'.pods| ensures ReplicaInv(c', k) {
      if k < |c.pods| {
        assert ReplicaInv(c, k);
        ParentsOkFrame(c, c', k);
      }
    }
  }

  /** Every event, on any pod, at any moment, keeps the invariant of the whole StatefulSet. */
  lemma NextKeeps(c: Cluster, e: Event)
    requires Inv(c)
    ensures Inv(Next(c, e))
  {
    match e
    case Commit(t) => CommitKeeps(c, t);
    case Launch => LaunchKeeps(c);
    case _ =>
      if e.i < |c.pods| {
        PodEventKeeps(c, e);
      }
  }

  lemma {:induction false} RunKeeps(c: Cluster, es: seq<Event>)
    requires Inv(c)
    ensures Inv(Run(c, es))
  {
    if es != [] {
      RunKeeps(c, es[..|es| - 1]);
      NextKeeps(Run(c, es[..|es| - 1]), es[|es| - 1]);
    }
  }

  // ----- the theorems -----

  /** The event a replicating pod applies next is the one behind its prefix of the log. */
  lemma AppliesNext(p: Pod, log: seq<Txn>)
    requires p.phase.Main? && Fits(p) && Fate(p, true, log) && Harmless(p.hist)
    ensures p.node.data.Prepared? && p.node.data.rows <= log
    ensures p.node.master.Some? ==> p.node.master == Some(Coord(0, |p.node.data.rows|))
    ensures p.node.running && |p.node.data.rows| < |log| ==>
              CanReplicate(p, log) && ReplicatePod(p, log).node.data == Prepared(log[..|p.node.data.rows| + 1])
  {
    if p.node.running && |p.node.data.rows| < |log| {
      assert log[..|p.node.data.rows| + 1] == p.node.data.rows + [log[|p.node.data.rows|]];
    }
  }

  /** Replica consistency. In every run, as long as nothing spoiled this pod or one it descends from,
      its database is a prefix of mysql-0's log, the coordinates it replicates from point right
      behind that prefix, and the event it applies next is the next one of the log. */
  lemma {:induction false} ReplicaConsistent(es: seq<Event>, i: nat)
    requires 1 <= i < |Run(BOOT, es).pods|
    requires AllHarmless(Run(BOOT, es), i) && Run(BOOT, es).pods[i].phase.Main?
    ensures var c := Run(BOOT, es); var n := c.pods[i].node;
            && n.data.Prepared? && n.data.rows <= c.log
            && (n.master.Some? ==> n.master == Some(Coord(0, |n.data.rows|)))
            && (n.running && |n.data.rows| < |c.log| ==>
                  Next(c, Replicate(i)).pods[i].node.data == Prepared(c.log[..|n.data.rows| + 1]))
  {
    var c := Run(BOOT, es);
    RunKeeps(BOOT, es);
    hide Fits, Fate, ReplicatePod, CanReplicate;
    assert ReplicaInv(c, i) && ParentsOk(c, i) && Harmless(c.pods[i].hist);
    AppliesNext(c.pods[i], c.log);
  }

  /** Pod i applies n events of the log, one after the other. */
  function Replicates(i: nat, n: nat): seq<Event> {
    seq(n, _ => Replicate(i))
  }

  /** A step of replication leaves everything but the database and the coordinates alone. */
  lemma ReplicateFrame(c: Cluster, i: nat)
    requires 1 <= i < |c.pods|
    ensures var d := Next(c, Replicate(i)); var p, q := c.pods[i], d.pods[i];
            && d.log == c.log && d == c.(pods := c.pods[i := q])
            && q.phase == p.phase && q.hist == p.hist && q.node.running == p.node.running
  {
  }

  lemma {:induction false} AppliesMany(es: seq<Event>, i: nat, n: nat)
    requires 1 <= i < |Run(BOOT, es).pods|
    requires AllHarmless(Run(BOOT, es), i)
    requires Run(BOOT, es).pods[i].phase.Main? && Run(BOOT, es).pods[i].node.running
    requires var c := Run(BOOT, es); var d := c.pods[i].node.data;
             d.Prepared? && d.rows <= c.log && |d.rows| + n <= |c.log|
    ensures var c, d := Run(BOOT, es), Run(BOOT, es + Replicates(i, n));
            && |d.pods| == |c.pods| && d.log == c.log && AllHarmless(d, i)
            && d.pods[i].phase.Main? && d.pods[i].node.running
            && d.pods[i].node.data == Prepared(c.log[..|c.pods[i].node.data.rows| + n])
  {
    hide Next;
    var c := Run(BOOT, es);
    if n == 0 {
      assert es + Replicates(i, 0) == es;
    } else {
      var fs := es + Replicates(i, n - 1);
      assert es + Replicates(i, n) == fs + [Replicate(i)];
      AppliesMany(es, i, n - 1);
      var d := Run(BOOT, fs);
      ReplicaConsistent(fs, i);
      ReplicateFrame(d, i);
      assert (fs + [Replicate(i)])[..|fs + [Replicate(i)]| - 1] == fs;
      assert Run(BOOT, fs + [Replicate(i)]) == Next(d, Replicate(i));
    }
  }

  /** Catching up. A replicating pod that nothing spoiled, on the way or in its descent, has the whole
      database of mysql-0 after exactly as many events as it is behind, if mysql-0 commits nothing
      meanwhile. */
  lemma {:induction false} CatchesUp(es: seq<Event>, i: nat)
    requires 1 <= i < |Run(BOOT, es).pods|
    requires AllHarmless(Run(BOOT, es), i)
    requires Run(BOOT, es).pods[i].phase.Main? && Run(BOOT, es).pods[i].node.running
    ensures var c := Run(BOOT, es); var data := c.pods[i].node.data;
            && data.Prepared? && |data.rows| <= |c.log|
            && var d := Run(BOOT, es + Replicates(i, |c.log| - |data.rows|));
               i < |d.pods| && d.log == c.log && d.pods[i].node.data == Prepared(c.log)
  {
    hide Next;
    var c := Run(BOOT, es);
    ReplicaConsistent(es, i);
    AppliesMany(es, i, |c.log| - |c.pods[i].node.data.rows|);
    assert c.log[..|c.log|] == c.log;
  }

  /** Exactness along the whole chain of clones. A pod that has finished its script (it serves
      backups) is aligned with mysql-0's log if and only if nothing spoiled it or any pod it descends
      from; and it is replicating if and only if, besides, its script was not lost just before START
      SLAVE since mysqld was last started. */
  lemma {:induction false} ReplicaExact(es: seq<Event>, i: nat)
    requires 1 <= i < |Run(BOOT, es).pods| && Run(BOOT, es).pods[i].phase == Main(Serve)
    ensures var c := Run(BOOT, es);
            && (Aligned(c.pods[i], c.log) <==> AllHarmless(c, i))
            && (Replicating(c.pods[i], c.log) <==> AllHarmless(c, i) && !c.pods[i].hist.stopped)
  {
    var c := Run(BOOT, es);
    RunKeeps(BOOT, es);
    assert ReplicaInv(c, i);
    assert AllHarmless(c, i) <==> ParentsOk(c, i) && Harmless(c.pods[i].hist);
  }

  /** CHANGE MASTER is attempted at most once per data volume, and once it was, every file that could
      lead to another attempt is gone for good. */
  lemma {:induction false} AtMostOnce(es: seq<Event>, i: nat)
    requires i < |Run(BOOT, es).pods|
    ensures var p := Run(BOOT, es).pods[i];
            p.hist.attempts <= 1 && (p.hist.attempts == 1 ==> Spent(p.node) && p.node.sqlOrig.Some?)
  {
    RunKeeps(BOOT, es);
    if i > 0 {
      assert ReplicaInv(Run(BOOT, es), i);
    }
  }

  lemma RowsKept(e: Event, i: nat, p: Pod, source: Pod, log: seq<Txn>)
    requires p.node.data.Prepared? && (i == 0 || Fits(p))
    ensures var d := PodNext(e, i, p, source, log).node.data; d.Prepared? && p.node.data.rows <= d.rows
  {
  }

  /** No command of the sidecar of pod i finds mysqld answering. */
  predicate Silent(i: nat, es: seq<Event>) {
    Shell(i, true) !in es
  }

  lemma PodUnanswered(e: Event, i: nat, p: Pod, source: Pod, log: seq<Txn>)
    requires e != Shell(i, true) && (e.Shell? ==> e.i == i)
    ensures var q := PodNext(e, i, p, source, log);
            && (q.node.master.Some? <==> p.node.master.Some?)
            && (!Committed(PcOf(p.phase)) ==>
                  && !Committed(PcOf(q.phase)) && q.node.sqlOrig == p.node.sqlOrig && q.hist.attempts == p.hist.attempts)
  {
  }

  /** The script waits, in every run: from any moment on, as long as mysqld of a pod answers none of its
      sidecar's commands, that pod does not become a slave, whatever else happens; and if the sidecar
      was not past its wait, it keeps its query and attempts nothing. */
  lemma {:induction false} WaitsInRun(es: seq<Event>, more: seq<Event>, i: nat)
    requires i < |Run(BOOT, es).pods| && Silent(i, more)
    ensures i < |Run(BOOT, es + more).pods|
    ensures var p, q := Run(BOOT, es).pods[i], Run(BOOT, es + more).pods[i];
            && (q.node.master.Some? <==> p.node.master.Some?)
            && (!Committed(PcOf(p.phase)) ==>
                  && !Committed(PcOf(q.phase)) && q.node.sqlOrig == p.node.sqlOrig && q.hist.attempts == p.hist.attempts)
  {
    if more == [] {
      assert es + more == es;
    } else {
      hide PodNext, PcOf, Committed;
      var n := |more| - 1;
      assert Silent(i, more[..n]) && more[n] in more;
      WaitsInRun(es, more[..n], i);
      assert (es + more)[..|es + more| - 1] == es + more[..n] && (es + more)[|es + more| - 1] == more[n];
      var c := Run(BOOT, es + more[..n]);
      if !more[n].Commit? && !more[n].Launch? && more[n].i == i {
        PodUnanswered(more[n], i, c.pods[i], Source(c, i), c.log);
      }
    }
  }

  /** What a pod gets when data first appears on it: the rows of the pod before it, which serves backups,
      mysql-0's coordinates if and only if that one is a slave, and its own position. */
  lemma ClonesPrevious(c: Cluster, e: Event, i: nat)
    requires Inv(c) && 1 <= i < |c.pods| && c.pods[i].node.data.Empty?
    ensures var n, source := Next(c, e).pods[i].node, c.pods[i - 1];
            && (!n.data.Empty? ==> source.phase == Main(Serve))
            && !n.data.Prepared?
            && (n.data.Unprepared? ==>
                  && source.node.data == Prepared(n.data.rows) && n.slaveInfo == source.node.master
                  && n.binlogInfo.Some? && n.binlogInfo.value.At? && n.binlogInfo.value.coord.server == i - 1
                  && (i == 1 ==> n.data.rows == c.log && n.binlogInfo == Some(At(Coord(0, |c.log|)))))
  {
    assert ReplicaInv(c, i);
    if c.pods[i - 1].phase == Main(Serve) {
      ServesIsDone(c, i - 1);
    }
  }

  /** Pods start in order: every pod but the last one has long had its data. */
  lemma {:induction false} StartedInOrder(es: seq<Event>, i: nat)
    requires i + 1 < |Run(BOOT, es).pods|
    ensures var d := Run(BOOT, es).pods[i].node.data; d.Prepared? || d.Torn?
  {
    var n := |es| - 1;
    var c := Run(BOOT, es[..n]);
    RunKeeps(BOOT, es[..n]);
    if i > 0 {
      assert ReplicaInv(c, i);
    }
    if i + 1 < |c.pods| {
      StartedInOrder(es[..n], i);
      DataStays(c, es[n], i);
    } else {
      assert es[n].Launch? && c.pods[i].phase.Main?;
    }
  }

  lemma DataStays(c: Cluster, e: Event, i: nat)
    requires Inv(c) && i < |c.pods| && (c.pods[i].node.data.Prepared? || c.pods[i].node.data.Torn?)
    ensures var d := Next(c, e).pods[i].node.data; d.Prepared? || d.Torn?
  {
    hide PodNext, Fits, Fate, Done, MasterInv;
    if i > 0 {
      assert ReplicaInv(c, i);
    }
    if !e.Commit? && !e.Launch? && e.i == i {
      PodDataStays(e, i, c.pods[i], Source(c, i), c.log);
    }
  }

  lemma PodDataStays(e: Event, i: nat, p: Pod, source: Pod, log: seq<Txn>)
    requires (p.node.data.Prepared? || p.node.data.Torn?) && (i == 0 || Fits(p))
    ensures var d := PodNext(e, i, p, source, log).node.data; d.Prepared? || d.Torn?
  {
  }

  /** A completed clone is never overwritten: whatever happens next, the rows stay, and only
      replication adds to them. */
  lemma CloneKept(c: Cluster, e: Event, i: nat)
    requires Inv(c) && i < |c.pods| && c.pods[i].node.data.Prepared?
    ensures var d := Next(c, e).pods[i].node.data;
            d.Prepared? && c.pods[i].node.data.rows <= d.rows
  {
    hide PodNext, Fits, Fate, Done, MasterInv;
    if i > 0 {
      assert ReplicaInv(c, i);
    }
    if !e.Commit? && !e.Launch? && e.i == i {
      RowsKept(e, i, c.pods[i], Source(c, i), c.log);
    }
  }

  lemma {:induction false} CloneKeptForever(es: seq<Event>, more: seq<Event>, i: nat)
    requires i < |Run(BOOT, es).pods| && Run(BOOT, es).pods[i].node.data.Prepared?
    ensures i < |Run(BOOT, es + more).pods|
    ensures var d := Run(BOOT, es + more).pods[i].node.data;
            d.Prepared? && Run(BOOT, es).pods[i].node.data.rows <= d.rows
  {
    hide Inv;
    if more == [] {
      assert es + more == es;
    } else {
      var k := |more| - 1;
      CloneKeptForever(es, more[..k], i);
      assert (es + more)[..|es + more| - 1] == es + more[..k] && (es + more)[|es + more| - 1] == more[k];
      RunKeeps(BOOT, es + more[..k]);
      CloneKept(Run(BOOT, es + more[..k]), more[k], i);
    }
  }

  /** mysqld runs on data that was cloned but not prepared exactly when a clone was cut off between
      transfer and prepare, on this pod or on one it descends from. */
  lemma {:induction false} TornExact(c: Cluster, i: nat)
    requires Inv(c) && 1 <= i < |c.pods| && (c.pods[i].phase.Main? || Done(c.pods[i]))
    ensures c.pods[i].node.data.Torn? <==> exists j :: 1 <= j <= i && c.pods[j].hist.interrupted
  {
    assert ReplicaInv(c, i);
    if i > 1 {
      TornExact(c, i - 1);
    }
  }

  /** In no run does mysqld ever start on unprepared data, unless a clone was cut off at a pod or at
      one it descends from; and then it does. */
  lemma TornInRun(es: seq<Event>, i: nat)
    requires 1 <= i < |Run(BOOT, es).pods| && Run(BOOT, es).pods[i].phase.Main?
    ensures var c := Run(BOOT, es);
            c.pods[i].node.data.Torn? <==> exists j :: 1 <= j <= i && c.pods[j].hist.interrupted
  {
    RunKeeps(BOOT, es);
    TornExact(Run(BOOT, es), i);
  }
}
