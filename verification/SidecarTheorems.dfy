/** One sidecar on one complete, prepared clone: exactly which losses of the container spoil the
    coordinates, and how a script that is left alone finishes. */
module SidecarTheorems {
  import opened Wrappers
  import opened Sidecar
  import opened Cluster
  import opened PodInvariant

  datatype Action = Command(ready: bool) | Kill

  function Act(p: Pod, a: Action): Pod
    requires p.phase.Main?
  {
    if a.Kill? then LoseSidecar(p) else ShellPod(p, a.ready)
  }

  function Play(p: Pod, acts: seq<Action>): (q: Pod)
    requires p.phase.Main?
    ensures q.phase.Main?
    decreases |acts|
  {
    if acts == [] then p else Play(Act(p, acts[0]), acts[1..])
  }

  /** A complete, prepared clone of pod `from`, whose own binary log stood at `own`; from mysql-0 if
      `from` is 0, from a correctly configured slave otherwise. */
  function Cloned(from: nat, rows: seq<Txn>, own: nat): Pod {
    var right := Coord(0, |rows|);
    Pod(Main(TestInfo),
        Node(Prepared(rows), if from == 0 then None else Some(right),
             Some(At(if from == 0 then right else Coord(from, own))), None, None, None, false),
        UNEVENTFUL)
  }

  lemma {:induction false} PlayKeeps(p: Pod, acts: seq<Action>, log: seq<Txn>)
    requires p.phase.Main? && Fits(p) && Fate(p, true, log) && p.node.data == Prepared(log)
    requires !p.hist.interrupted
    ensures var q := Play(p, acts);
            Fits(q) && Fate(q, true, log) && q.node.data == Prepared(log) && !q.hist.interrupted
    decreases |acts|
  {
    if acts != [] {
      if acts[0].Kill? {
        LoseFits(p);
        LoseFate(p, true, log);
      } else {
        ShellFits(p, acts[0].ready);
        ShellFate(p, acts[0].ready, true, log);
      }
      PlayKeeps(Act(p, acts[0]), acts[1..], log);
    }
  }

  /** The crash windows. However often the sidecar is killed, and wherever, once it serves backups
      mysqld has the coordinates of the snapshot if and only if the critical places at which the
      script was lost are none at all, or line 113 and then line 118 before its redirection. It
      also replicates if and only if, besides, it was never lost just before START SLAVE. */
  lemma {:induction false} CrashWindowsExact(from: nat, rows: seq<Txn>, own: nat, acts: seq<Action>)
    requires Play(Cloned(from, rows, own), acts).phase == Main(Serve)
    ensures var q := Play(Cloned(from, rows, own), acts);
            && (q.node.master == Some(Coord(0, |rows|)) <==>
                  q.hist.crashes == [] || q.hist.crashes == [AtRmBinlog, AtCreateIn])
            && (q.node.running && q.node.master == Some(Coord(0, |rows|)) <==>
                  (q.hist.crashes == [] || q.hist.crashes == [AtRmBinlog, AtCreateIn]) && !q.hist.stopped)
  {
    PlayKeeps(Cloned(from, rows, own), acts, rows);
  }

  // ----- a script whose mysqld does not answer -----

  /** mysqld answers none of these commands. */
  predicate Unanswered(acts: seq<Action>) {
    Command(true) !in acts
  }

  /** The script is past its wait for mysqld and not yet at its end. */
  predicate Committed(pc: Pc) {
    pc == MvIn || pc == ChangeMaster || pc == StartSlave
  }

  lemma ActUnanswered(p: Pod, a: Action)
    requires p.phase.Main? && a != Command(true)
    ensures var q := Act(p, a);
            && q.node.master == p.node.master && q.node.running == p.node.running
            && (!Committed(p.phase.pc) ==>
                  && !Committed(q.phase.pc) && q.node.sqlOrig == p.node.sqlOrig && q.hist.attempts == p.hist.attempts
                  && (AtChangeMaster in q.hist.crashes ==> AtChangeMaster in p.hist.crashes))
  {
  }

  /** The script waits. As long as mysqld answers no command, whatever the state of the files, and
      however often the container is killed, no slave is configured and none is started; and a script
      that was not past its wait neither renames its query nor attempts CHANGE MASTER. */
  lemma {:induction false} NothingUnanswered(p: Pod, acts: seq<Action>)
    requires p.phase.Main? && Unanswered(acts)
    ensures var q := Play(p, acts);
            && q.node.master == p.node.master && q.node.running == p.node.running
            && (!Committed(p.phase.pc) ==>
                  && !Committed(q.phase.pc) && q.node.sqlOrig == p.node.sqlOrig && q.hist.attempts == p.hist.attempts
                  && (AtChangeMaster in q.hist.crashes ==> AtChangeMaster in p.hist.crashes))
    decreases |acts|
  {
    if acts != [] {
      hide Act;
      ActUnanswered(p, acts[0]);
      assert Unanswered(acts[1..]);
      NothingUnanswered(Act(p, acts[0]), acts[1..]);
    }
  }

  /** So a sidecar that starts before its mysqld loses nothing by that, kills included. */
  lemma {:induction false} WaitsForMysqld(from: nat, rows: seq<Txn>, own: nat, acts: seq<Action>)
    requires Unanswered(acts)
    ensures var q := Play(Cloned(from, rows, own), acts);
            && q.hist.attempts == 0 && q.node.sqlOrig.None? && q.node.master.None? && !q.node.running
            && AtChangeMaster !in q.hist.crashes && !q.hist.stopped
  {
    hide Play;
    NothingUnanswered(Cloned(from, rows, own), acts);
    NeverStopped(Cloned(from, rows, own), acts);
  }

  lemma {:induction false} NeverStopped(p: Pod, acts: seq<Action>)
    requires p.phase.Main? && Unanswered(acts) && !Committed(p.phase.pc) && !p.hist.stopped
    ensures !Play(p, acts).hist.stopped
    decreases |acts|
  {
    if acts != [] {
      ActUnanswered(p, acts[0]);
      assert Unanswered(acts[1..]);
      NeverStopped(Act(p, acts[0]), acts[1..]);
    }
  }

  lemma PlayStep(p: Pod, a: Action, acts: seq<Action>)
    requires p.phase.Main?
    ensures Play(p, [a] + acts) == Play(Act(p, a), acts)
  {
    assert ([a] + acts)[1..] == acts;
  }

  /** `p` lost at line 113: the first two commands of a slave clone, then the loss. */
  lemma LostAtRmBinlog(rows: seq<Txn>, own: nat, acts: seq<Action>)
    ensures var p := Cloned(1, rows, own); var c := Command(true);
            var q := p.(node := p.node.(slaveInfo := None, sqlIn := Some(Query(Coord(0, |rows|)))),
                        hist := p.hist.(crashes := [AtRmBinlog]));
            Play(p, [c] + ([c] + ([Kill] + acts))) == Play(q, acts)
  {
    var p, c := Cloned(1, rows, own), Command(true);
    PlayStep(p, c, [c] + ([Kill] + acts));
    PlayStep(Act(p, c), c, [Kill] + acts);
    PlayStep(Act(Act(p, c), c), Kill, acts);
    assert [] + [AtRmBinlog] == [AtRmBinlog];
  }

  /** A pod that takes its source's own position for mysql-0's is lost at line 118. */
  lemma LostAtCreateIn(p: Pod, acts: seq<Action>)
    requires p.phase == Main(TestInfo) && p.node.slaveInfo.None?
    requires p.node.binlogInfo.Some? && p.node.binlogInfo.value.At?
    ensures var c := Command(true);
            var q := p.(node := p.node.(binlogInfo := None), hist := p.hist.(crashes := p.hist.crashes + [AtCreateIn]));
            Play(p, [c] + ([c] + ([c] + ([Kill] + acts)))) == Play(q, acts)
  {
    var c := Command(true);
    PlayStep(p, c, [c] + ([c] + ([Kill] + acts)));
    PlayStep(Act(p, c), c, [c] + ([Kill] + acts));
    PlayStep(Act(Act(p, c), c), c, [Kill] + acts);
    PlayStep(Act(Act(Act(p, c), c), c), Kill, acts);
  }

  /** Avoiding every critical place is not necessary: killed at line 113 and again between lines 117
      and 118, this clone of mysql-1 still ends up with the right coordinates, because the first
      change_master_to.sql.in was never overwritten. */
  lemma TwoCrashesHeal(rows: seq<Txn>, own: nat)
    ensures var c := Command(true);
            var q := Play(Cloned(1, rows, own), [c, c, Kill, c, c, c, Kill] + seq(12, _ => c));
            && q.phase == Main(Serve) && Replicating(q, rows) && q.hist.crashes == [AtRmBinlog, AtCreateIn]
  {
    hide LeftAlone, Play;
    var c := Command(true);
    var rest := seq(12, _ => c);
    var second := [c] + ([c] + ([c] + ([Kill] + rest)));
    assert [c, c, Kill, c, c, c, Kill] + rest == [c] + ([c] + ([Kill] + second));
    LostAtRmBinlog(rows, own, second);
    var p := Cloned(1, rows, own);
    var q := p.(node := p.node.(slaveInfo := None, sqlIn := Some(Query(Coord(0, |rows|)))),
                hist := p.hist.(crashes := [AtRmBinlog]));
    LostAtCreateIn(q, rest);
    var r := q.(node := q.node.(binlogInfo := None), hist := q.hist.(crashes := [AtRmBinlog, AtCreateIn]));
    assert [AtRmBinlog] + [AtCreateIn] == [AtRmBinlog, AtCreateIn];
    LeftAloneIsPlay(r, 12);
    ReachesServe(r, 12);
    LeftAloneKeeps(r, 12, rows);
    assert forall cs: seq<Site> :: |cs| == 2 && [AtRmBinlog, AtCreateIn] <= cs ==> cs == [AtRmBinlog, AtCreateIn];
    CrashesGrow(r, 12);
  }

  lemma {:induction false} CrashesGrow(p: Pod, k: nat)
    requires p.phase.Main?
    ensures p.hist.crashes <= LeftAlone(p, k).hist.crashes
    decreases k
  {
    if k > 0 {
      CrashesGrow(ShellPod(p, true), k - 1);
    }
  }

  // ----- a script that is left alone -----

  function LeftAlone(p: Pod, k: nat): (q: Pod)
    requires p.phase.Main?
    ensures q.phase.Main?
    decreases k
  {
    if k == 0 then p else LeftAlone(ShellPod(p, true), k - 1)
  }

  lemma {:induction false} LeftAloneIsPlay(p: Pod, k: nat)
    requires p.phase.Main?
    ensures LeftAlone(p, k) == Play(p, seq(k, _ => Command(true)))
    decreases k
  {
    if k > 0 {
      LeftAloneIsPlay(ShellPod(p, true), k - 1);
      assert seq(k, _ => Command(true)) == [Command(true)] + seq(k - 1, _ => Command(true));
      PlayStep(p, Command(true), seq(k - 1, _ => Command(true)));
    }
  }

  /** How many commands are left at most until the script serves backups. */
  function Rank(n: Node, pc: Pc): nat {
    match pc
    case TestInfo =>
      if n.slaveInfo.Some? then 10 else if n.binlogInfo.Some? then 12 else if n.sqlIn.Some? then 8 else 2
    case MvSlaveInfo => 9
    case RmBinlog => 8
    case ReadBinlog => 11
    case RmBinlogInfo(_) => 10
    case CreateIn(_) => 9
    case WriteIn(_) => 8
    case TestIn => if n.sqlIn.Some? then 7 else 1
    case WaitMysqld => 6
    case MvIn => 5
    case ChangeMaster => 4
    case StartSlave => 1
    case Serve => 0
  }

  /** The script is about to exit at line 116, and will do so again whenever it is restarted. */
  predicate Unreadable(n: Node, pc: Pc) {
    n.slaveInfo.None? && n.binlogInfo == Some(Garbled) && pc != RmBinlog
  }

  lemma ShellRank(p: Pod)
    requires p.phase.Main? && Fits(p)
    ensures var q := ShellPod(p, true);
            && (Unreadable(q.node, q.phase.pc) <==> Unreadable(p.node, p.phase.pc))
            && (!Unreadable(p.node, p.phase.pc) && p.phase.pc != Serve ==>
                  Rank(q.node, q.phase.pc) < Rank(p.node, p.phase.pc))
  {
  }

  /** A script that is left alone comes to serve backups, after at most Rank commands, if and only if it
      does not come upon a position file that it cannot read. */
  lemma {:induction false} ReachesServe(p: Pod, k: nat)
    requires p.phase.Main? && Fits(p) && Rank(p.node, p.phase.pc) <= k
    ensures LeftAlone(p, k).phase == Main(Serve) <==> !Unreadable(p.node, p.phase.pc)
  {
    if Unreadable(p.node, p.phase.pc) {
      UnreadableStays(p, k);
    } else {
      RanksDown(p, k);
    }
  }

  /** Only a clone that was cut off leaves such a file. */
  lemma UnreadableWasCutOff(p: Pod)
    requires p.phase.Main? && Fits(p) && Unreadable(p.node, p.phase.pc)
    ensures p.hist.interrupted
  {
  }

  lemma {:induction false} RanksDown(p: Pod, k: nat)
    requires p.phase.Main? && Fits(p) && Rank(p.node, p.phase.pc) <= k && !Unreadable(p.node, p.phase.pc)
    ensures LeftAlone(p, k).phase == Main(Serve)
    decreases k
  {
    hide Fits, Step;
    if k > 0 {
      ShellFits(p, true);
      ShellRank(p);
      if p.phase.pc == Serve {
        ServeShell(p);
      }
      RanksDown(ShellPod(p, true), k - 1);
    }
  }

  lemma ServeShell(p: Pod)
    requires p.phase == Main(Serve)
    ensures ShellPod(p, true) == p
  {
  }

  lemma {:induction false} UnreadableStays(p: Pod, k: nat)
    requires p.phase.Main? && Fits(p) && Unreadable(p.node, p.phase.pc)
    ensures LeftAlone(p, k).phase != Main(Serve)
    decreases k
  {
    if k > 0 {
      ShellFits(p, true);
      ShellRank(p);
      UnreadableStays(ShellPod(p, true), k - 1);
    }
  }

  lemma {:induction false} LeftAloneKeeps(p: Pod, k: nat, log: seq<Txn>)
    requires p.phase.Main? && Fits(p) && Fate(p, true, log) && Harmless(p.hist) && !p.hist.stopped
    ensures var q := LeftAlone(p, k);
            Fits(q) && Fate(q, true, log) && Harmless(q.hist) && !q.hist.stopped
    decreases k
  {
    if k > 0 {
      ShellFits(p, true);
      ShellFate(p, true, true, log);
      LeftAloneKeeps(ShellPod(p, true), k - 1, log);
    }
  }

  lemma {:induction false} RecoversFrom(p: Pod, log: seq<Txn>)
    requires p.phase.Main? && Fits(p) && Fate(p, true, log) && Harmless(p.hist) && !p.hist.stopped
    ensures var q := LeftAlone(p, 12);
            q.phase == Main(Serve) && Replicating(q, log)
  {
    hide LeftAlone;
    ReachesServe(p, 12);
    LeftAloneKeeps(p, 12, log);
  }

  lemma ClonedIsSound(from: nat, rows: seq<Txn>, own: nat)
    ensures Fits(Cloned(from, rows, own)) && Fate(Cloned(from, rows, own), true, rows)
  {
  }

  /** A loss at any other place is recovered: whatever was lost so far, if none of it was critical,
      twelve commands of the restarted script make the pod a replicating slave that serves backups. */
  lemma {:induction false} Recovers(from: nat, rows: seq<Txn>, own: nat, acts: seq<Action>)
    requires Harmless(Play(Cloned(from, rows, own), acts).hist) && !Play(Cloned(from, rows, own), acts).hist.stopped
    ensures var q := LeftAlone(Play(Cloned(from, rows, own), acts), 12);
            q.phase == Main(Serve) && Replicating(q, rows)
  {
    hide LeftAlone, Play, Fits, Fate;
    ClonedIsSound(from, rows, own);
    PlayKeeps(Cloned(from, rows, own), acts, rows);
    RecoversFrom(Play(Cloned(from, rows, own), acts), rows);
  }
}
