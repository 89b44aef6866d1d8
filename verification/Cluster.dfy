/** The StatefulSet: pods mysql-0, mysql-1, ... started in order, each cloned from the one before. */
module Cluster {
  import opened Wrappers
  import opened Sidecar

  /** The next command of the clone-mysql init container. */
  datatype InitPc = CheckDir | Fetch | Prepare

  datatype Phase = Init(at: InitPc) | Main(pc: Pc)

  datatype Pod = Pod(phase: Phase, node: Node, hist: History)

  datatype Cluster = Cluster(log: seq<Txn>, pods: seq<Pod>)

  /** How much of the stream arrived. The info files are streamed last, so a stream that is cut off
      before the mysql directory carries nothing the scripts look at; of one that is cut off later, the
      position file may hold anything. */
  datatype Transfer = Nothing | Partial(slaveInfo: bool, binlogInfo: Option<Info>) | Complete

  datatype Event =
    | Commit(t: Txn)                             // a transaction commits on mysql-0
    | Launch                                     // the next ordinal is created
    | InitStep(i: nat, got: Transfer, own: nat)  // one command of the init container of pod i
    | KillInit(i: nat)
    | Shell(i: nat, ready: bool)                 // one command of the sidecar of pod i
    | KillSidecar(i: nat)
    | RestartPod(i: nat)
    | RestartMysqld(i: nat)                      // the mysql container alone, as its liveness probe does
    | Replicate(i: nat)                          // pod i applies one event of mysql-0's log

  const BOOT := Cluster([], [])
  const CREATED := Pod(Init(CheckDir), BLANK, UNEVENTFUL)

  /** mysqld is started on whatever is in the data directory. */
  function StartMysqld(d: Data): Data {
    if d.Unprepared? then Torn else d
  }

  /** `xtrabackup --backup --slave-info` streamed from pod `from`: the data, mysql-0's coordinates if `from`
      is a configured slave, and the position `own` of the binary log of `from` itself. */
  function Receive(n: Node, source: Node, from: nat, own: nat): Node {
    n.(data := if source.data.Prepared? then Unprepared(source.data.rows) else Torn,
       slaveInfo := source.master,
       binlogInfo := Some(At(Coord(from, own))))
  }

  function ReceivePart(n: Node, source: Node, got: Transfer): Node
    requires got.Partial?
  {
    n.(data := Torn,
       slaveInfo := if got.slaveInfo then source.master else None,
       binlogInfo := got.binlogInfo)
  }

  /** One command of clone-mysql on pod i. `source` is the pod it would clone from. */
  function InitPod(i: nat, p: Pod, source: Pod, got: Transfer, own: nat): Pod
    requires p.phase.Init?
  {
    match p.phase.at
    case CheckDir =>
      if p.node.data != Empty then p.(phase := Main(TestInfo), node := p.node.(data := StartMysqld(p.node.data)))
      else if i == 0 then p.(phase := Main(TestInfo), node := p.node.(data := Prepared([])))
      else p.(phase := Init(Fetch))
    case Fetch =>
      if source.phase != Main(Serve) || got.Nothing? || i == 0 then p.(phase := Init(Prepare))
      else if got.Complete? then p.(phase := Init(Prepare), node := Receive(p.node, source.node, i - 1, own))
      else Pod(Init(Prepare), ReceivePart(p.node, source.node, got), p.hist.(interrupted := true))
    case Prepare =>
      if p.node.data.Unprepared?
      then p.(phase := Main(TestInfo), node := p.node.(data := Prepared(p.node.data.rows)))
      else p.(phase := Init(CheckDir))
  }

  /** The init container is lost. */
  function LoseInit(p: Pod): Pod
    requires p.phase.Init?
  {
    p.(phase := Init(CheckDir),
       hist := p.hist.(interrupted := p.hist.interrupted || (p.phase.at == Prepare && p.node.data.Unprepared?)))
  }

  function ShellPod(p: Pod, ready: bool): Pod
    requires p.phase.Main?
  {
    var (n, pc) := Step(p.node, p.phase.pc, ready);
    Pod(Main(pc), n, Observe(p.hist, p.phase.pc, pc))
  }

  function LoseSidecar(p: Pod): Pod
    requires p.phase.Main?
  {
    p.(phase := Main(TestInfo), hist := Lose(p.hist, p.phase.pc))
  }

  /** All containers of the pod are replaced; a configured mysqld starts replicating by itself. */
  function Replace(p: Pod): Pod {
    var q := if p.phase.Init? then LoseInit(p) else LoseSidecar(p);
    q.(phase := Init(CheckDir), node := q.node.(running := q.node.master.Some?), hist := q.hist.(stopped := false))
  }

  /** mysqld is restarted under a running script. A configured one starts replicating by itself. A
      client that has sent CHANGE MASTER loses its connection, which ends the script. */
  function RestartPodMysqld(p: Pod): Pod
    requires p.phase.Main?
  {
    var q := if p.phase.pc == StartSlave then LoseSidecar(p) else p;
    q.(node := q.node.(running := q.node.master.Some?), hist := q.hist.(stopped := false))
  }

  predicate CanReplicate(p: Pod, log: seq<Txn>) {
    && p.phase.Main? && p.node.running
    && p.node.master.Some? && p.node.master.value.server == 0 && p.node.master.value.pos < |log|
  }

  function ReplicatePod(p: Pod, log: seq<Txn>): Pod
    requires CanReplicate(p, log)
  {
    var k := p.node.master.value.pos;
    p.(node := p.node.(
      data := if p.node.data.Prepared? then Prepared(p.node.data.rows + [log[k]]) else p.node.data,
      master := Some(Coord(0, k + 1))))
  }

  /** What one event does to pod i, given the pod before it and mysql-0's log. */
  function PodNext(e: Event, i: nat, p: Pod, source: Pod, log: seq<Txn>): Pod {
    match e
    case InitStep(_, got, own) =>
      if p.phase.Init? then InitPod(i, p, source, got, if i == 1 then |log| else own) else p
    case KillInit(_) => if p.phase.Init? then LoseInit(p) else p
    case Shell(_, ready) => if p.phase.Main? then ShellPod(p, ready) else p
    case KillSidecar(_) => if p.phase.Main? then LoseSidecar(p) else p
    case RestartPod(_) => Replace(p)
    case RestartMysqld(_) => if p.phase.Main? then RestartPodMysqld(p) else p
    case Replicate(_) => if i > 0 && CanReplicate(p, log) then ReplicatePod(p, log) else p
    case _ => p
  }

  /** The pod that pod i clones from: mysql-(i-1). */
  function Source(c: Cluster, i: nat): Pod
    requires i < |c.pods|
  {
    if i == 0 then c.pods[0] else c.pods[i - 1]
  }

  /** An event that cannot happen changes nothing. */
  function Next(c: Cluster, e: Event): Cluster {
    match e
    case Commit(t) =>
      if c.pods != [] && c.pods[0].phase.Main? && c.pods[0].node.data.Prepared?
      then Cluster(c.log + [t], c.pods[0 := c.pods[0].(node := c.pods[0].node.(data := Prepared(c.pods[0].node.data.rows + [t])))])
      else c
    case Launch =>
      if c.pods == [] || c.pods[|c.pods| - 1].phase.Main? then c.(pods := c.pods + [CREATED]) else c
    case _ =>
      if e.i < |c.pods| then c.(pods := c.pods[e.i := PodNext(e, e.i, c.pods[e.i], Source(c, e.i), c.log)]) else c
  }

  function Run(c: Cluster, es: seq<Event>): Cluster {
    if es == [] then c else Next(Run(c, es[..|es| - 1]), es[|es| - 1])
  }

  // ----- what the replica is for -----

  /** The pod's database is a prefix of mysql-0's log, and mysqld's coordinates point right behind it. */
  predicate Aligned(p: Pod, log: seq<Txn>) {
    && p.node.data.Prepared? && p.node.data.rows <= log
    && p.node.master == Some(Coord(0, |p.node.data.rows|))
  }

  predicate Replicating(p: Pod, log: seq<Txn>) {
    Aligned(p, log) && p.node.running
  }

  /** Nothing that happened to this pod spoils its coordinates: the clone was not cut off, and either
      the script was never lost at a critical place, or it was lost at line 113 and then once more
      between the rm of line 117 and the redirection of line 118. */
  predicate Harmless(h: History) {
    !h.interrupted && (h.crashes == [] || h.crashes == [AtRmBinlog, AtCreateIn])
  }

  ghost predicate AllHarmless(c: Cluster, i: nat) {
    forall j :: 1 <= j <= i && j < |c.pods| ==> Harmless(c.pods[j].hist)
  }
}
