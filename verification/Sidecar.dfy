/** One pod of the replicated MySQL StatefulSet: the data volume, and the xtrabackup sidecar script
    as a machine that executes one command at a time. The container may be killed between any two
    commands; the volume survives and the script starts again from its first line. */
module Sidecar {
  import opened Wrappers

  /** A committed transaction of mysql-0, known by its identity. */
  type Txn = nat

  /** Replication coordinates: whose binary log, and how many of its transactions come before. */
  datatype Coord = Coord(server: nat, pos: nat)

  /** What xtrabackup_binlog_info holds: a position, or nothing that line 116 can take apart. */
  datatype Info = Garbled | At(coord: Coord)

  /** The text of change_master_to.sql.in: created but not yet written, or a complete query. */
  datatype Script = Blank | Query(coord: Coord)

  /** The data directory. Torn is data on which mysqld was started before it was prepared. */
  datatype Data = Empty | Unprepared(rows: seq<Txn>) | Torn | Prepared(rows: seq<Txn>)

  datatype Node = Node(
    data: Data,
    slaveInfo: Option<Coord>,   // xtrabackup_slave_info
    binlogInfo: Option<Info>,   // xtrabackup_binlog_info
    sqlIn: Option<Script>,      // change_master_to.sql.in
    sqlOrig: Option<Script>,    // change_master_to.sql.orig
    master: Option<Coord>,      // the coordinates mysqld replicates from, once it is a slave
    running: bool)              // are the slave threads started?

  const BLANK := Node(Empty, None, None, None, None, None, false)

  /** The next command of the sidecar script; the parameter is what BASH_REMATCH holds. */
  datatype Pc =
    | TestInfo
    | MvSlaveInfo
    | RmBinlog
    | ReadBinlog
    | RmBinlogInfo(coord: Coord)
    | CreateIn(coord: Coord)
    | WriteIn(coord: Coord)
    | TestIn
    | WaitMysqld
    | MvIn
    | ChangeMaster
    | StartSlave
    | Serve

  /** One command. A command that fails ends the script (set -e), and the restarted container
      begins again at TestInfo. `ready` says whether mysqld answers the local client. */
  function Step(n: Node, pc: Pc, ready: bool): (Node, Pc) {
    match pc
    case TestInfo =>
      if n.slaveInfo.Some? then (n, MvSlaveInfo)
      else if n.binlogInfo.Some? then (n, ReadBinlog)
      else (n, TestIn)
    case MvSlaveInfo =>
      if n.slaveInfo.Some?
      then (n.(slaveInfo := None, sqlIn := Some(Query(n.slaveInfo.value))), RmBinlog)
      else (n, TestInfo)
    case RmBinlog => (n.(binlogInfo := None), TestIn)
    case ReadBinlog =>
      if n.binlogInfo.Some? && n.binlogInfo.value.At?
      then (n, RmBinlogInfo(n.binlogInfo.value.coord))
      else (n, TestInfo)
    case RmBinlogInfo(c) =>
      if n.binlogInfo.Some? then (n.(binlogInfo := None), CreateIn(c)) else (n, TestInfo)
    case CreateIn(c) => (n.(sqlIn := Some(Blank)), WriteIn(c))
    case WriteIn(c) => (n.(sqlIn := Some(Query(c))), TestIn)
    case TestIn => (n, if n.sqlIn.Some? then WaitMysqld else Serve)
    case WaitMysqld => (n, if ready then MvIn else WaitMysqld)
    case MvIn =>
      if n.sqlIn.Some?
      then (n.(sqlIn := None, sqlOrig := n.sqlIn), ChangeMaster)
      else (n, TestInfo)
    case ChangeMaster =>
      if ready && n.sqlOrig.Some? && n.sqlOrig.value.Query?
      then (n.(master := Some(n.sqlOrig.value.coord)), StartSlave)
      else (n, TestInfo)
    case StartSlave =>
      if ready then (n.(running := true), Serve) else (n, TestInfo)
    case Serve => (n, Serve)
  }

  /** The coordinates that the script will end up using if it now runs on undisturbed. */
  function Pending(n: Node, pc: Pc): Option<Coord> {
    if pc.CreateIn? || pc.WriteIn? then Some(pc.coord)
    else if pc != RmBinlog && n.slaveInfo.Some? then n.slaveInfo
    else if pc != RmBinlog && n.binlogInfo.Some?
    then (if n.binlogInfo.value.At? then Some(n.binlogInfo.value.coord) else None)
    else if n.sqlIn.Some? then (if n.sqlIn.value.Query? then Some(n.sqlIn.value.coord) else None)
    else if pc == ChangeMaster && n.sqlOrig.Some? && n.sqlOrig.value.Query?
    then Some(n.sqlOrig.value.coord)
    else n.master
  }

  /** The places where losing the container can lose the coordinates. */
  datatype Site = AtRmBinlog | AtCreateIn | AtWriteIn | AtChangeMaster

  function SiteOf(pc: Pc): Option<Site> {
    match pc
    case RmBinlog => Some(AtRmBinlog)
    case CreateIn(_) => Some(AtCreateIn)
    case WriteIn(_) => Some(AtWriteIn)
    case ChangeMaster => Some(AtChangeMaster)
    case _ => None
  }

  /** What an observer of one pod remembers; no command reads it. */
  datatype History = History(
    crashes: seq<Site>,   // the critical places at which the script was lost, in order
    interrupted: bool,    // was the clone cut off between transfer and prepare?
    stopped: bool,        // was the script lost just before START SLAVE, and mysqld not restarted since?
    attempts: nat)        // how often the CHANGE MASTER statement was attempted

  const UNEVENTFUL := History([], false, false, 0)

  /** The script is lost while `pc` is its next command. */
  function Lose(h: History, pc: Pc): History {
    h.(crashes := h.crashes + (if SiteOf(pc).Some? then [SiteOf(pc).value] else []),
       stopped := h.stopped || pc == StartSlave,
       attempts := h.attempts + if pc == ChangeMaster then 1 else 0)
  }

  /** One command is executed, and it took the script from `pc` to `next`. */
  function Observe(h: History, pc: Pc, next: Pc): History {
    if next == TestInfo then Lose(h, pc)
    else if pc == ChangeMaster then h.(attempts := h.attempts + 1)
    else h
  }
}
