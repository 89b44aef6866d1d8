/** What holds of one replica at every moment: the scripts' files against their next command (Fits),
    and what can still become of its coordinates, given the places where it was lost (Fate). */
module PodInvariant {
  import opened Wrappers
  import opened Sidecar
  import opened Cluster

  function PcOf(ph: Phase): Pc {
    if ph.Main? then ph.pc else TestInfo
  }

  predicate NoInfo(n: Node) {
    n.slaveInfo.None? && n.binlogInfo.None?
  }

  /** Every file that could lead to another CHANGE MASTER is gone. */
  predicate Spent(n: Node) {
    NoInfo(n) && n.sqlIn.None?
  }

  predicate Untouched(n: Node) {
    n.sqlIn.None? && n.sqlOrig.None? && n.master.None?
  }

  predicate FitsPc(n: Node, pc: Pc) {
    match pc
    case TestInfo => true
    case MvSlaveInfo => n.slaveInfo.Some?
    case RmBinlog => n.slaveInfo.None? && n.sqlIn.Some? && n.sqlIn.value.Query?
    case ReadBinlog => n.slaveInfo.None? && n.binlogInfo.Some?
    case RmBinlogInfo(c) => n.slaveInfo.None? && n.binlogInfo == Some(At(c))
    case CreateIn(_) => NoInfo(n) && n.sqlOrig.None?
    case WriteIn(_) => NoInfo(n) && n.sqlOrig.None? && n.sqlIn == Some(Blank)
    case TestIn => NoInfo(n)
    case WaitMysqld => NoInfo(n) && n.sqlIn.Some?
    case MvIn => NoInfo(n) && n.sqlIn.Some?
    case ChangeMaster => Spent(n) && n.sqlOrig.Some? && n.master.None?
    case StartSlave => Spent(n) && n.master.Some?
    case Serve => Spent(n)
  }

  predicate Fits(p: Pod) {
    var n, h := p.node, p.hist;
    // the statement is behind its rename: at most once, and never again
    && (n.sqlOrig.Some? || n.master.Some? || h.attempts > 0 ==> Spent(n))
    && h.attempts <= 1
    && (h.attempts == 1 || n.master.Some? ==> n.sqlOrig.Some?)
    && (p.phase == Main(ChangeMaster) ==> h.attempts == 0)
    && (n.master.Some? ==> h.attempts == 1)
    && (n.slaveInfo.Some? ==> n.sqlIn.None?)
    && (n.binlogInfo == Some(Garbled) ==> h.interrupted)
    && (n.data.Empty? ==> n == BLANK && h == UNEVENTFUL && p.phase.Init?)
    && (n.data.Unprepared? ==> Untouched(n) && h.crashes == [])
    && (n.running <==> n.master.Some? && !h.stopped && p.phase != Main(StartSlave))
    && (h.stopped ==> n.master.Some? && p.phase != Main(StartSlave))
    && match p.phase
       case Init(CheckDir) => n.data.Unprepared? ==> h.interrupted
       case Init(Fetch) => n.data.Empty?
       case Init(Prepare) =>
         !n.data.Prepared? && Untouched(n) && h.crashes == [] && (n.data.Unprepared? ==> !h.interrupted)
       case Main(pc) => (n.data.Prepared? || n.data.Torn?) && FitsPc(n, pc)
  }

  predicate Foreign(c: Option<Coord>) {
    c.Some? ==> c.value.server != 0
  }

  predicate ForeignInfo(i: Option<Info>) {
    i.Some? && i.value.At? ==> i.value.coord.server != 0
  }

  predicate ForeignScript(s: Option<Script>) {
    s.Some? && s.value.Query? ==> s.value.coord.server != 0
  }

  /** No coordinate of mysql-0's log is left anywhere that the script could still read. */
  predicate Lost(n: Node, pc: Pc) {
    && Foreign(n.slaveInfo) && ForeignInfo(n.binlogInfo) && ForeignScript(n.sqlIn) && Foreign(n.master)
    && (pc == ChangeMaster ==> ForeignScript(n.sqlOrig))
    && (pc.RmBinlogInfo? || pc.CreateIn? || pc.WriteIn? ==> pc.coord.server != 0)
  }

  function RowsOf(d: Data): seq<Txn> {
    if d.Prepared? || d.Unprepared? then d.rows else []
  }

  predicate Snapshot(n: Node, log: seq<Txn>) {
    (n.data.Prepared? || n.data.Unprepared?) && n.data.rows <= log
  }

  /** The script is on its way to the coordinates that belong to the snapshot. */
  predicate OnCourse(n: Node, pc: Pc, log: seq<Txn>) {
    && Snapshot(n, log)
    && Pending(n, pc) == Some(Coord(0, |RowsOf(n.data)|))
    && (n.slaveInfo.Some? || pc == RmBinlog ==> n.binlogInfo.Some? && ForeignInfo(n.binlogInfo))
    && ((pc != RmBinlog && n.binlogInfo.Some?) || pc.CreateIn? ==> n.sqlIn.None?)
  }

  /** The script was lost at line 113: the source's own binary log is about to be taken for mysql-0's. */
  predicate Misled(n: Node, pc: Pc, log: seq<Txn>) {
    && Snapshot(n, log)
    && n.slaveInfo.None? && pc != RmBinlog
    && if n.binlogInfo.Some? || pc.CreateIn? then
         && n.sqlIn == Some(Query(Coord(0, |RowsOf(n.data)|)))
         && ForeignInfo(n.binlogInfo) && Foreign(n.master)
         && (pc == TestInfo || pc == ReadBinlog || pc.RmBinlogInfo? || pc.CreateIn?)
         && (pc.RmBinlogInfo? || pc.CreateIn? ==> pc.coord.server != 0)
       else Lost(n, pc)
  }

  /** Where the coordinates are heading, by where the script was lost so far. `parentsOk` says that
      nothing spoiled the pods this one descends from. */
  predicate Fate(p: Pod, parentsOk: bool, log: seq<Txn>) {
    var n, pc := p.node, PcOf(p.phase);
    n.data.Empty? ||
    if p.hist.interrupted then n.data.Torn? || (n.data.Unprepared? && p.phase == Init(CheckDir))
    else if parentsOk && p.hist.crashes == [] then OnCourse(n, pc, log)
    else if parentsOk && p.hist.crashes == [AtRmBinlog] then Misled(n, pc, log)
    else if parentsOk && p.hist.crashes == [AtRmBinlog, AtCreateIn]
    then OnCourse(n, pc, log) && NoInfo(n) && SiteOf(pc) in {None, Some(AtChangeMaster)}
    else n.data.Torn? || Lost(n, pc)
  }

  /** The volume is finished: no script will write anything but its program counter any more. */
  predicate Done(p: Pod) {
    && (p.node.data.Prepared? || p.node.data.Torn?) && Spent(p.node)
    && p.phase in {Init(CheckDir), Main(TestInfo), Main(TestIn), Main(Serve)}
  }

  // ----- one command of the sidecar -----

  /** Running on undisturbed, a command keeps the coordinates the script is heading for. */
  lemma StepKeepsPending(p: Pod, ready: bool)
    requires p.phase.Main? && Fits(p)
    ensures var (n, pc) := Step(p.node, p.phase.pc, ready);
            pc != TestInfo ==> Pending(n, pc) == Pending(p.node, p.phase.pc)
  {
  }

  /** Lines 108-120 are over: what follows replaces files that lead to CHANGE MASTER by its effect. */
  predicate Late(pc: Pc) {
    pc.TestIn? || pc.WaitMysqld? || pc.MvIn? || pc.ChangeMaster? || pc.StartSlave? || pc.Serve?
  }

  lemma ShellFitsEarly(p: Pod, ready: bool)
    requires p.phase.Main? && Fits(p) && !Late(p.phase.pc)
    ensures Fits(ShellPod(p, ready))
  {
  }

  lemma ShellFitsLate(p: Pod, ready: bool)
    requires p.phase.Main? && Fits(p) && Late(p.phase.pc)
    ensures Fits(ShellPod(p, ready))
  {
  }

  lemma ShellFits(p: Pod, ready: bool)
    requires p.phase.Main? && Fits(p)
    ensures Fits(ShellPod(p, ready))
  {
    hide Fits, ShellPod;
    if Late(p.phase.pc) {
      ShellFitsLate(p, ready);
    } else {
      ShellFitsEarly(p, ready);
    }
  }

  lemma LoseFits(p: Pod)
    requires p.phase.Main? && Fits(p)
    ensures Fits(LoseSidecar(p))
  {
  }

  lemma ReplaceFits(p: Pod)
    requires Fits(p)
    ensures Fits(Replace(p))
  {
  }

  /** Losing the script once more turns one list of critical places into a harmless one only at line
      118, after line 113. */
  lemma CrashesAfter(cs: seq<Site>, s: Site)
    ensures cs + [s] != []
    ensures cs + [s] == [AtRmBinlog] <==> cs == [] && s == AtRmBinlog
    ensures cs + [s] == [AtRmBinlog, AtCreateIn] <==> cs == [AtRmBinlog] && s == AtCreateIn
  {
    assert (cs + [s])[|cs|] == s && (cs + [s])[..|cs|] == cs;
    if cs + [s] == [AtRmBinlog, AtCreateIn] {
      assert cs == [AtRmBinlog, AtCreateIn][..1] == [AtRmBinlog];
    }
  }

  lemma LoseFate(p: Pod, ok: bool, log: seq<Txn>)
    requires p.phase.Main? && Fits(p) && Fate(p, ok, log)
    ensures Fate(LoseSidecar(p), ok, log)
  {
    var site := SiteOf(p.phase.pc);
    if site.Some? {
      CrashesAfter(p.hist.crashes, site.value);
    } else {
      assert p.hist.crashes + [] == p.hist.crashes;
    }
  }

  lemma ShellFate(p: Pod, ready: bool, ok: bool, log: seq<Txn>)
    requires p.phase.Main? && Fits(p) && Fate(p, ok, log)
    ensures Fate(ShellPod(p, ready), ok, log)
  {
    var (n, pc) := Step(p.node, p.phase.pc, ready);
    if pc == TestInfo {
      LoseFate(p, ok, log);
      assert n == p.node;
    } else {
      StepKeepsPending(p, ready);
    }
  }

  lemma ReplaceFate(p: Pod, ok: bool, log: seq<Txn>)
    requires Fits(p) && Fate(p, ok, log)
    ensures Fate(Replace(p), ok, log)
  {
    if p.phase.Main? {
      LoseFate(p, ok, log);
    }
  }

  lemma RestartMysqldKeeps(p: Pod, ok: bool, log: seq<Txn>)
    requires p.phase.Main? && Fits(p) && Fate(p, ok, log)
    ensures Fits(RestartPodMysqld(p)) && Fate(RestartPodMysqld(p), ok, log)
  {
    if p.phase.pc == StartSlave {
      LoseFits(p);
      LoseFate(p, ok, log);
    }
  }

  lemma ReplicateKeeps(p: Pod, ok: bool, log: seq<Txn>)
    requires Fits(p) && Fate(p, ok, log) && CanReplicate(p, log)
    ensures Fits(ReplicatePod(p, log)) && Fate(ReplicatePod(p, log), ok, log)
  {
  }

  lemma LogGrows(p: Pod, ok: bool, log: seq<Txn>, t: Txn)
    requires Fate(p, ok, log)
    ensures Fate(p, ok, log + [t])
  {
  }

  // ----- the clone -----

  /** What can be cloned from a pod that serves backups: nothing is left of its own clone. */
  predicate Serves(source: Pod, from: nat, ok: bool, log: seq<Txn>) {
    if from == 0 then source.node == BLANK.(data := Prepared(log))
    else Fits(source) && Fate(source, ok, log)
  }

  lemma InitKeeps(i: nat, p: Pod, source: Pod, got: Transfer, own: nat, sourceOk: bool, log: seq<Txn>)
    requires i > 0 && p.phase.Init? && Fits(p) && (i == 1 ==> own == |log|)
    requires source.phase == Main(Serve) ==> Serves(source, i - 1, sourceOk, log)
    requires Fate(p, i == 1 || (sourceOk && Harmless(source.hist)), log)
    ensures Fits(InitPod(i, p, source, got, own))
    ensures Fate(InitPod(i, p, source, got, own), i == 1 || (sourceOk && Harmless(source.hist)), log)
  {
  }

  lemma LoseInitKeeps(p: Pod, ok: bool, log: seq<Txn>)
    requires p.phase.Init? && Fits(p) && Fate(p, ok, log)
    ensures Fits(LoseInit(p)) && Fate(LoseInit(p), ok, log)
  {
  }

  // ----- a finished volume stays finished -----

  lemma DoneStays(e: Event, i: nat, p: Pod, source: Pod, log: seq<Txn>)
    requires Done(p)
    ensures Done(PodNext(e, i, p, source, log))
    ensures Harmless(PodNext(e, i, p, source, log).hist) == Harmless(p.hist)
    ensures PodNext(e, i, p, source, log).node.data.Torn? == p.node.data.Torn?
  {
  }

  lemma EmptyHasAnyFate(p: Pod, ok: bool, ok': bool, log: seq<Txn>)
    requires Fate(p, ok, log) && (p.node.data.Empty? || ok == ok')
    ensures Fate(p, ok', log)
  {
  }
}
