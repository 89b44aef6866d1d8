/** The sidecar script as the shell runs it: nested conditionals over files that each command moves,
    deletes or creates, cut short at an arbitrary command. It refines the one-command-at-a-time
    machine of module Sidecar, about which the theorems are proved. */
module SidecarScript {
  import opened Wrappers
  import opened Sidecar
  import opened Cluster
  import opened SidecarTheorems

  /** One life of the container from `pc` on. The k-th element of `ready` says whether mysqld answers
      during the k-th command; the container is killed after the last one, unless a command fails
      before. The result is the volume and the command that would have been next. */
  function Life(n: Node, pc: Pc, ready: seq<bool>): (Node, Pc)
    decreases |ready|
  {
    if ready == [] then (n, pc)
    else
      var (n', pc') := Step(n, pc, ready[0]);
      if pc' == TestInfo then (n', pc') else Life(n', pc', ready[1..])
  }

  lemma LifeStep(n: Node, pc: Pc, ready: seq<bool>, t: nat)
    requires t < |ready|
    ensures var (n', pc') := Step(n, pc, ready[t]);
            Life(n, pc, ready[t..]) == if pc' == TestInfo then (n', pc') else Life(n', pc', ready[t + 1..])
  {
    assert ready[t..][1..] == ready[t + 1..];
  }

  /** In a life in which mysqld never answers, nothing is renamed, configured or started. */
  lemma {:induction false} LifeUnanswered(n: Node, pc: Pc, ready: seq<bool>)
    requires !Committed(pc)
    ensures var (q, _) := Life(n, pc, ready);
            true !in ready ==> q.sqlOrig == n.sqlOrig && q.master == n.master && q.running == n.running
    decreases |ready|
  {
    if ready != [] && true !in ready {
      var (n', pc') := Step(n, pc, ready[0]);
      assert ready[0] in ready && true !in ready[1..];
      if pc' != TestInfo {
        LifeUnanswered(n', pc', ready[1..]);
      }
    }
  }

  /** A life of the container is a play of the theorems' machine, up to the loss that ends it. */
  lemma {:induction false} LifeIsPlay(p: Pod, ready: seq<bool>) returns (k: nat)
    requires p.phase.Main?
    ensures k <= |ready|
    ensures var q := Play(p, seq(k, i requires 0 <= i < k => Command(ready[i])));
            q.phase.Main? && (q.node, q.phase.pc) == Life(p.node, p.phase.pc, ready)
    decreases |ready|
  {
    if ready == [] {
      k := 0;
    } else {
      var q := ShellPod(p, ready[0]);
      var rest := 0;
      if q.phase.pc != TestInfo {
        rest := LifeIsPlay(q, ready[1..]);
      }
      k := rest + 1;
      var tail := seq(rest, i requires 0 <= i < rest => Command(ready[1..][i]));
      assert seq(k, i requires 0 <= i < k => Command(ready[i])) == [Command(ready[0])] + tail;
      PlayStep(p, Command(ready[0]), tail);
    }
  }

  /** One life of the clone-mysql init container on pod i, cut short after `n` commands. */
  function CloneLife(i: nat, p: Pod, source: Pod, got: Transfer, own: nat, n: nat): Pod
    requires p.phase.Init?
    decreases n
  {
    if n == 0 then p
    else
      var q := InitPod(i, p, source, got, own);
      if q.phase.Main? || q.phase == Init(CheckDir) then q else CloneLife(i, q, source, got, own, n - 1)
  }

  /** The pod's data volume, and the mysqld that runs on it. */
  class Volume {
    var data: Data
    var slaveInfo: Option<Coord>
    var binlogInfo: Option<Info>
    var sqlIn: Option<Script>
    var sqlOrig: Option<Script>
    var master: Option<Coord>
    var running: bool

    function Contents(): Node
      reads this
    {
      Node(data, slaveInfo, binlogInfo, sqlIn, sqlOrig, master, running)
    }

    constructor (n: Node)
      ensures Contents() == n
    {
      data, slaveInfo, binlogInfo := n.data, n.slaveInfo, n.binlogInfo;
      sqlIn, sqlOrig, master, running := n.sqlIn, n.sqlOrig, n.master, n.running;
    }

    /** clone-mysql, and the start of mysqld when it succeeds. */
    method Clone(i: nat, source: Pod, got: Transfer, own: nat, n: nat, h: History) returns (at: Phase, h': History)
      modifies this
      ensures Pod(at, Contents(), h') == CloneLife(i, Pod(Init(CheckDir), old(Contents()), h), source, got, own, n)
    {
      at, h' := Init(CheckDir), h;
      if n == 0 { return; }
      if data != Empty {
        at, data := Main(TestInfo), StartMysqld(data);
        return;
      }
      if i == 0 {
        at, data := Main(TestInfo), Prepared([]);
        return;
      }
      at := Init(Fetch);
      ghost var fetching := Pod(at, Contents(), h);
      assert CloneLife(i, Pod(Init(CheckDir), Contents(), h), source, got, own, n)
          == CloneLife(i, fetching, source, got, own, n - 1);
      if n == 1 { return; }
      if source.phase == Main(Serve) && got != Nothing {
        var all := got.Complete?;
        data := if all && source.node.data.Prepared? then Unprepared(source.node.data.rows) else Torn;
        slaveInfo := if all || got.slaveInfo then source.node.master else None;
        binlogInfo := if all then Some(At(Coord(i - 1, own))) else got.binlogInfo;
        h' := h'.(interrupted := h'.interrupted || !all);
      }
      at := Init(Prepare);
      assert CloneLife(i, fetching, source, got, own, n - 1)
          == CloneLife(i, Pod(at, Contents(), h'), source, got, own, n - 2);
      if n == 2 { return; }
      if data.Unprepared? {
        at, data := Main(TestInfo), Prepared(data.rows);
      } else {
        at := Init(CheckDir);
      }
    }

    /** Lines 108-120: turn what the clone left into change_master_to.sql.in. `t` commands are executed
        when it stops, which is at line 122 unless the container is killed before; or the script has
        exited at line 116. */
    method DetermineCoordinates(ready: seq<bool>) returns (pc: Pc, t: nat, exited: bool)
      modifies this
      ensures t <= |ready| && (exited || pc == TestIn || t == |ready|)
      ensures Life(old(Contents()), TestInfo, ready)
           == if exited then (Contents(), TestInfo) else Life(Contents(), pc, ready[t..])
    {
      hide Life;
      assert ready[0..] == ready;
      t, pc, exited := 0, TestInfo, false;
      if t == |ready| { return; }
      LifeStep(Contents(), pc, ready, t);
      t := t + 1;
      if slaveInfo.Some? {
        pc := MvSlaveInfo;
        if t == |ready| { return; }
        LifeStep(Contents(), pc, ready, t);
        slaveInfo, sqlIn, t := None, Some(Query(slaveInfo.value)), t + 1;
        pc := RmBinlog;
        if t == |ready| { return; }
        LifeStep(Contents(), pc, ready, t);
        binlogInfo, t := None, t + 1;
      } else if binlogInfo.Some? {
        pc := ReadBinlog;
        if t == |ready| { return; }
        LifeStep(Contents(), pc, ready, t);
        t := t + 1;
        if binlogInfo.value.Garbled? {
          exited := true;
          return;
        }
        var bashRematch := binlogInfo.value.coord;
        pc := RmBinlogInfo(bashRematch);
        if t == |ready| { return; }
        LifeStep(Contents(), pc, ready, t);
        binlogInfo, t := None, t + 1;
        pc := CreateIn(bashRematch);
        if t == |ready| { return; }
        LifeStep(Contents(), pc, ready, t);
        sqlIn, t := Some(Blank), t + 1;
        pc := WriteIn(bashRematch);
        if t == |ready| { return; }
        LifeStep(Contents(), pc, ready, t);
        sqlIn, t := Some(Query(bashRematch)), t + 1;
      }
      pc := TestIn;
    }

    /** Line 124: wait for mysqld to accept connections. */
    method AwaitMysqld(ready: seq<bool>, from: nat) returns (pc: Pc, t: nat)
      requires from <= |ready|
      ensures from <= t <= |ready| && (pc == MvIn || (pc == WaitMysqld && t == |ready|))
      ensures Life(Contents(), WaitMysqld, ready[from..]) == Life(Contents(), pc, ready[t..])
      ensures forall j :: from <= j < t - 1 ==> !ready[j]
      ensures pc == MvIn <==> from < t && ready[t - 1]
    {
      hide Life;
      pc, t := WaitMysqld, from;
      while pc != MvIn && t < |ready|
        invariant from <= t <= |ready|
        invariant pc == MvIn || pc == WaitMysqld
        invariant forall j :: from <= j < t - 1 ==> !ready[j]
        invariant pc == MvIn <==> from < t && ready[t - 1]
        invariant Life(Contents(), WaitMysqld, ready[from..]) == Life(Contents(), pc, ready[t..])
      {
        LifeStep(Contents(), pc, ready, t);
        pc := if ready[t] then MvIn else WaitMysqld;
        t := t + 1;
      }
    }

    /** Lines 127-135: rename the file, then send the two statements. */
    method StartReplication(ready: seq<bool>, from: nat) returns (pc: Pc)
      requires from <= |ready| && sqlIn.Some?
      modifies this
      ensures (Contents(), pc) == Life(old(Contents()), MvIn, ready[from..])
    {
      var t := from;
      pc := MvIn;
      if t == |ready| { return; }
      LifeStep(Contents(), pc, ready, t);
      sqlOrig, sqlIn, t := sqlIn, None, t + 1;
      pc := ChangeMaster;
      if t == |ready| { return; }
      LifeStep(Contents(), pc, ready, t);
      if !ready[t] || sqlOrig.value.Blank? {
        pc := TestInfo;
        return;
      }
      master, t := Some(sqlOrig.value.coord), t + 1;
      pc := StartSlave;
      if t == |ready| { return; }
      LifeStep(Contents(), pc, ready, t);
      if !ready[t] {
        pc := TestInfo;
        return;
      }
      running, t := true, t + 1;
      pc := Serve;
      ServeStays(Contents(), ready[t..]);
    }

    /** The script, from its first line to serving backups. */
    method Run(ready: seq<bool>) returns (pc: Pc)
      modifies this
      ensures (Contents(), pc) == Life(old(Contents()), TestInfo, ready)
      ensures true !in ready ==> sqlOrig == old(sqlOrig) && master == old(master) && running == old(running)
    {
      LifeUnanswered(Contents(), TestInfo, ready);
      var t, exited;
      pc, t, exited := DetermineCoordinates(ready);
      if exited { return TestInfo; }
      if t == |ready| { return; }
      LifeStep(Contents(), pc, ready, t);
      t := t + 1;
      if sqlIn.Some? {
        pc, t := AwaitMysqld(ready, t);
        if t == |ready| { return; }
        pc := StartReplication(ready, t);
      } else {
        pc := Serve;
        ServeStays(Contents(), ready[t..]);
      }
    }
  }

  lemma {:induction false} ServeStays(n: Node, ready: seq<bool>)
    ensures Life(n, Serve, ready) == (n, Serve)
  {
    if ready != [] {
      ServeStays(n, ready[1..]);
    }
  }
}
