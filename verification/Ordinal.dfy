/** The init-mysql script: a pod finds its ordinal, its server id and its role in its own host name. */
module Ordinal {
  import opened Wrappers
  import opened Decimal

  /** `[[ host =~ -([0-9]+)$ ]]`: the first group of the leftmost match, if there is one. */
  function MatchOrdinal(host: string): (group: Option<string>)
    ensures group.Some? ==> group.value != [] && AllDigits(group.value)
  {
    if host == [] then None
    else if host[0] == '-' && |host| > 1 && AllDigits(host[1..]) then Some(host[1..])
    else MatchOrdinal(host[1..])
  }

  /** The value of a numeral in shell arithmetic, where a leading zero announces octal. */
  function ShellValue(s: string): Option<nat>
    requires AllDigits(s)
  {
    if |s| > 1 && s[0] == '0' then Octal(s[1..]) else Some(FromDecimal(s))
  }

  function Octal(s: string): Option<nat>
    requires AllDigits(s)
  {
    if s == [] then Some(0)
    else if s[|s| - 1] > '7' then None
    else
      var rest := Octal(s[..|s| - 1]);
      if rest.None? then None else Some(8 * rest.value + DigitValue(s[|s| - 1]))
  }

  datatype Role = MasterRole | SlaveRole

  datatype Identity = Identity(serverId: nat, role: Role)

  /** init-mysql: the server id of server-id.cnf, and which config file is copied; the script fails
      if the host name has no ordinal. */
  function InitMysql(host: string): Result<Identity> {
    var group := MatchOrdinal(host);
    if group.None? then Err
    else
      var ordinal := ShellValue(group.value);
      if ordinal.None? then Err
      else Ok(Identity(100 + ordinal.value, if ordinal.value == 0 then MasterRole else SlaveRole))
  }

  /** clone-mysql: the ordinal of the pod to clone from; the master skips the clone. */
  function CloneSource(host: string): Result<Option<nat>> {
    var group := MatchOrdinal(host);
    if group.None? then Err
    else
      var ordinal := ShellValue(group.value);
      if ordinal.None? then Err
      else if ordinal.value == 0 then Ok(None)
      else Ok(Some(ordinal.value - 1))
  }

  function HostName(name: string, i: nat): string {
    name + "-" + ToDecimal(i)
  }

  lemma {:induction false} OrdinalOfHostName(name: string, digits: string)
    requires digits != [] && AllDigits(digits)
    ensures MatchOrdinal(name + "-" + digits) == Some(digits)
  {
    var host := name + "-" + digits;
    if name == [] {
      assert host[1..] == digits;
    } else {
      assert host[1..] == name[1..] + "-" + digits;
      assert host[1..][|name| - 1] == '-';
      OrdinalOfHostName(name[1..], digits);
    }
  }

  /** And no other host name has an ordinal: a match is a hyphen and digits at the end of the name. */
  lemma {:induction false} MatchExact(host: string, digits: string)
    ensures MatchOrdinal(host) == Some(digits) <==>
              && digits != [] && AllDigits(digits) && |digits| < |host|
              && host[|host| - |digits| - 1] == '-' && host[|host| - |digits|..] == digits
  {
    if && digits != [] && AllDigits(digits) && |digits| < |host|
       && host[|host| - |digits| - 1] == '-' && host[|host| - |digits|..] == digits {
      var name := host[..|host| - |digits| - 1];
      assert host == name + "-" + digits;
      OrdinalOfHostName(name, digits);
    }
    if MatchOrdinal(host) == Some(digits) {
      MatchIsSuffix(host);
    }
  }

  lemma {:induction false} MatchIsSuffix(host: string)
    requires MatchOrdinal(host).Some?
    ensures var d := MatchOrdinal(host).value;
            |d| < |host| && host[|host| - |d| - 1] == '-' && host[|host| - |d|..] == d
  {
    if !(host[0] == '-' && |host| > 1 && AllDigits(host[1..])) {
      MatchIsSuffix(host[1..]);
    }
  }

  lemma {:induction false} OctalExact(s: string)
    requires AllDigits(s)
    ensures Octal(s).Some? <==> forall i :: 0 <= i < |s| ==> s[i] <= '7'
  {
    if s != [] {
      OctalExact(s[..|s| - 1]);
    }
  }

  /** When both scripts fail: the host name does not end in a hyphen and digits, or these digits begin with
      a zero, which announces octal, and include an 8 or a 9. */
  lemma {:induction false} ScriptsFail(host: string)
    ensures InitMysql(host).Err? <==> CloneSource(host).Err?
    ensures InitMysql(host).Ok? <==>
              exists d :: && d != [] && AllDigits(d) && |d| < |host|
                          && host[|host| - |d| - 1] == '-' && host[|host| - |d|..] == d
                          && (|d| > 1 && d[0] == '0' ==> forall i :: 0 <= i < |d| ==> d[i] <= '7')
  {
    hide MatchOrdinal, Octal, FromDecimal;
    var group := MatchOrdinal(host);
    if group.Some? {
      var d := group.value;
      MatchExact(host, d);
      OctalExact(d[1..]);
      assert d == [d[0]] + d[1..];
    }
    forall d | d != [] && AllDigits(d) && |d| < |host| && host[|host| - |d| - 1] == '-' && host[|host| - |d|..] == d
      ensures group == Some(d)
    {
      MatchExact(host, d);
    }
  }

  /** mysql-010 would be pod 8: the ordinals of a StatefulSet have no leading zeros. */
  lemma OctalOrdinal()
    ensures InitMysql("mysql-010") == Ok(Identity(108, SlaveRole)) && CloneSource("mysql-010") == Ok(Some(7))
  {
    OrdinalOfHostName("mysql", "010");
    hide MatchOrdinal, FromDecimal;
    assert "mysql-010" == "mysql" + "-" + "010";
    assert "010"[1..] == "10" && "10"[..1] == "1" && "1"[..0] == "";
    assert Octal("1") == Some(8 * 0 + 1);
    assert Octal("10") == Some(8);
  }

  /** Whatever the StatefulSet is called, even with hyphens and digits at its end, pod i gets server
      id 100+i, exactly ordinal 0 is the master and clones from nobody, and every other pod clones
      from the ordinal before it. */
  lemma PodIdentity(name: string, i: nat)
    ensures InitMysql(HostName(name, i)) == Ok(Identity(100 + i, if i == 0 then MasterRole else SlaveRole))
    ensures CloneSource(HostName(name, i)) == Ok(if i == 0 then None else Some(i - 1))
  {
    OrdinalOfHostName(name, ToDecimal(i));
    FromToDecimal(i);
  }

  lemma ServerIdsDistinct(name: string, i: nat, j: nat)
    requires i != j
    ensures var a, b := InitMysql(HostName(name, i)), InitMysql(HostName(name, j));
            a.Ok? && b.Ok? && a.value.serverId != b.value.serverId && a.value.serverId != 0
  {
    PodIdentity(name, i);
    PodIdentity(name, j);
  }
}
