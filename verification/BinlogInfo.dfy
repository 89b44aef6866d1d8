/** How the sidecar script takes xtrabackup_binlog_info apart: two groups around white space, where
    the first group takes as much of the line as it can. */
module BinlogInfo {
  import opened Wrappers

  predicate Space(c: char) {
    c in {' ', '\t', '\n', '\U{B}', '\U{C}', '\r'}
  }

  predicate NoSpace(s: string) {
    forall i :: 0 <= i < |s| ==> !Space(s[i])
  }

  /** The two groups of the match, split at the last white space; the script fails without one. */
  function Match(line: string): Option<(string, string)> {
    if line == [] then None
    else if Space(line[|line| - 1]) then Some((line[..|line| - 1], ""))
    else
      var groups :- Match(line[..|line| - 1]);
      Some((groups.0, groups.1 + [line[|line| - 1]]))
  }

  /** A line of a file name and a position is taken apart correctly. */
  lemma {:induction false} TwoColumns(file: string, tab: char, pos: string)
    requires Space(tab) && NoSpace(pos)
    ensures Match(file + [tab] + pos) == Some((file, pos))
    decreases |pos|
  {
    var line := file + [tab] + pos;
    if pos == [] {
      assert line[..|line| - 1] == file;
    } else {
      var k := |pos| - 1;
      assert line[..|line| - 1] == file + [tab] + pos[..k];
      TwoColumns(file, tab, pos[..k]);
      assert pos[..k] + [pos[k]] == pos;
    }
  }

  /** And no other line yields these two groups. */
  lemma {:induction false} MatchExact(line: string, file: string, pos: string)
    ensures Match(line) == Some((file, pos)) <==>
              NoSpace(pos) && |line| == |file| + 1 + |pos|
              && line[..|file|] == file && Space(line[|file|]) && line[|file| + 1..] == pos
  {
    if NoSpace(pos) && |line| == |file| + 1 + |pos|
       && line[..|file|] == file && Space(line[|file|]) && line[|file| + 1..] == pos {
      assert line == file + [line[|file|]] + pos;
      TwoColumns(file, line[|file|], pos);
    }
    if Match(line) == Some((file, pos)) {
      MatchSplits(line);
    }
  }

  lemma {:induction false} MatchSplits(line: string)
    requires Match(line).Some?
    ensures var (file, pos) := Match(line).value;
            NoSpace(pos) && |line| == |file| + 1 + |pos|
            && line[..|file|] == file && Space(line[|file|]) && line[|file| + 1..] == pos
  {
    var k := |line| - 1;
    if !Space(line[k]) {
      MatchSplits(line[..k]);
      var (file, pos) := Match(line[..k]).value;
      assert line[..|file|] == line[..k][..|file|];
      assert line[|file| + 1..] == line[..k][|file| + 1..] + [line[k]];
    }
  }

  /** In particular, a line with a third column, as servers with GTIDs write it, yields the file name
      and the position together as the first group. */
  lemma ThirdColumn(file: string, tab: char, pos: string, gtids: string)
    requires Space(tab) && NoSpace(gtids)
    ensures Match(file + [tab] + pos + [tab] + gtids) == Some((file + [tab] + pos, gtids))
  {
    TwoColumns(file + [tab] + pos, tab, gtids);
  }
}
