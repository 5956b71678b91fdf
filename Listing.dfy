/**
 * The inputs pe2_load_data (scripts/commands.py) prepares around the
 * conversion: the lines of the image listing as readlines() returns them,
 * the file name each line names, the map from file name to the fixed data
 * directory, and the configured channel keys with their spaces removed.
 */
module Listing {
  import opened Text

  /** The length of the first line of `t`: up to and including its first newline, or all of `t`. */
  function LineLength(t: string): (n: nat)
    requires t != []
    ensures 1 <= n <= |t|
    ensures forall i :: 0 <= i < n - 1 ==> t[i] != '\n'
    ensures n < |t| ==> t[n - 1] == '\n'
    decreases |t|
  {
    if t[0] == '\n' || |t| == 1 then 1 else 1 + LineLength(t[1..])
  }

  /**
   * file.readlines(): the lines of `t` in order, each keeping its newline;
   * the last may lack one. `t` is the text after text mode has turned
   * "\r\n" and "\r" into "\n".
   */
  function Lines(t: string): seq<string>
    decreases |t|
  {
    if t == [] then [] else var n := LineLength(t); [t[..n]] + Lines(t[n..])
  }

  /** The lines written back one after the other. */
  function Concat(lines: seq<string>): string
    decreases |lines|
  {
    if lines == [] then [] else lines[0] + Concat(lines[1..])
  }

  /** A line: not empty, and no newline except possibly as its last character. */
  predicate IsLine(l: string)
  {
    l != [] && forall j :: 0 <= j < |l| - 1 ==> l[j] != '\n'
  }

  /** readlines() loses nothing: its lines put back together are the text. */
  lemma {:induction false} LinesJoin(t: string)
    ensures Concat(Lines(t)) == t
    decreases |t|
  {
    if t != [] {
      var n := LineLength(t);
      LinesJoin(t[n..]);
      assert t == t[..n] + t[n..];
    }
  }

  /** Every line is a line, and every line but the last ends with a newline. */
  lemma {:induction false} LinesShape(t: string)
    ensures forall i :: 0 <= i < |Lines(t)| ==>
      IsLine(Lines(t)[i]) && (i < |Lines(t)| - 1 ==> Lines(t)[i][|Lines(t)[i]| - 1] == '\n')
    decreases |t|
  {
    if t != [] {
      var n := LineLength(t);
      var rest := Lines(t[n..]);
      LinesShape(t[n..]);
      var L := Lines(t);
      assert L == [t[..n]] + rest;
      assert IsLine(L[0]);
      if n == |t| {
        assert t[n..] == [];
      } else {
        assert L[0][|L[0]| - 1] == '\n';
      }
      forall i | 1 <= i < |L|
        ensures IsLine(L[i]) && (i < |L| - 1 ==> L[i][|L[i]| - 1] == '\n')
      {
        var l := rest[i - 1];
        assert L[i] == l && IsLine(l);
        if i < |L| - 1 {
          assert i - 1 < |rest| - 1;
          assert l[|l| - 1] == '\n';
        }
      }
    }
  }

  /** The number of newline characters in `t`. */
  function Newlines(t: string): nat
  {
    multiset(t)['\n']
  }

  /** A line holds one newline when it ends with one, and none otherwise. */
  lemma LineNewlines(l: string)
    requires IsLine(l)
    ensures Newlines(l) == if l[|l| - 1] == '\n' then 1 else 0
  {
    var body := l[..|l| - 1];
    assert l == body + [l[|l| - 1]];
    assert '\n' !in body;
    assert multiset(body)['\n'] == 0;
  }

  /**
   * readlines() yields one line per newline, plus one for a last line
   * that has no newline: the count `sum(1 for line in open(f))` gives.
   */
  lemma {:induction false} LinesCount(t: string)
    ensures |Lines(t)| == Newlines(t) + (if t != [] && t[|t| - 1] != '\n' then 1 else 0)
    decreases |t|
  {
    if t != [] {
      var n := LineLength(t);
      var rest := t[n..];
      LinesCount(rest);
      assert t == t[..n] + rest;
      assert multiset(t) == multiset(t[..n]) + multiset(rest);
      LineNewlines(t[..n]);
      if n == |t| {
        assert rest == [];
      } else {
        assert t[|t| - 1] == rest[|rest| - 1];
      }
    }
  }

  /** The part of `s` after its last '/': the tail os.path.split returns. */
  function AfterLastSlash(s: string): (r: string)
    ensures |r| <= |s|
    decreases |s|
  {
    if s == [] || s[|s| - 1] == '/' then [] else AfterLastSlash(s[..|s| - 1]) + [s[|s| - 1]]
  }

  /** The tail is the suffix of `s` after its last '/', and holds no '/'. */
  lemma {:induction false} AfterLastSlashShape(s: string)
    ensures var r := AfterLastSlash(s);
      && r == s[|s| - |r|..]
      && '/' !in r
      && (|r| < |s| ==> s[|s| - |r| - 1] == '/')
    decreases |s|
  {
    if s != [] && s[|s| - 1] != '/' {
      var p := s[..|s| - 1];
      AfterLastSlashShape(p);
      var q := AfterLastSlash(p);
      assert p[|p| - |q|..] + [s[|s| - 1]] == s[|s| - 1 - |q|..];
    }
  }

  /** s.rstrip(c) for a single character `c`. */
  function TrimTrailing(s: string, c: char): (r: string)
    ensures |r| <= |s| && r == s[..|r|]
    ensures forall i :: |r| <= i < |s| ==> s[i] == c
    ensures r == [] || r[|r| - 1] != c
    decreases |s|
  {
    if s == [] || s[|s| - 1] != c then s else TrimTrailing(s[..|s| - 1], c)
  }

  /** The file name a line of the listing names: its last path component, without the newline. */
  function FileName(line: string): string
  {
    TrimTrailing(AfterLastSlash(line), '\n')
  }

  /**
   * A line made of a directory, a file name and a newline names that file:
   * whatever the directory, the file name is recovered exactly.
   */
  lemma FileNameOf(dir: string, name: string)
    requires dir == [] || dir[|dir| - 1] == '/'
    requires '/' !in name && (name == [] || name[|name| - 1] != '\n')
    ensures FileName(dir + name + "\n") == name
  {
    var b := name + "\n";
    assert dir + name + "\n" == dir + b;
    AfterSlash(dir, b);
    assert b[..|b| - 1] == name;
  }

  /** After a directory ending in '/', a part without '/' is the whole tail. */
  lemma {:induction false} AfterSlash(a: string, b: string)
    requires a == [] || a[|a| - 1] == '/'
    requires '/' !in b
    ensures AfterLastSlash(a + b) == b
    decreases |b|
  {
    if b == [] {
      assert a + b == a;
    } else {
      var c := a + b;
      var init := b[..|b| - 1];
      assert c[|c| - 1] == b[|b| - 1] && b[|b| - 1] in b;
      assert c[..|c| - 1] == a + init;
      assert '/' !in init by {
        forall x | x in init ensures x != '/' {
          var k :| 0 <= k < |init| && init[k] == x;
          assert b[k] == x;
        }
      }
      AfterSlash(a, init);
      assert AfterLastSlash(c) == AfterLastSlash(a + init) + [c[|c| - 1]];
      assert b == init + [b[|b| - 1]];
    }
  }

  /** The directory every listed file is taken to be in. */
  const DataRoot := "/cromwell_root/data"

  /**
   * The listing loop of pe2_load_data: every line's file name becomes a
   * key of `paths`, mapped to the data directory.
   */
  method BuildPaths(listing: string) returns (paths: map<string, string>)
    ensures paths.Keys == set line | line in Lines(listing) :: FileName(line)
    ensures forall f :: f in paths ==> paths[f] == DataRoot
    ensures paths == Paths(listing)
  {
    var lines := Lines(listing);
    paths := map[];
    var i := 0;
    while i < |lines|
      invariant 0 <= i <= |lines|
      invariant paths.Keys == set line | line in lines[..i] :: FileName(line)
      invariant forall f :: f in paths ==> paths[f] == DataRoot
    {
      var filename := FileName(lines[i]);
      paths := paths[filename := DataRoot];
      assert lines[..i + 1] == lines[..i] + [lines[i]];
      i := i + 1;
    }
    assert lines[..i] == lines;
    assert paths.Keys == Paths(listing).Keys;
  }

  /** The file names of the listing, each mapped to the data directory. */
  function Paths(listing: string): map<string, string>
  {
    map f | f in FileNames(listing) :: DataRoot
  }

  /** The file names the lines of the listing name. */
  function FileNames(listing: string): set<string>
  {
    set line | line in Lines(listing) :: FileName(line)
  }

  /** A channel key with its spaces removed: str(k).replace(" ", ""). */
  function ChannelKey(k: string): (r: string)
    ensures ' ' !in r
  {
    RemoveAll(k, " ")
  }

  /**
   * dict([(k.replace(" ", ""), v) for (k, v) in channels.items()]): the
   * configured channels, in their configured order, keyed without spaces;
   * where two keys collapse to the same one, the later pair wins.
   */
  function NormalizeChannels(items: seq<(string, string)>): (m: map<string, string>)
    ensures forall k :: k in m ==> ' ' !in k
    decreases |items|
  {
    if items == [] then map[]
    else
      var last := items[|items| - 1];
      NormalizeChannels(items[..|items| - 1])[ChannelKey(last.0) := last.1]
  }

  /** The normalised keys are exactly the configured keys with their spaces removed. */
  lemma {:induction false} NormalizedKeys(items: seq<(string, string)>)
    ensures NormalizeChannels(items).Keys == set p | p in items :: ChannelKey(p.0)
    decreases |items|
  {
    if items != [] {
      var init := items[..|items| - 1];
      NormalizedKeys(init);
      assert items == init + [items[|items| - 1]];
    }
  }

  /** A key keeps the label of the last configured pair whose key collapses to it. */
  lemma {:induction false} NormalizedLastWins(items: seq<(string, string)>, i: int)
    requires 0 <= i < |items|
    requires forall j :: i < j < |items| ==> ChannelKey(items[j].0) != ChannelKey(items[i].0)
    ensures ChannelKey(items[i].0) in NormalizeChannels(items)
    ensures NormalizeChannels(items)[ChannelKey(items[i].0)] == items[i].1
    decreases |items|
  {
    if i < |items| - 1 {
      var init := items[..|items| - 1];
      NormalizedLastWins(init, i);
    }
  }
}
