// The JavaScript string operations the core relies on: `split` on one
// character, `join`, `includes`, `trim`, and "replace every run of these
// characters by one character" (a global regular-expression replace of
// `[...]+`).
module Strings {

  /** The position of the first `c` in `s`. */
  function IndexOf(s: string, c: char): (i: nat)
    requires c in s
    ensures i < |s| && s[i] == c && c !in s[..i]
  {
    if s[0] == c then 0 else 1 + IndexOf(s[1..], c)
  }

  /** `s.split(sep)` for a one-character separator. */
  function Split(s: string, sep: char): (parts: seq<string>)
    ensures |parts| >= 1
    ensures forall i :: 0 <= i < |parts| ==> sep !in parts[i]
    decreases |s|
  {
    if sep !in s then [s]
    else
      var i := IndexOf(s, sep);
      [s[..i]] + Split(s[i + 1..], sep)
  }

  /** `parts.join(sep)`. */
  function Join(parts: seq<string>, sep: string): string
  {
    if parts == [] then ""
    else if |parts| == 1 then parts[0]
    else parts[0] + sep + Join(parts[1..], sep)
  }

  /** Joining the pieces of a split with the same separator gives the string back. */
  lemma {:induction false} JoinSplit(s: string, sep: char)
    ensures Join(Split(s, sep), [sep]) == s
    decreases |s|
  {
    if sep in s {
      var i := IndexOf(s, sep);
      var rest := Split(s[i + 1..], sep);
      JoinCons(s[..i], rest, [sep]);
      JoinSplit(s[i + 1..], sep);
      assert s == s[..i] + [sep] + s[i + 1..];
    }
  }

  lemma JoinCons(head: string, rest: seq<string>, sep: string)
    requires |rest| >= 1
    ensures Join([head] + rest, sep) == head + sep + Join(rest, sep)
  {
    assert ([head] + rest)[1..] == rest;
  }

  /** Splitting a join of separator-free pieces gives the pieces back. */
  lemma {:induction false} SplitJoin(parts: seq<string>, sep: char)
    requires |parts| >= 1
    requires forall i :: 0 <= i < |parts| ==> sep !in parts[i]
    ensures Split(Join(parts, [sep]), sep) == parts
  {
    if |parts| > 1 {
      var s := Join(parts, [sep]);
      var rest := Join(parts[1..], [sep]);
      assert s == parts[0] + [sep] + rest;
      IndexOfAfter(parts[0], sep, rest);
      assert s[..|parts[0]|] == parts[0];
      assert s[|parts[0]| + 1..] == rest;
      SplitJoin(parts[1..], sep);
    }
  }

  lemma {:induction false} IndexOfAfter(a: string, sep: char, b: string)
    requires sep !in a
    ensures sep in a + [sep] + b && IndexOf(a + [sep] + b, sep) == |a|
  {
    assert (a + [sep] + b)[|a|] == sep;
    if a != [] {
      assert (a + [sep] + b)[1..] == a[1..] + [sep] + b;
      IndexOfAfter(a[1..], sep, b);
    }
  }

  /** `s.split(sep)[0]`: the text before the first separator. */
  function FirstField(s: string, sep: char): (f: string)
    ensures sep !in f
    ensures f == s || (|f| < |s| && s[|f|] == sep)
    ensures f == s[..|f|]
  {
    Split(s, sep)[0]
  }

  /** `s.split(sep)` taken at its last piece: the text after the last separator. */
  function LastField(s: string, sep: char): (f: string)
    ensures sep !in f
    decreases |s|
  {
    if sep !in s then s
    else LastField(s[IndexOf(s, sep) + 1..], sep)
  }

  /** The last field is a suffix of the string: all of it, or what follows a separator. */
  predicate IsLastFieldOf(f: string, s: string, sep: char)
  {
    |f| <= |s| && f == s[|s| - |f|..] && (f == s || s[|s| - |f| - 1] == sep)
  }

  lemma {:induction false} LastFieldSuffix(s: string, sep: char)
    ensures IsLastFieldOf(LastField(s, sep), s, sep)
    decreases |s|
  {
    if sep in s {
      LastFieldSuffix(s[IndexOf(s, sep) + 1..], sep);
      LastFieldSuffixStep(s, sep);
    }
  }

  lemma LastFieldSuffixStep(s: string, sep: char)
    requires sep in s
    requires var t := s[IndexOf(s, sep) + 1..]; IsLastFieldOf(LastField(t, sep), t, sep)
    ensures IsLastFieldOf(LastField(s, sep), s, sep)
  {
    var i := IndexOf(s, sep);
    assert LastField(s, sep) == LastField(s[i + 1..], sep);
    SuffixOfTail(s, i, LastField(s[i + 1..], sep), sep);
  }

  /** A last field of what follows position `i`, where `s` has a separator, is a last field of `s`. */
  lemma SuffixOfTail(s: string, i: nat, f: string, sep: char)
    requires i < |s| && s[i] == sep && IsLastFieldOf(f, s[i + 1..], sep)
    ensures IsLastFieldOf(f, s, sep)
  {
    var t := s[i + 1..];
    var j := |t| - |f|;
    assert i + 1 + j == |s| - |f|;
    DropOfDrop(s, i + 1, j);
    if f == t {
      assert s[|s| - |f| - 1] == s[i];
    } else {
      assert s[|s| - |f| - 1] == t[|t| - |f| - 1];
    }
  }

  lemma DropOfDrop(s: string, i: nat, j: nat)
    requires i + j <= |s|
    ensures s[i..][j..] == s[i + j..]
  {
  }

  lemma {:induction false} LastOfSplit(s: string, sep: char)
    ensures Split(s, sep)[|Split(s, sep)| - 1] == LastField(s, sep)
    decreases |s|
  {
    if sep in s {
      var t := s[IndexOf(s, sep) + 1..];
      LastOfSplit(t, sep);
      assert Split(s, sep) == [s[..IndexOf(s, sep)]] + Split(t, sep);
    } else {
      assert Split(s, sep) == [s];
    }
  }

  /** `s.includes(sub)`. */
  predicate Contains(s: string, sub: string)
  {
    exists i :: 0 <= i <= |s| && OccursAt(s, sub, i)
  }

  predicate OccursAt(s: string, sub: string, i: nat)
  {
    i + |sub| <= |s| && s[i..i + |sub|] == sub
  }

  /** The white space that JavaScript's `\s` and `trim` recognise. */
  const SpaceChars: set<char> := {
    ' ', '\t', '\n', '\r', '\U{000B}', '\U{000C}', '\U{00A0}', '\U{1680}',
    '\U{2000}', '\U{2001}', '\U{2002}', '\U{2003}', '\U{2004}', '\U{2005}',
    '\U{2006}', '\U{2007}', '\U{2008}', '\U{2009}', '\U{200A}',
    '\U{2028}', '\U{2029}', '\U{202F}', '\U{205F}', '\U{3000}', '\U{FEFF}'
  }

  predicate IsSpace(c: char)
  {
    c in SpaceChars
  }

  function TrimStart(s: string): (r: string)
    ensures |r| <= |s| && r == s[|s| - |r|..]
    ensures r == [] || !IsSpace(r[0])
    ensures forall i :: 0 <= i < |s| - |r| ==> IsSpace(s[i])
  {
    if s != [] && IsSpace(s[0]) then TrimStart(s[1..]) else s
  }

  function TrimEnd(s: string): (r: string)
    ensures |r| <= |s| && r == s[..|r|]
    ensures r == [] || !IsSpace(r[|r| - 1])
    ensures forall i :: |r| <= i < |s| ==> IsSpace(s[i])
  {
    if s != [] && IsSpace(s[|s| - 1]) then TrimEnd(s[..|s| - 1]) else s
  }

  /** `s.trim()`. */
  function Trim(s: string): string
  {
    TrimEnd(TrimStart(s))
  }

  /** Trimming only removes characters. */
  lemma TrimKeeps(s: string)
    ensures forall c :: c in Trim(s) ==> c in s
  {
    var ts := TrimStart(s);
    assert forall c :: c in ts ==> c in s by {
      forall c | c in ts ensures c in s {
        var i :| 0 <= i < |ts| && ts[i] == c;
        assert s[|s| - |ts| + i] == c;
      }
    }
    var te := TrimEnd(ts);
    forall c | c in te ensures c in ts {
      var i :| 0 <= i < |te| && te[i] == c;
      assert ts[i] == c;
    }
  }

  /** A string with no white space is its own trim. */
  lemma TrimNoSpace(s: string)
    requires forall i :: 0 <= i < |s| ==> !IsSpace(s[i])
    ensures Trim(s) == s
  {
    assert TrimStart(s) == s;
  }

  /** Drops the leading characters of `s` that belong to `run`. */
  function SkipRun(s: string, run: set<char>): (r: string)
    ensures |r| <= |s| && r == s[|s| - |r|..]
    ensures r == [] || r[0] !in run
  {
    if s != [] && s[0] in run then SkipRun(s[1..], run) else s
  }

  /** `s.replace(/[run]+/g, rep)`: every maximal run of characters of `run` becomes one `rep`. */
  function CollapseRuns(s: string, run: set<char>, rep: char): string
    decreases |s|
  {
    if s == [] then []
    else if s[0] in run then [rep] + CollapseRuns(SkipRun(s, run), run, rep)
    else [s[0]] + CollapseRuns(s[1..], run, rep)
  }

  /** No character of `run` other than `rep` survives, and nothing new besides `rep` appears. */
  lemma {:induction false} CollapseRunsChars(s: string, run: set<char>, rep: char)
    ensures forall c :: c in CollapseRuns(s, run, rep) ==> c == rep || (c in s && c !in run)
    decreases |s|
  {
    if s != [] {
      if s[0] in run {
        CollapseRunsChars(SkipRun(s, run), run, rep);
      } else {
        CollapseRunsChars(s[1..], run, rep);
      }
    }
  }

  /** A string that does not open with a run keeps its first character. */
  lemma CollapseRunsHead(s: string, run: set<char>, rep: char)
    requires s != [] && s[0] !in run
    ensures CollapseRuns(s, run, rep)[0] == s[0]
  {
  }

  /** When `rep` itself belongs to `run`, no two `rep`s end up side by side. */
  lemma {:induction false} CollapseRunsNoDouble(s: string, run: set<char>, rep: char)
    requires rep in run
    ensures forall i :: 0 <= i < |CollapseRuns(s, run, rep)| - 1 ==>
      !(CollapseRuns(s, run, rep)[i] == rep && CollapseRuns(s, run, rep)[i + 1] == rep)
    decreases |s|
  {
    if s != [] {
      var r := CollapseRuns(s, run, rep);
      if s[0] in run {
        var t := SkipRun(s, run);
        CollapseRunsNoDouble(t, run, rep);
        if t != [] {
          CollapseRunsHead(t, run, rep);
        }
        assert r == [rep] + CollapseRuns(t, run, rep);
        forall i | 0 <= i < |r| - 1 ensures !(r[i] == rep && r[i + 1] == rep) {
          if i > 0 {
            assert r[i] == CollapseRuns(t, run, rep)[i - 1];
          }
        }
      } else {
        CollapseRunsNoDouble(s[1..], run, rep);
        assert r == [s[0]] + CollapseRuns(s[1..], run, rep);
        forall i | 0 <= i < |r| - 1 ensures !(r[i] == rep && r[i + 1] == rep) {
          if i > 0 {
            assert r[i] == CollapseRuns(s[1..], run, rep)[i - 1];
          }
        }
      }
    }
  }

  /** A string whose runs are already single `rep`s is left as it is. */
  lemma {:induction false} CollapseRunsIdentity(s: string, run: set<char>, rep: char)
    requires forall i :: 0 <= i < |s| && s[i] in run ==> s[i] == rep
    requires forall i :: 0 <= i < |s| - 1 && s[i] in run ==> s[i + 1] !in run
    ensures CollapseRuns(s, run, rep) == s
    decreases |s|
  {
    if s != [] {
      if s[0] in run {
        assert SkipRun(s, run) == s[1..] by {
          if |s| > 1 {
            assert s[1] !in run;
            assert SkipRun(s[1..], run) == s[1..];
          }
        }
      }
      CollapseRunsIdentity(s[1..], run, rep);
    }
  }

  /** Collapsing distributes over a cut that does not fall inside a run. */
  lemma {:induction false} CollapseRunsConcat(a: string, b: string, run: set<char>, rep: char)
    requires a == [] || b == [] || a[|a| - 1] !in run || b[0] !in run
    ensures CollapseRuns(a + b, run, rep) == CollapseRuns(a, run, rep) + CollapseRuns(b, run, rep)
    decreases |a|
  {
    if a == [] {
      assert a + b == b;
    } else if a[0] in run {
      SkipRunKeepsLast(a, run);
      CollapseRunsConcat(SkipRun(a, run), b, run, rep);
      CollapseRunsRunHead(a, b, run, rep);
    } else {
      CollapseRunsConcat(a[1..], b, run, rep);
      CollapseRunsPlainHead(a, b, run, rep);
    }
  }

  /** What a run skips never reaches the last character, unless it skips everything. */
  lemma SkipRunKeepsLast(a: string, run: set<char>)
    requires a != []
    ensures var t := SkipRun(a, run); t == [] || t[|t| - 1] == a[|a| - 1]
  {
  }

  lemma CollapseRunsRunHead(a: string, b: string, run: set<char>, rep: char)
    requires a != [] && a[0] in run && (b == [] || a[|a| - 1] !in run || b[0] !in run)
    requires var t := SkipRun(a, run);
             CollapseRuns(t + b, run, rep) == CollapseRuns(t, run, rep) + CollapseRuns(b, run, rep)
    ensures CollapseRuns(a + b, run, rep) == CollapseRuns(a, run, rep) + CollapseRuns(b, run, rep)
  {
    var t := SkipRun(a, run);
    assert (a + b)[0] == a[0];
    SkipRunConcat(a, b, run);
    assert CollapseRuns(a + b, run, rep) == [rep] + CollapseRuns(t + b, run, rep);
    assert CollapseRuns(a, run, rep) == [rep] + CollapseRuns(t, run, rep);
    AppendAssoc([rep], CollapseRuns(t, run, rep), CollapseRuns(b, run, rep));
  }

  lemma CollapseRunsPlainHead(a: string, b: string, run: set<char>, rep: char)
    requires a != [] && a[0] !in run
    requires CollapseRuns(a[1..] + b, run, rep) == CollapseRuns(a[1..], run, rep) + CollapseRuns(b, run, rep)
    ensures CollapseRuns(a + b, run, rep) == CollapseRuns(a, run, rep) + CollapseRuns(b, run, rep)
  {
    assert (a + b)[0] == a[0];
    assert (a + b)[1..] == a[1..] + b;
    assert CollapseRuns(a + b, run, rep) == [a[0]] + CollapseRuns(a[1..] + b, run, rep);
    assert CollapseRuns(a, run, rep) == [a[0]] + CollapseRuns(a[1..], run, rep);
    AppendAssoc([a[0]], CollapseRuns(a[1..], run, rep), CollapseRuns(b, run, rep));
  }

  lemma AppendAssoc(x: string, y: string, z: string)
    ensures x + (y + z) == (x + y) + z
  {
  }

  lemma {:induction false} SkipRunConcat(a: string, b: string, run: set<char>)
    requires a != [] && (b == [] || a[|a| - 1] !in run || b[0] !in run)
    ensures SkipRun(a + b, run) == SkipRun(a, run) + b
    decreases |a|
  {
    if a[0] in run {
      SkipRunHead(a, b, run);
      if |a| == 1 {
        assert a[1..] == [] && a[1..] + b == b;
        assert b == [] || b[0] !in run;
      } else {
        assert a[1..][|a| - 2] == a[|a| - 1];
        SkipRunConcat(a[1..], b, run);
      }
    } else {
      assert (a + b)[0] == a[0];
    }
  }

  lemma SkipRunHead(a: string, b: string, run: set<char>)
    requires a != [] && a[0] in run
    ensures SkipRun(a + b, run) == SkipRun(a[1..] + b, run)
    ensures SkipRun(a, run) == SkipRun(a[1..], run)
  {
    assert (a + b)[0] == a[0];
    assert (a + b)[1..] == a[1..] + b;
  }
}
