/**
 * The Python string operations the installation manager relies on, over `seq<char>`:
 * `startswith`/`endswith`, `split` and `join` on one separator, iteration over the lines
 * of a text file, and replacing one character by another.
 */
module Text {

  /** `s.startswith(prefix)` */
  predicate StartsWith(s: string, prefix: string) {
    |prefix| <= |s| && s[..|prefix|] == prefix
  }

  /** `s.endswith(suffix)` */
  predicate EndsWith(s: string, suffix: string) {
    |suffix| <= |s| && s[|s| - |suffix|..] == suffix
  }

  /** `d.join(parts)` */
  function JoinWith(parts: seq<string>, d: char): string {
    if |parts| == 0 then ""
    else if |parts| == 1 then parts[0]
    else parts[0] + [d] + JoinWith(parts[1..], d)
  }

  /** `s.split(d)`: the pieces between the separators; never empty, and joining them back gives `s`. */
  function Split(s: string, d: char): (r: seq<string>)
    ensures |r| >= 1
    ensures JoinWith(r, d) == s
    ensures forall i :: 0 <= i < |r| ==> d !in r[i]
    decreases |s|
  {
    if s == [] then [[]]
    else
      var rest := Split(s[1..], d);
      if s[0] == d then
        [[]] + rest
      else
        assert s == [s[0]] + s[1..];
        [[s[0]] + rest[0]] + rest[1..]
  }

  lemma {:induction false} SplitWithoutSeparator(x: string, d: char)
    requires d !in x
    ensures Split(x, d) == [x]
    decreases |x|
  {
    if x != [] {
      SplitWithoutSeparator(x[1..], d);
    }
  }

  lemma {:induction false} SplitAfterPiece(x: string, y: string, d: char)
    requires d !in x
    ensures Split(x + [d] + y, d) == [x] + Split(y, d)
    decreases |x|
  {
    var s := x + [d] + y;
    if x == [] {
      assert s[1..] == y;
    } else {
      assert s[1..] == x[1..] + [d] + y;
      SplitAfterPiece(x[1..], y, d);
      assert [x[0]] + x[1..] == x;
    }
  }

  /** Splitting undoes joining, for pieces that do not contain the separator. */
  lemma {:induction false} SplitJoinWith(parts: seq<string>, d: char)
    requires |parts| >= 1
    requires forall i :: 0 <= i < |parts| ==> d !in parts[i]
    ensures Split(JoinWith(parts, d), d) == parts
    decreases |parts|
  {
    if |parts| == 1 {
      SplitWithoutSeparator(parts[0], d);
    } else {
      SplitAfterPiece(parts[0], JoinWith(parts[1..], d), d);
      SplitJoinWith(parts[1..], d);
      assert [parts[0]] + parts[1..] == parts;
    }
  }

  /** The texts of `lines`, one after the other. */
  function Concat(lines: seq<string>): string {
    if lines == [] then "" else lines[0] + Concat(lines[1..])
  }

  lemma {:induction false} ConcatAppend(a: seq<string>, b: seq<string>)
    ensures Concat(a + b) == Concat(a) + Concat(b)
    decreases |a|
  {
    if a == [] {
      assert a + b == b;
    } else {
      assert (a + b)[1..] == a[1..] + b;
      ConcatAppend(a[1..], b);
    }
  }

  /**
   * A sequence of lines as Python yields them when it iterates over a text file: every line keeps
   * its terminating '\n', only the last one may lack it, and none is empty.
   */
  predicate LineList(ls: seq<string>) {
    forall i :: 0 <= i < |ls| ==>
      ls[i] != [] && '\n' !in ls[i][..|ls[i]| - 1] && (i < |ls| - 1 ==> ls[i][|ls[i]| - 1] == '\n')
  }

  /** The lines of a text file holding `s`, as iterating over the file yields them. */
  function Lines(s: string): (r: seq<string>)
    ensures Concat(r) == s
    decreases |s|
  {
    if s == [] then []
    else
      var rest := Lines(s[1..]);
      if s[0] == '\n' || rest == [] then
        [[s[0]]] + rest
      else
        [[s[0]] + rest[0]] + rest[1..]
  }

  /** What `Lines` yields is a line list. */
  lemma {:induction false} LinesAreLineList(s: string)
    ensures LineList(Lines(s))
    decreases |s|
  {
    if s != [] {
      var rest := Lines(s[1..]);
      LinesAreLineList(s[1..]);
      var r := Lines(s);
      if s[0] == '\n' || rest == [] {
        assert r == [[s[0]]] + rest;
        assert forall i :: 1 <= i < |r| ==> r[i] == rest[i - 1];
      } else {
        var first := [s[0]] + rest[0];
        assert r == [first] + rest[1..];
        assert first[..|first| - 1] == [s[0]] + rest[0][..|rest[0]| - 1];
        assert forall i :: 1 <= i < |r| ==> r[i] == rest[i];
      }
    }
  }

  lemma {:induction false} LinesOfOneLine(l: string)
    requires l != [] && '\n' !in l[..|l| - 1]
    ensures Lines(l) == [l]
    decreases |l|
  {
    if |l| > 1 {
      var t := l[1..];
      assert t[..|t| - 1] == l[1..|l| - 1];
      LinesOfOneLine(t);
      assert l[0] != '\n' by { assert l[0] == l[..|l| - 1][0]; }
      assert [l[0]] + t == l;
      LinesConsJoined(l[0], t);
    } else {
      assert l[1..] == [];
      assert Lines(l[1..]) == [];
      assert Lines(l) == [[l[0]]] + [];
      assert l == [l[0]];
    }
  }

  /** One step of `Lines`: a first character that starts a line of its own. */
  lemma LinesConsAlone(ch: char, x: string)
    requires ch == '\n' || x == []
    ensures Lines([ch] + x) == [[ch]] + Lines(x)
  {
    assert ([ch] + x)[1..] == x;
  }

  /** One step of `Lines`: a first character that joins the first line of the rest. */
  lemma LinesConsJoined(ch: char, x: string)
    requires ch != '\n' && x != []
    ensures Lines(x) != [] && Lines([ch] + x) == [[ch] + Lines(x)[0]] + Lines(x)[1..]
  {
    assert ([ch] + x)[1..] == x;
    assert Concat(Lines(x)) == x;
  }

  lemma {:induction false} LinesAppendLine(s: string, l: string)
    requires s == [] || s[|s| - 1] == '\n'
    requires l != [] && '\n' !in l[..|l| - 1]
    ensures Lines(s + l) == Lines(s) + [l]
    decreases |s|
  {
    if s == [] {
      assert s + l == l;
      LinesOfOneLine(l);
    } else {
      var t := s[1..];
      assert s == [s[0]] + t;
      assert s + l == [s[0]] + (t + l);
      assert t == [] || t[|t| - 1] == '\n';
      LinesAppendLine(t, l);
      var lt := Lines(t);
      if s[0] == '\n' {
        LinesConsAlone(s[0], t + l);
        LinesConsAlone(s[0], t);
      } else {
        assert t != [];
        LinesConsJoined(s[0], t + l);
        LinesConsJoined(s[0], t);
        assert (lt + [l])[1..] == lt[1..] + [l];
      }
    }
  }

  /** A line ending in '\n' is split off from whatever follows it. */
  lemma {:induction false} LinesAfterLine(l: string, rest: string)
    requires l != [] && '\n' !in l[..|l| - 1] && l[|l| - 1] == '\n'
    ensures Lines(l + rest) == [l] + Lines(rest)
    decreases |l|
  {
    if |l| == 1 {
      assert l + rest == [l[0]] + rest;
      LinesConsAlone(l[0], rest);
    } else {
      var t := l[1..];
      assert t != [] && '\n' !in t[..|t| - 1] && t[|t| - 1] == '\n' by {
        assert t[..|t| - 1] == l[1..|l| - 1];
      }
      assert l[0] != '\n' by { assert l[0] == l[..|l| - 1][0]; }
      assert l + rest == [l[0]] + (t + rest);
      LinesAfterLine(t, rest);
      var lr := Lines(t + rest);
      assert lr == [t] + Lines(rest);
      assert lr[0] == t && lr[1..] == Lines(rest);
      LinesConsJoined(l[0], t + rest);
      assert [l[0]] + t == l;
    }
  }

  /** Splitting the concatenation of a line list gives the list back. */
  lemma {:induction false} LinesOfLineList(ls: seq<string>)
    requires LineList(ls)
    ensures Lines(Concat(ls)) == ls
    decreases |ls|
  {
    if |ls| == 1 {
      LinesOfOneLine(ls[0]);
      assert Concat(ls) == ls[0] + Concat([]);
    } else if |ls| > 1 {
      var t := ls[1..];
      assert forall i :: 0 <= i < |t| ==> t[i] == ls[i + 1];
      LinesOfLineList(t);
      LinesAfterLine(ls[0], Concat(t));
      assert [ls[0]] + t == ls;
    }
  }

  lemma {:induction false} DropPrefixedLineList(ls: seq<string>, prefix: string)
    requires LineList(ls)
    ensures LineList(DropPrefixed(ls, prefix))
    decreases |ls|
  {
    if ls != [] {
      var t := ls[1..];
      assert forall i :: 0 <= i < |t| ==> t[i] == ls[i + 1];
      DropPrefixedLineList(t, prefix);
      var kept := DropPrefixed(t, prefix);
      if !StartsWith(ls[0], prefix) && kept != [] {
        assert |t| > 0;
        var r := DropPrefixed(ls, prefix);
        assert r == [ls[0]] + kept;
        assert forall i :: 1 <= i < |r| ==> r[i] == kept[i - 1];
      }
    }
  }

  /** The lines that do not start with `prefix`, in their original order. */
  function DropPrefixed(lines: seq<string>, prefix: string): (r: seq<string>)
    ensures |r| <= |lines|
    ensures forall i :: 0 <= i < |r| ==> !StartsWith(r[i], prefix)
  {
    if lines == [] then []
    else
      (if StartsWith(lines[0], prefix) then [] else [lines[0]]) + DropPrefixed(lines[1..], prefix)
  }

  /** The filter adds no line: the kept lines are a sub-multiset of the input. */
  lemma DropPrefixedSubMultiset(lines: seq<string>, prefix: string)
    ensures multiset(DropPrefixed(lines, prefix)) <= multiset(lines)
  {
    forall x ensures multiset(DropPrefixed(lines, prefix))[x] <= multiset(lines)[x] {
      DropPrefixedCounts(lines, prefix, x);
    }
  }

  /** Every line that does not start with `prefix` is kept as often as it occurs; the others are gone. */
  lemma {:induction false} DropPrefixedCounts(lines: seq<string>, prefix: string, x: string)
    ensures multiset(DropPrefixed(lines, prefix))[x] == if StartsWith(x, prefix) then 0 else multiset(lines)[x]
    decreases |lines|
  {
    if lines != [] {
      DropPrefixedCounts(lines[1..], prefix, x);
      assert lines == [lines[0]] + lines[1..];
    }
  }

  /** Filtering keeps the relative order: it distributes over concatenation. */
  lemma {:induction false} DropPrefixedAppend(a: seq<string>, b: seq<string>, prefix: string)
    ensures DropPrefixed(a + b, prefix) == DropPrefixed(a, prefix) + DropPrefixed(b, prefix)
    decreases |a|
  {
    if a == [] {
      assert a + b == b;
    } else {
      assert (a + b)[1..] == a[1..] + b;
      DropPrefixedAppend(a[1..], b, prefix);
    }
  }

  /** Nothing is dropped exactly when no line starts with `prefix`. */
  lemma {:induction false} DropPrefixedUnchanged(lines: seq<string>, prefix: string)
    ensures DropPrefixed(lines, prefix) == lines <==> forall i :: 0 <= i < |lines| ==> !StartsWith(lines[i], prefix)
    decreases |lines|
  {
    if lines != [] {
      var t := lines[1..];
      DropPrefixedUnchanged(t, prefix);
      if StartsWith(lines[0], prefix) {
        assert |DropPrefixed(lines, prefix)| <= |t|;
      } else {
        assert DropPrefixed(lines, prefix) == [lines[0]] + DropPrefixed(t, prefix);
        assert lines == [lines[0]] + t;
        assert (forall i :: 0 <= i < |lines| ==> !StartsWith(lines[i], prefix))
           <==> (forall i :: 0 <= i < |t| ==> !StartsWith(t[i], prefix)) by {
          assert forall i :: 0 <= i < |t| ==> t[i] == lines[i + 1];
        }
      }
    }
  }

  /** `s.replace(from, to)` for one-character strings. */
  function ReplaceChar(s: string, from: char, to: char): (r: string)
    ensures |r| == |s|
    ensures forall i :: 0 <= i < |s| ==> r[i] == if s[i] == from then to else s[i]
  {
    if s == [] then [] else [if s[0] == from then to else s[0]] + ReplaceChar(s[1..], from, to)
  }

  lemma ReplaceCharAppend(a: string, b: string, from: char, to: char)
    ensures ReplaceChar(a + b, from, to) == ReplaceChar(a, from, to) + ReplaceChar(b, from, to)
  {
    var l, r := ReplaceChar(a + b, from, to), ReplaceChar(a, from, to) + ReplaceChar(b, from, to);
    assert forall i :: 0 <= i < |l| ==> l[i] == r[i];
  }

  lemma ReplaceCharRemoves(s: string, from: char, to: char)
    requires from != to
    ensures from !in ReplaceChar(s, from, to)
  {
  }
}
