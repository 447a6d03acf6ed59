/**
 * The few functions of Go's `strings` package that the translators and the
 * pod naming rely on, on strings of characters.
 */
module Strs {

  /** `s` starts with `p` (strings.HasPrefix). */
  predicate HasPrefix(s: string, p: string) {
    |p| <= |s| && s[..|p|] == p
  }

  /** A string that differs from `p` at some position of `p` does not start with `p`. */
  lemma DiffersAt(s: string, p: string, k: nat)
    requires k < |p| && k < |s| && s[k] != p[k]
    ensures !HasPrefix(s, p)
  {
    if |p| <= |s| {
      assert s[..|p|][k] == s[k];
    }
  }

  /** strings.TrimPrefix: `s` without the leading `p`, or `s` unchanged. */
  function TrimPrefix(s: string, p: string): (r: string)
    ensures HasPrefix(s, p) ==> p + r == s
    ensures !HasPrefix(s, p) ==> r == s
  {
    if HasPrefix(s, p) then s[|p|..] else s
  }

  /** `sub` occurs in `s` starting at index `i`. */
  ghost predicate OccursAt(s: string, sub: string, i: int) {
    0 <= i && i + |sub| <= |s| && s[i..i + |sub|] == sub
  }

  /** strings.Contains, scanning `s` from the left. */
  predicate Contains(s: string, sub: string)
    decreases |s|
  {
    HasPrefix(s, sub) || (s != [] && Contains(s[1..], sub))
  }

  /** Contains finds an occurrence at some index. */
  lemma {:induction false} OccursWhenContains(s: string, sub: string)
    requires Contains(s, sub)
    ensures exists i :: OccursAt(s, sub, i)
    decreases |s|
  {
    if HasPrefix(s, sub) {
      assert OccursAt(s, sub, 0);
    } else {
      OccursWhenContains(s[1..], sub);
      var i :| OccursAt(s[1..], sub, i);
      assert s[1..][i..i + |sub|] == s[i + 1..i + 1 + |sub|];
      assert OccursAt(s, sub, i + 1);
    }
  }

  /** An occurrence at any index is found by Contains. */
  lemma {:induction false} ContainsWhenOccurs(s: string, sub: string, i: int)
    requires OccursAt(s, sub, i)
    ensures Contains(s, sub)
    decreases i
  {
    if i > 0 {
      assert s[1..][i - 1..i - 1 + |sub|] == s[i..i + |sub|];
      ContainsWhenOccurs(s[1..], sub, i - 1);
    }
  }

  /** Contains agrees with the positional definition of an occurrence. */
  lemma ContainsIffOccurs(s: string, sub: string)
    ensures Contains(s, sub) <==> exists i :: OccursAt(s, sub, i)
  {
    if Contains(s, sub) {
      OccursWhenContains(s, sub);
    }
    if exists i :: OccursAt(s, sub, i) {
      var i :| OccursAt(s, sub, i);
      ContainsWhenOccurs(s, sub, i);
    }
  }

  /** strings.Split with a one-character separator: the pieces between separators. */
  function Split(s: string, sep: char): (parts: seq<string>)
    ensures |parts| >= 1
    ensures sep in s <==> |parts| >= 2
    ensures forall i :: 0 <= i < |parts| ==> sep !in parts[i]
    decreases |s|
  {
    if s == [] then [""]
    else
      var rest := Split(s[1..], sep);
      assert s == [s[0]] + s[1..];
      if s[0] == sep then [""] + rest
      else [[s[0]] + rest[0]] + rest[1..]
  }

  /** strings.Join. */
  function Join(parts: seq<string>, sep: string): string
    decreases |parts|
  {
    if |parts| == 0 then ""
    else if |parts| == 1 then parts[0]
    else parts[0] + sep + Join(parts[1..], sep)
  }

  /** Joining the pieces of a split with the separator gives back the string. */
  lemma {:induction false} JoinSplit(s: string, sep: char)
    ensures Join(Split(s, sep), [sep]) == s
    decreases |s|
  {
    if s != [] {
      var rest := Split(s[1..], sep);
      JoinSplit(s[1..], sep);
      assert s == [s[0]] + s[1..];
      if s[0] == sep {
        JoinCons("", rest, [sep]);
      } else {
        JoinPrepend(s[0], rest, [sep]);
      }
    }
  }

  /** Prepending a character to the first piece prepends it to the join. */
  lemma JoinPrepend(c: char, parts: seq<string>, sep: string)
    requires |parts| >= 1
    ensures Join([[c] + parts[0]] + parts[1..], sep) == [c] + Join(parts, sep)
  {
    if |parts| >= 2 {
      JoinCons([c] + parts[0], parts[1..], sep);
      assert parts == [parts[0]] + parts[1..];
      JoinCons(parts[0], parts[1..], sep);
      assert [c] + parts[0] + sep + Join(parts[1..], sep)
          == [c] + (parts[0] + sep + Join(parts[1..], sep));
    }
  }

  /** A string without the separator splits into itself alone. */
  lemma {:induction false} SplitWithoutSep(a: string, sep: char)
    requires sep !in a
    ensures Split(a, sep) == [a]
    decreases |a|
  {
    if a != [] {
      SplitWithoutSep(a[1..], sep);
      assert a == [a[0]] + a[1..];
    }
  }

  /** Splitting at the first separator: the first piece is everything before it. */
  lemma {:induction false} SplitAtFirst(a: string, sep: char, b: string)
    requires sep !in a
    ensures Split(a + [sep] + b, sep) == [a] + Split(b, sep)
    decreases |a|
  {
    if a == [] {
      assert a + [sep] + b == [sep] + b;
      SplitCons(sep, b, sep);
    } else {
      var x := a[1..] + [sep] + b;
      assert a + [sep] + b == [a[0]] + x;
      SplitAtFirst(a[1..], sep, b);
      SplitCons(a[0], x, sep);
      assert [a[0]] + a[1..] == a;
    }
  }

  /** One step of Split: the first character either ends the first piece or joins it. */
  lemma SplitCons(c: char, x: string, sep: char)
    ensures c == sep ==> Split([c] + x, sep) == [""] + Split(x, sep)
    ensures c != sep ==> Split([c] + x, sep) == [[c] + Split(x, sep)[0]] + Split(x, sep)[1..]
  {
    assert ([c] + x)[1..] == x;
  }

  /** The second piece of a split is the text between the first and second separator. */
  lemma SplitSecondPiece(pre: string, sep: char, v: string, tail: string)
    requires sep !in pre && sep !in v
    requires tail == [] || tail[0] == sep
    ensures |Split(pre + [sep] + v + tail, sep)| >= 2
    ensures Split(pre + [sep] + v + tail, sep)[1] == v
  {
    assert pre + [sep] + v + tail == pre + [sep] + (v + tail);
    SplitAtFirst(pre, sep, v + tail);
    FirstPiece(v, sep, tail);
  }

  /** The first piece of `v + tail`, when `tail` is empty or starts with the separator. */
  lemma FirstPiece(v: string, sep: char, tail: string)
    requires sep !in v
    requires tail == [] || tail[0] == sep
    ensures Split(v + tail, sep)[0] == v
  {
    if tail == [] {
      assert v + tail == v;
      SplitWithoutSep(v, sep);
    } else {
      assert v + tail == v + [sep] + tail[1..];
      SplitAtFirst(v, sep, tail[1..]);
    }
  }

  /** Join of a list with at least two pieces. */
  lemma JoinCons(x: string, rest: seq<string>, sep: string)
    requires |rest| >= 1
    ensures Join([x] + rest, sep) == x + sep + Join(rest, sep)
  {
    assert ([x] + rest)[1..] == rest;
  }

  /** Splitting a join of separator-free pieces gives back the pieces. */
  lemma {:induction false} SplitJoin(parts: seq<string>, sep: char)
    requires |parts| >= 1
    requires forall i :: 0 <= i < |parts| ==> sep !in parts[i]
    ensures Split(Join(parts, [sep]), sep) == parts
    decreases |parts|
  {
    if |parts| == 1 {
      SplitWithoutSep(parts[0], sep);
    } else {
      SplitJoin(parts[1..], sep);
      SplitAtFirst(parts[0], sep, Join(parts[1..], [sep]));
      assert [parts[0]] + parts[1..] == parts;
    }
  }

  /** Joining two non-empty lists puts one separator between their joins. */
  lemma {:induction false} JoinAppend(a: seq<string>, b: seq<string>, sep: string)
    requires |a| >= 1 && |b| >= 1
    ensures Join(a + b, sep) == Join(a, sep) + sep + Join(b, sep)
    decreases |a|
  {
    if |a| == 1 {
      assert (a + b)[1..] == b;
    } else {
      JoinAppend(a[1..], b, sep);
      assert (a + b)[1..] == a[1..] + b;
    }
  }

  /** Appending a possibly empty list adds one separator only when it is non-empty. */
  lemma JoinOptional(a: seq<string>, tail: seq<string>, sep: string)
    requires |a| >= 1
    ensures Join(a + tail, sep) == Join(a, sep) + (if tail == [] then "" else sep + Join(tail, sep))
  {
    if tail == [] {
      JoinEmptyTail(a, sep);
    } else {
      JoinAppend(a, tail, sep);
      StringAssoc(Join(a, sep), sep, Join(tail, sep));
    }
  }

  lemma JoinEmptyTail(a: seq<string>, sep: string)
    ensures Join(a + [], sep) == Join(a, sep) + ""
  {
    assert a + [] == a;
    assert Join(a, sep) + "" == Join(a, sep);
  }

  lemma StringAssoc(x: string, y: string, z: string)
    ensures x + y + z == x + (y + z)
  {
  }

  /** Join of a seven-element list, written out. */
  lemma JoinSeven(a: string, b: string, c: string, d: string, e: string, f: string, g: string, sep: string)
    ensures Join([a, b, c, d, e, f, g], sep)
      == a + sep + b + sep + c + sep + d + sep + e + sep + f + sep + g
  {
    var s6 := [f, g];
    var s5 := [e] + s6;
    var s4 := [d] + s5;
    var s3 := [c] + s4;
    var s2 := [b] + s3;
    JoinCons(f, [g], sep);
    JoinCons(e, s6, sep);
    JoinCons(d, s5, sep);
    JoinCons(c, s4, sep);
    JoinCons(b, s3, sep);
    JoinCons(a, s2, sep);
    assert [a] + s2 == [a, b, c, d, e, f, g];
  }

  /** strings.ReplaceAll for a one-character pattern. */
  function ReplaceAll(s: string, c: char, repl: string): (r: string)
    ensures forall x :: x in r ==> x in repl || (x in s && x != c)
    decreases |s|
  {
    if s == [] then ""
    else (if s[0] == c then repl else [s[0]]) + ReplaceAll(s[1..], c, repl)
  }

  /** Replacing a character that does not occur changes nothing. */
  lemma {:induction false} ReplaceAllAbsent(s: string, c: char, repl: string)
    requires c !in s
    ensures ReplaceAll(s, c, repl) == s
    decreases |s|
  {
    if s != [] {
      ReplaceAllAbsent(s[1..], c, repl);
      assert s == [s[0]] + s[1..];
    }
  }
}
