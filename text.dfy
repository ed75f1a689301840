/** String operations the export code relies on: Python's `str.startswith`,
    `str.endswith`, substring containment, `"".join` and `sep.join`. */
module Text {

  /** Python's `s.startswith(p)`. */
  predicate StartsWith(s: string, p: string) {
    |p| <= |s| && s[..|p|] == p
  }

  /** Python's `s.endswith(suffix)`. */
  predicate EndsWith(s: string, suffix: string) {
    |suffix| <= |s| && s[|s| - |suffix|..] == suffix
  }

  /** `t` occurs in `s` starting at index `k`. */
  predicate OccursAt(s: string, t: string, k: nat) {
    k + |t| <= |s| && s[k..k + |t|] == t
  }

  /** Python's `t in s` for strings. */
  predicate Contains(s: string, t: string) {
    exists k: nat | k <= |s| :: OccursAt(s, t, k)
  }

  /** Python's `"".join(parts)`. */
  function Concat(parts: seq<string>): string {
    if parts == [] then "" else parts[0] + Concat(parts[1..])
  }

  /** Python's `sep.join(parts)`: the parts in order, one `sep` between neighbours. */
  function JoinWith(parts: seq<string>, sep: string): string {
    if |parts| == 0 then ""
    else if |parts| == 1 then parts[0]
    else parts[0] + sep + JoinWith(parts[1..], sep)
  }

  lemma ContainsMiddle(a: string, t: string, b: string)
    ensures Contains(a + t + b, t)
  {
    var s := a + t + b;
    assert s[|a|..|a| + |t|] == t;
    assert OccursAt(s, t, |a|);
  }

  /** Containment is transitive: a piece of a piece is a piece. */
  lemma ContainsTransitive(s: string, t: string, u: string)
    requires Contains(s, t) && Contains(t, u)
    ensures Contains(s, u)
  {
    var k: nat :| k <= |s| && OccursAt(s, t, k);
    var j: nat :| j <= |t| && OccursAt(t, u, j);
    assert k + j + |u| <= k + |t| <= |s|;
    forall i | 0 <= i < |u|
      ensures s[k + j..k + j + |u|][i] == u[i]
    {
      assert u[i] == t[j + i] == s[k + j + i];
    }
    assert s[k + j..k + j + |u|] == u;
    assert OccursAt(s, u, k + j);
  }

  lemma StartsWithContains(s: string, p: string)
    requires StartsWith(s, p)
    ensures Contains(s, p)
  {
    assert OccursAt(s, p, 0);
  }

  lemma EndsWithContains(s: string, suffix: string)
    requires EndsWith(s, suffix)
    ensures Contains(s, suffix)
  {
    assert OccursAt(s, suffix, |s| - |suffix|);
  }

  /** Splitting the parts anywhere splits the concatenation there. */
  lemma {:induction false} ConcatSplit(parts: seq<string>, i: nat)
    requires i <= |parts|
    ensures Concat(parts) == Concat(parts[..i]) + Concat(parts[i..])
  {
    if i == 0 {
      assert parts[..0] == [];
      assert parts[0..] == parts;
    } else {
      ConcatSplit(parts[1..], i - 1);
      assert parts[1..][..i - 1] == parts[1..i];
      assert parts[1..][i - 1..] == parts[i..];
      assert parts[..i][1..] == parts[1..i];
      assert parts[..i][0] == parts[0];
    }
  }

  /** Every part of a concatenation occurs in it; the first is a prefix and
      the last a suffix. */
  lemma ConcatParts(parts: seq<string>, i: nat)
    requires i < |parts|
    ensures Contains(Concat(parts), parts[i])
    ensures i == 0 ==> StartsWith(Concat(parts), parts[0])
    ensures i == |parts| - 1 ==> EndsWith(Concat(parts), parts[i])
  {
    ConcatSplit(parts, i);
    var before, after := Concat(parts[..i]), Concat(parts[i..]);
    assert parts[i..][0] == parts[i];
    assert parts[i..][1..] == parts[i + 1..];
    assert after == parts[i] + Concat(parts[i + 1..]);
    assert Concat(parts) == before + parts[i] + Concat(parts[i + 1..]);
    ContainsMiddle(before, parts[i], Concat(parts[i + 1..]));
    if i == 0 {
      assert parts[..0] == [];
      assert Concat(parts)[..|parts[0]|] == parts[0];
    }
    if i == |parts| - 1 {
      assert parts[i + 1..] == [];
      assert Concat(parts) == before + parts[i];
    }
  }

  /** `sep.join` splits at every inner boundary: the first `i` parts, one
      separator, then the rest, so the parts keep their order. */
  lemma {:induction false} JoinWithSplit(parts: seq<string>, sep: string, i: nat)
    requires 0 < i < |parts|
    ensures JoinWith(parts, sep) == JoinWith(parts[..i], sep) + sep + JoinWith(parts[i..], sep)
  {
    if i == 1 {
      assert parts[..1] == [parts[0]];
      assert parts[1..] == parts[i..];
    } else {
      JoinWithSplit(parts[1..], sep, i - 1);
      assert parts[1..][..i - 1] == parts[1..i];
      assert parts[1..][i - 1..] == parts[i..];
      assert parts[..i][1..] == parts[1..i];
      assert parts[..i][0] == parts[0];
    }
  }

  /** `sep.join` of two or more parts starts with the first two parts and
      one separator between them. */
  lemma JoinWithFirstTwo(parts: seq<string>, sep: string)
    requires 2 <= |parts|
    ensures StartsWith(JoinWith(parts, sep), parts[0] + sep + parts[1])
  {
    var rest := JoinWith(parts[1..], sep);
    assert parts[1..][0] == parts[1];
    var after := if |parts| == 2 then "" else sep + JoinWith(parts[2..], sep);
    if |parts| > 2 {
      assert parts[1..][1..] == parts[2..];
    }
    assert rest == parts[1] + after;
    assert JoinWith(parts, sep) == (parts[0] + sep + parts[1]) + after;
    StartsWithAppend(parts[0] + sep + parts[1], after);
  }

  /** Neighbouring parts appear in `sep.join(parts)` as `left + sep + right`. */
  lemma JoinWithNeighbours(parts: seq<string>, sep: string, i: nat)
    requires i + 1 < |parts|
    ensures Contains(JoinWith(parts, sep), parts[i] + sep + parts[i + 1])
  {
    var pair := parts[i] + sep + parts[i + 1];
    var rest := parts[i..];
    assert rest[0] == parts[i] && rest[1] == parts[i + 1];
    JoinWithFirstTwo(rest, sep);
    StartsWithContains(JoinWith(rest, sep), pair);
    if i > 0 {
      JoinWithSplit(parts, sep, i);
      var before := JoinWith(parts[..i], sep) + sep;
      ContainsMiddle(before, JoinWith(rest, sep), "");
      assert before + JoinWith(rest, sep) + "" == JoinWith(parts, sep);
      ContainsTransitive(JoinWith(parts, sep), JoinWith(rest, sep), pair);
    } else {
      assert rest == parts;
    }
  }

  /** A piece of any part of a concatenation occurs in the concatenation. */
  lemma ConcatPartPiece(parts: seq<string>, i: nat, before: string, piece: string, after: string)
    requires i < |parts| && parts[i] == before + piece + after
    ensures Contains(Concat(parts), piece)
  {
    ConcatParts(parts, i);
    ContainsMiddle(before, piece, after);
    ContainsTransitive(Concat(parts), parts[i], piece);
  }

  lemma StartsWithShorter(s: string, p: string, q: string)
    requires StartsWith(s, p + q)
    ensures StartsWith(s, p)
  {
    assert s[..|p|] == (p + q)[..|p|];
  }

  lemma EndsWithShorter(s: string, p: string, q: string)
    requires EndsWith(s, p + q)
    ensures EndsWith(s, q)
  {
    assert s[|s| - |q|..] == (p + q)[|p|..];
  }

  lemma StartsWithAppend(a: string, b: string)
    ensures StartsWith(a + b, a)
  {
    assert (a + b)[..|a|] == a;
  }

  lemma EndsWithAppend(a: string, b: string)
    ensures EndsWith(a + b, b)
  {
    assert (a + b)[|a|..] == b;
  }

  /** Every part occurs in `sep.join(parts)`. */
  lemma JoinWithContains(parts: seq<string>, sep: string, i: nat)
    requires i < |parts|
    ensures Contains(JoinWith(parts, sep), parts[i])
  {
    var joined := JoinWith(parts, sep);
    if |parts| == 1 {
      ContainsMiddle("", parts[0], "");
      assert "" + parts[0] + "" == joined;
    } else if i + 1 < |parts| {
      JoinWithNeighbours(parts, sep, i);
      ContainsMiddle("", parts[i], sep + parts[i + 1]);
      assert "" + parts[i] + (sep + parts[i + 1]) == parts[i] + sep + parts[i + 1];
      ContainsTransitive(joined, parts[i] + sep + parts[i + 1], parts[i]);
    } else {
      JoinWithNeighbours(parts, sep, i - 1);
      ContainsMiddle(parts[i - 1] + sep, parts[i], "");
      assert parts[i - 1] + sep + parts[i] + "" == parts[i - 1] + sep + parts[i];
      ContainsTransitive(joined, parts[i - 1] + sep + parts[i], parts[i]);
    }
  }

  /** `sep.join` of a non-empty list starts with its first part. */
  lemma JoinWithFirst(parts: seq<string>, sep: string)
    requires parts != []
    ensures StartsWith(JoinWith(parts, sep), parts[0])
  {
    if |parts| == 1 {
      StartsWithAppend(parts[0], "");
      assert parts[0] + "" == JoinWith(parts, sep);
    } else {
      StartsWithAppend(parts[0], sep + JoinWith(parts[1..], sep));
      assert parts[0] + (sep + JoinWith(parts[1..], sep)) == JoinWith(parts, sep);
    }
  }

  /** `sep.join` of a non-empty list ends with its last part. */
  lemma JoinWithLast(parts: seq<string>, sep: string)
    requires parts != []
    ensures EndsWith(JoinWith(parts, sep), parts[|parts| - 1])
  {
    var n := |parts|;
    if n == 1 {
      EndsWithAppend("", parts[0]);
      assert "" + parts[0] == JoinWith(parts, sep);
    } else {
      JoinWithSplit(parts, sep, n - 1);
      assert parts[n - 1..] == [parts[n - 1]];
      EndsWithAppend(JoinWith(parts[..n - 1], sep) + sep, parts[n - 1]);
    }
  }

  lemma StartsWithExtend(a: string, y: string, b: string, p: string)
    requires StartsWith(y, p)
    ensures StartsWith(a + (y + b), a + p)
  {
    assert (a + (y + b))[..|a| + |p|] == a + y[..|p|];
  }

  lemma EndsWithExtend(a: string, y: string, b: string, p: string)
    requires EndsWith(y, p)
    ensures EndsWith(a + y + b, p + b)
  {
    assert (a + y + b)[|a + y + b| - |p + b|..] == y[|y| - |p|..] + b;
  }
}
