/**
 * The Python built-ins that the modelled code relies on, written out:
 * `str.isspace`, `str.strip`, `str.join`, `list.remove` and the
 * concatenation of byte strings (what a `BytesIO` accumulates).
 */
module Builtins {

  newtype byte = x: int | 0 <= x < 256

  // ---------------------------------------------------------------------
  // str.isspace and str.strip
  // ---------------------------------------------------------------------

  /**
   * The characters for which Python's `str.isspace()` is true: the
   * characters `str.strip()` with no argument removes.
   */
  predicate IsSpace(c: char) {
    var n := c as int;
    (0x09 <= n <= 0x0D) || (0x1C <= n <= 0x20) || n == 0x85 || n == 0xA0 || n == 0x1680
    || (0x2000 <= n <= 0x200A) || n == 0x2028 || n == 0x2029 || n == 0x202F || n == 0x205F
    || n == 0x3000
  }

  predicate AllSpace(s: string) {
    forall i :: 0 <= i < |s| ==> IsSpace(s[i])
  }

  /** Neither starts nor ends with whitespace. */
  predicate Trimmed(s: string) {
    s == [] || (!IsSpace(s[0]) && !IsSpace(s[|s| - 1]))
  }

  /** The length of the run of whitespace at the start of `s`. */
  function LeadingSpace(s: string): (n: nat)
    ensures n <= |s|
    ensures forall i :: 0 <= i < n ==> IsSpace(s[i])
    ensures n < |s| ==> !IsSpace(s[n])
  {
    if s != [] && IsSpace(s[0]) then 1 + LeadingSpace(s[1..]) else 0
  }

  /** The length of the run of whitespace at the end of `s`. */
  function TrailingSpace(s: string): (n: nat)
    ensures n <= |s|
    ensures forall i :: |s| - n <= i < |s| ==> IsSpace(s[i])
    ensures n < |s| ==> !IsSpace(s[|s| - n - 1])
  {
    if s != [] && IsSpace(s[|s| - 1]) then 1 + TrailingSpace(s[..|s| - 1]) else 0
  }

  /**
   * Python's `s.strip()`: skip the whitespace on the left, then drop the
   * whitespace on the right of what is left.
   */
  function Strip(s: string): (r: string)
    ensures Trimmed(r)
    ensures r == [] <==> AllSpace(s)
    ensures r != [] ==> LeadingSpace(s) + |r| + TrailingSpace(s) == |s|
    ensures r != [] ==> r == s[LeadingSpace(s)..LeadingSpace(s) + |r|]
  {
    var t := s[LeadingSpace(s)..];
    var r := t[..|t| - TrailingSpace(t)];
    if t != [] then
      TrailingSpaceOfSuffix(s, LeadingSpace(s));
      r
    else
      r
  }

  /** Dropping a prefix that does not reach the last non-blank keeps the trailing run. */
  lemma TrailingSpaceOfSuffix(s: string, k: nat)
    requires k < |s| && !IsSpace(s[k])
    ensures TrailingSpace(s[k..]) == TrailingSpace(s)
  {
    assert forall i :: k <= i < |s| ==> s[k..][i - k] == s[i];
  }

  lemma AllSpaceConcat(a: string, b: string)
    ensures AllSpace(a + b) <==> AllSpace(a) && AllSpace(b)
  {
    if AllSpace(a) && AllSpace(b) {
      forall i | 0 <= i < |a + b| ensures IsSpace((a + b)[i]) {
        if i >= |a| { assert (a + b)[i] == b[i - |a|]; }
      }
    }
    if AllSpace(a + b) {
      forall i | 0 <= i < |a| ensures IsSpace(a[i]) {
        assert a[i] == (a + b)[i];
      }
      forall i | 0 <= i < |b| ensures IsSpace(b[i]) {
        assert b[i] == (a + b)[|a| + i];
      }
    }
  }

  // ---------------------------------------------------------------------
  // str.join
  // ---------------------------------------------------------------------

  /** Python's `sep.join(parts)`. */
  function Join(sep: string, parts: seq<string>): (r: string)
    ensures parts == [] ==> r == []
    ensures parts != [] ==> |r| == PartOffset(sep, parts, |parts| - 1) + |parts[|parts| - 1]|
  {
    if |parts| == 0 then []
    else if |parts| == 1 then parts[0]
    else parts[0] + sep + Join(sep, parts[1..])
  }

  /** Where part `k` starts in `Join(sep, parts)`: every earlier part and one separator after each. */
  function PartOffset(sep: string, parts: seq<string>, k: nat): nat
    requires k <= |parts|
  {
    if k == 0 then 0 else |parts[0]| + |sep| + PartOffset(sep, parts[1..], k - 1)
  }

  /** A slice that lies inside the right operand of a concatenation. */
  lemma SliceOfRight<T>(x: seq<T>, y: seq<T>, i: nat, j: nat)
    requires |x| <= i <= j <= |x| + |y|
    ensures (x + y)[i..j] == y[i - |x|..j - |x|]
  {
  }

  /**
   * The layout of a join: part `k` stands at `PartOffset(sep, parts, k)`,
   * and one `sep` separates it from part `k + 1`.  Together with the length
   * in `Join`'s contract, this says the join is the parts in order with one
   * separator between neighbours and nothing else.
   */
  lemma {:induction false} JoinLayout(sep: string, parts: seq<string>, k: nat)
    requires k < |parts|
    ensures PartOffset(sep, parts, k) + |parts[k]| <= |Join(sep, parts)|
    ensures Join(sep, parts)[PartOffset(sep, parts, k)..PartOffset(sep, parts, k) + |parts[k]|] == parts[k]
    ensures k + 1 < |parts| ==>
      var e := PartOffset(sep, parts, k) + |parts[k]|;
      e + |sep| <= |Join(sep, parts)| && Join(sep, parts)[e..e + |sep|] == sep
  {
    var r := Join(sep, parts);
    if |parts| == 1 {
    } else if k == 0 {
      var front := parts[0] + sep;
      assert r == front + Join(sep, parts[1..]);
      assert r[..|parts[0]|] == front[..|parts[0]|] == parts[0];
      assert r[|parts[0]|..|front|] == front[|parts[0]|..] == sep;
    } else {
      var rest := Join(sep, parts[1..]);
      var front := parts[0] + sep;
      assert r == front + rest;
      JoinLayout(sep, parts[1..], k - 1);
      var o' := PartOffset(sep, parts[1..], k - 1);
      assert parts[1..][k - 1] == parts[k];
      SliceOfRight(front, rest, |front| + o', |front| + o' + |parts[k]|);
      if k + 1 < |parts| {
        SliceOfRight(front, rest, |front| + o' + |parts[k]|, |front| + o' + |parts[k]| + |sep|);
      }
    }
  }

  /**
   * A join with a whitespace separator is blank exactly when every part is.
   */
  lemma {:induction false} JoinAllSpace(sep: string, parts: seq<string>)
    requires AllSpace(sep)
    ensures AllSpace(Join(sep, parts)) <==> forall k :: 0 <= k < |parts| ==> AllSpace(parts[k])
  {
    if |parts| > 1 {
      JoinAllSpace(sep, parts[1..]);
      AllSpaceConcat(parts[0] + sep, Join(sep, parts[1..]));
      AllSpaceConcat(parts[0], sep);
      if forall k :: 0 <= k < |parts[1..]| ==> AllSpace(parts[1..][k]) {
        assert forall k :: 1 <= k < |parts| ==> AllSpace(parts[k]) by {
          forall k | 1 <= k < |parts| ensures AllSpace(parts[k]) {
            assert parts[k] == parts[1..][k - 1];
          }
        }
      }
    }
  }

  // ---------------------------------------------------------------------
  // list.remove
  // ---------------------------------------------------------------------

  /** The index of the first occurrence of `x` in `s`. */
  function IndexOf<T(==)>(s: seq<T>, x: T): (i: nat)
    requires x in s
    ensures i < |s| && s[i] == x && x !in s[..i]
  {
    if s[0] == x then 0 else 1 + IndexOf(s[1..], x)
  }

  /** Python's `s.remove(x)` on a list that holds `x`: its first occurrence goes. */
  function RemoveFirst<T(==, !new)>(s: seq<T>, x: T): (r: seq<T>)
    requires x in s
    ensures |r| == |s| - 1
    ensures multiset(r) == multiset(s) - multiset{x}
    ensures forall y :: y != x ==> (y in r <==> y in s)
    ensures exists i :: 0 <= i < |s| && s[i] == x && x !in s[..i] && r == s[..i] + s[i + 1..]
  {
    var i := IndexOf(s, x);
    assert s == s[..i] + [s[i]] + s[i + 1..];
    s[..i] + s[i + 1..]
  }

  // ---------------------------------------------------------------------
  // Byte strings
  // ---------------------------------------------------------------------

  /** The chunks written one after another: `b"".join(chunks)`. */
  function Concat(chunks: seq<seq<byte>>): seq<byte> {
    if chunks == [] then [] else Concat(chunks[..|chunks| - 1]) + chunks[|chunks| - 1]
  }

  /** Writing one more chunk appends its bytes at the end. */
  lemma ConcatAppend(chunks: seq<seq<byte>>, c: seq<byte>)
    ensures Concat(chunks + [c]) == Concat(chunks) + c
  {
    assert (chunks + [c])[..|chunks|] == chunks;
  }
}
