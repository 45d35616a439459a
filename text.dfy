/**
 * String operations of the JavaScript runtime that the components rely on:
 * `toLowerCase`/`toUpperCase` (on ASCII letters), `includes`, `join`,
 * truthiness of an optional string, and the order used for sorting.
 */
module Text {

  import opened Wrappers

  /** An optional string is truthy when it is present and not empty. */
  predicate Truthy(s: Option<string>)
  {
    s.Some? && s.value != ""
  }

  predicate IsUpperAscii(ch: char)
  {
    'A' <= ch <= 'Z'
  }

  predicate IsLowerAscii(ch: char)
  {
    'a' <= ch <= 'z'
  }

  function LowerChar(ch: char): (r: char)
    ensures !IsUpperAscii(r)
    ensures IsUpperAscii(ch) ==> IsLowerAscii(r) && r as int == ch as int + 32
    ensures !IsUpperAscii(ch) ==> r == ch
  {
    if IsUpperAscii(ch) then (ch as int + 32) as char else ch
  }

  function UpperChar(ch: char): (r: char)
    ensures !IsLowerAscii(r)
    ensures IsLowerAscii(ch) ==> IsUpperAscii(r) && r as int == ch as int - 32
    ensures !IsLowerAscii(ch) ==> r == ch
  {
    if IsLowerAscii(ch) then (ch as int - 32) as char else ch
  }

  /** `s.toLowerCase()`, on ASCII letters only. */
  function Lower(s: string): (r: string)
    ensures |r| == |s|
    ensures forall i :: 0 <= i < |r| ==> !IsUpperAscii(r[i])
    ensures forall i :: 0 <= i < |s| && !IsUpperAscii(s[i]) ==> r[i] == s[i]
    ensures forall i :: 0 <= i < |s| && IsUpperAscii(s[i]) ==> r[i] as int == s[i] as int + 32
  {
    seq(|s|, i requires 0 <= i < |s| => LowerChar(s[i]))
  }

  /** `s.toUpperCase()`, on ASCII letters only. */
  function Upper(s: string): (r: string)
    ensures |r| == |s|
    ensures forall i :: 0 <= i < |r| ==> !IsLowerAscii(r[i])
    ensures forall i :: 0 <= i < |s| && !IsLowerAscii(s[i]) ==> r[i] == s[i]
    ensures forall i :: 0 <= i < |s| && IsLowerAscii(s[i]) ==> r[i] as int == s[i] as int - 32
  {
    seq(|s|, i requires 0 <= i < |s| => UpperChar(s[i]))
  }

  /** Lowering twice is lowering once. */
  lemma LowerIdempotent(s: string)
    ensures Lower(Lower(s)) == Lower(s)
  {
  }

  predicate StartsWith(s: string, prefix: string)
  {
    |prefix| <= |s| && s[..|prefix|] == prefix
  }

  /** `s.includes(sub)`: some suffix of `s` starts with `sub`. */
  predicate Includes(s: string, sub: string)
    decreases |s|
  {
    StartsWith(s, sub) || (|s| > 0 && Includes(s[1..], sub))
  }

  /** `sub` occurs in `s` starting at position `i`. */
  predicate OccursAt(s: string, sub: string, i: int)
  {
    0 <= i <= |s| - |sub| && s[i..i + |sub|] == sub
  }

  /** A slice of the tail is the slice of the whole shifted by one. */
  lemma TailSlice(s: string, a: int, b: int)
    requires 1 <= a <= b <= |s|
    ensures s[1..][a - 1..b - 1] == s[a..b]
  {
    assert forall k :: 0 <= k < b - a ==> s[1..][a - 1..b - 1][k] == s[a..b][k];
  }

  /** `Includes` holds exactly when `sub` occurs at some position of `s`. */
  lemma {:induction false} IncludesIff(s: string, sub: string)
    ensures Includes(s, sub) <==> exists i :: OccursAt(s, sub, i)
    decreases |s|
  {
    if StartsWith(s, sub) {
      assert OccursAt(s, sub, 0);
    } else if |s| > 0 {
      IncludesIff(s[1..], sub);
      if Includes(s[1..], sub) {
        var i :| OccursAt(s[1..], sub, i);
        TailSlice(s, i + 1, i + 1 + |sub|);
        assert OccursAt(s, sub, i + 1);
      } else {
        forall i | 0 < i
          ensures !OccursAt(s, sub, i)
        {
          assert OccursAt(s, sub, i) ==> OccursAt(s[1..], sub, i - 1) by {
            if i <= |s| - |sub| {
              TailSlice(s, i, i + |sub|);
            }
          }
        }
      }
    }
  }

  /** Every string includes the empty string, so an empty search matches everything. */
  lemma IncludesEmpty(s: string)
    ensures Includes(s, "")
  {
  }

  /** `xs.join(sep)`. */
  function Join(xs: seq<string>, sep: string): string
    decreases |xs|
  {
    if |xs| == 0 then "" else if |xs| == 1 then xs[0] else xs[0] + sep + Join(xs[1..], sep)
  }

  /** A join is at least as long as its first part. */
  lemma JoinCoversHead(xs: seq<string>, sep: string)
    ensures |xs| > 0 ==> |Join(xs, sep)| >= |xs[0]|
  {
  }

  /** With a non-empty separator, a join is empty only for `[]` and `[""]`: every other list is truthy once joined. */
  lemma JoinEmptyIff(xs: seq<string>, sep: string)
    requires sep != ""
    ensures Join(xs, sep) == "" <==> xs == [] || xs == [""]
  {
    if |xs| > 1 {
      assert |Join(xs, sep)| >= |sep|;
    }
  }

  /**
   * Lexicographic order on code points: the total order on strings that
   * the model uses for `Array.prototype.sort` and for `localeCompare`.
   */
  predicate LexLe(a: string, b: string)
    decreases |a|
  {
    |a| == 0 || (|b| > 0 && (a[0] < b[0] || (a[0] == b[0] && LexLe(a[1..], b[1..]))))
  }

  lemma {:induction false} LexLeTotal(a: string, b: string)
    ensures LexLe(a, b) || LexLe(b, a)
    decreases |a|
  {
    if |a| > 0 && |b| > 0 && a[0] == b[0] {
      LexLeTotal(a[1..], b[1..]);
    }
  }

  lemma {:induction false} LexLeTransitive(a: string, b: string, c: string)
    requires LexLe(a, b) && LexLe(b, c)
    ensures LexLe(a, c)
    decreases |a|
  {
    if |a| > 0 && a[0] == b[0] && b[0] == c[0] {
      LexLeTransitive(a[1..], b[1..], c[1..]);
    }
  }

  lemma {:induction false} LexLeAntisymmetric(a: string, b: string)
    requires LexLe(a, b) && LexLe(b, a)
    ensures a == b
    decreases |a|
  {
    if |a| > 0 {
      LexLeAntisymmetric(a[1..], b[1..]);
      assert a == [a[0]] + a[1..] && b == [b[0]] + b[1..];
    }
  }
}
