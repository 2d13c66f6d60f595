/**
 * The JavaScript string semantics the scripts rely on: a string read through a
 * property path may be `undefined`, a string is truthy iff it is non-empty,
 * `a || b` picks the first truthy operand, and the `String.prototype` tests
 * `startsWith`, `endsWith`, `includes`, `replace` (first occurrence) and
 * `toLowerCase`.
 */
module JsStrings {
  import opened Wrappers

  /** JavaScript truthiness of a possibly-undefined string. */
  predicate Truthy(v: Option<string>) {
    v.Some? && v.value != ""
  }

  /** `a || b` on two possibly-undefined strings: the first truthy operand, else the second. */
  function Or(a: Option<string>, b: Option<string>): (r: Option<string>)
    ensures Truthy(r) <==> Truthy(a) || Truthy(b)
    ensures r == a || r == b
    ensures Truthy(a) ==> r == a
    ensures !Truthy(a) ==> r == b
  {
    if Truthy(a) then a else b
  }

  /** `a || d` for a string default `d`: always a string. */
  function OrElse(a: Option<string>, d: string): (r: string)
    ensures Truthy(a) ==> r == a.value
    ensures !Truthy(a) ==> r == d
  {
    if Truthy(a) then a.value else d
  }

  predicate StartsWith(s: string, prefix: string) {
    |prefix| <= |s| && s[..|prefix|] == prefix
  }

  predicate EndsWith(s: string, suffix: string) {
    |suffix| <= |s| && s[|s| - |suffix|..] == suffix
  }

  /** `k` occurs in `s` at position `i`. */
  predicate OccursAt(s: string, k: string, i: int) {
    0 <= i && i + |k| <= |s| && s[i..i + |k|] == k
  }

  /** `s.includes(k)`: `k` is a prefix of `s` or occurs in its tail. */
  predicate Contains(s: string, k: string)
    decreases |s|
  {
    StartsWith(s, k) || (|s| > 0 && Contains(s[1..], k))
  }

  /** The position-based reading of `includes`. */
  lemma {:induction false} ContainsAt(s: string, k: string)
    ensures Contains(s, k) <==> exists i :: OccursAt(s, k, i)
    decreases |s|
  {
    if Contains(s, k) {
      if StartsWith(s, k) {
        assert OccursAt(s, k, 0);
      } else {
        ContainsAt(s[1..], k);
        var i :| OccursAt(s[1..], k, i);
        assert s[i + 1..i + 1 + |k|] == s[1..][i..i + |k|];
        assert OccursAt(s, k, i + 1);
      }
    }
    if exists i :: OccursAt(s, k, i) {
      var i :| OccursAt(s, k, i);
      if i == 0 {
        assert StartsWith(s, k);
      } else {
        assert s[1..][i - 1..i - 1 + |k|] == s[i..i + |k|];
        assert OccursAt(s[1..], k, i - 1);
        ContainsAt(s[1..], k);
      }
    }
  }

  /** `s.replace(pat, with)` for a string pattern: only the first occurrence is replaced. */
  function ReplaceFirst(s: string, pat: string, with: string): (r: string)
    requires pat != ""
    decreases |s|
  {
    if StartsWith(s, pat) then with + s[|pat|..]
    else if s == [] then []
    else [s[0]] + ReplaceFirst(s[1..], pat, with)
  }

  /** Where the first occurrence of `pat` starts, if `pat` occurs in `s`. */
  function FirstIndexOf(s: string, pat: string): (r: Option<nat>)
    requires pat != ""
    ensures r.Some? ==> OccursAt(s, pat, r.value)
    ensures r.Some? ==> forall j :: 0 <= j < r.value ==> !OccursAt(s, pat, j)
    ensures r.None? ==> forall j :: !OccursAt(s, pat, j)
    decreases |s|
  {
    if StartsWith(s, pat) then Some(0)
    else if s == [] then None
    else
      var rest := FirstIndexOf(s[1..], pat);
      ShiftOccurrence(s, pat);
      if rest.None? then None else Some(rest.value + 1)
  }

  lemma ShiftOccurrence(s: string, pat: string)
    requires s != []
    ensures forall j :: 1 <= j ==> (OccursAt(s, pat, j) <==> OccursAt(s[1..], pat, j - 1))
  {
    forall j | 1 <= j
      ensures OccursAt(s, pat, j) <==> OccursAt(s[1..], pat, j - 1)
    {
      if j + |pat| <= |s| {
        var a, b := s[j..j + |pat|], s[1..][j - 1..j - 1 + |pat|];
        forall t | 0 <= t < |pat| ensures a[t] == b[t] {
          assert a[t] == s[j + t] == b[t];
        }
        assert a == b;
      }
    }
  }

  /** `replace` splices `with` in place of the first occurrence, and is the identity when there is none. */
  lemma ReplaceFirstSplices(s: string, pat: string, with: string)
    requires pat != ""
    ensures var k := FirstIndexOf(s, pat);
            ReplaceFirst(s, pat, with) == if k.Some? then s[..k.value] + with + s[k.value + |pat|..] else s
  {
    var k := FirstIndexOf(s, pat);
    if k.Some? {
      ReplaceAtFirst(s, pat, with, k.value);
    } else {
      ReplaceWithoutOccurrence(s, pat, with);
    }
  }

  lemma {:induction false} ReplaceAtFirst(s: string, pat: string, with: string, k: nat)
    requires pat != "" && OccursAt(s, pat, k)
    requires forall j :: 0 <= j < k ==> !OccursAt(s, pat, j)
    ensures ReplaceFirst(s, pat, with) == s[..k] + with + s[k + |pat|..]
    decreases k
  {
    StartsWithAtZero(s, pat);
    if k == 0 {
      assert s[..0] == [];
    } else {
      ShiftOccurrence(s, pat);
      forall j | 0 <= j < k - 1 ensures !OccursAt(s[1..], pat, j) {
        assert !OccursAt(s, pat, j + 1);
      }
      ReplaceAtFirst(s[1..], pat, with, k - 1);
      var rest := ReplaceFirst(s[1..], pat, with);
      assert ReplaceFirst(s, pat, with) == [s[0]] + rest;
      SpliceAfterHead(s, k - 1, |pat|, with);
    }
  }

  lemma {:induction false} ReplaceWithoutOccurrence(s: string, pat: string, with: string)
    requires pat != ""
    requires forall j :: !OccursAt(s, pat, j)
    ensures ReplaceFirst(s, pat, with) == s
    decreases |s|
  {
    StartsWithAtZero(s, pat);
    if s != [] {
      ShiftOccurrence(s, pat);
      forall j ensures !OccursAt(s[1..], pat, j) {
        assert !OccursAt(s, pat, j + 1);
      }
      ReplaceWithoutOccurrence(s[1..], pat, with);
      assert [s[0]] + s[1..] == s;
    }
  }

  lemma StartsWithAtZero(s: string, pat: string)
    ensures StartsWith(s, pat) <==> OccursAt(s, pat, 0)
  {
    if |pat| <= |s| {
      assert s[0..|pat|] == s[..|pat|];
    }
  }

  /** Putting back the head in front of a splice made in the tail. */
  lemma SpliceAfterHead(s: string, k: nat, n: nat, with: string)
    requires k + 1 + n <= |s|
    ensures [s[0]] + (s[1..][..k] + with + s[1..][k + n..]) == s[..k + 1] + with + s[k + 1 + n..]
  {
    assert [s[0]] + s[1..][..k] == s[..k + 1];
    assert s[1..][k + n..] == s[k + 1 + n..];
  }

  /** `toLowerCase` on one character: ASCII upper-case letters are mapped to lower case. */
  function LowerChar(c: char): char {
    if 'A' <= c <= 'Z' then (c as int + 32) as char else c
  }

  predicate IsAsciiUpper(c: char) {
    'A' <= c <= 'Z'
  }

  /** `toLowerCase`, character by character. */
  function ToLower(s: string): (r: string)
    ensures |r| == |s|
    ensures forall i :: 0 <= i < |s| ==> r[i] == LowerChar(s[i])
    ensures forall i :: 0 <= i < |r| ==> !IsAsciiUpper(r[i])
    ensures forall i :: 0 <= i < |s| && !IsAsciiUpper(s[i]) ==> r[i] == s[i]
  {
    seq(|s|, i requires 0 <= i < |s| => LowerChar(s[i]))
  }

  /** Lower-casing twice is lower-casing once. */
  lemma ToLowerIdempotent(s: string)
    ensures ToLower(ToLower(s)) == ToLower(s)
  {
    var once := ToLower(s);
    assert forall i :: 0 <= i < |once| ==> ToLower(once)[i] == once[i];
  }

  /** The decimal digits of `n`, as JavaScript's template literals print a non-negative integer. */
  function NatToString(n: nat): (r: string)
    ensures |r| > 0
    ensures forall i :: 0 <= i < |r| ==> '0' <= r[i] <= '9'
    ensures DigitsValue(r) == n
    ensures n > 0 ==> r[0] != '0'
  {
    if n < 10 then [Digit(n)]
    else
      var init := NatToString(n / 10);
      var r := init + [Digit(n % 10)];
      assert r[..|r| - 1] == init;
      r
  }

  function Digit(d: nat): (c: char)
    requires d < 10
    ensures '0' <= c <= '9'
    ensures DigitValue(c) == d
  {
    ('0' as int + d) as char
  }

  function DigitValue(c: char): nat
    requires '0' <= c <= '9'
  {
    c as int - '0' as int
  }

  /** The value of the decimal digits of `s`. */
  function DigitsValue(s: string): nat
    requires forall i :: 0 <= i < |s| ==> '0' <= s[i] <= '9'
  {
    if s == [] then 0 else DigitsValue(s[..|s| - 1]) * 10 + DigitValue(s[|s| - 1])
  }
}
