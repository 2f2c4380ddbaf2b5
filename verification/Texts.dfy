/** Splitting text at a separator and trimming it, as the String methods of ECMAScript do. */
module Texts {

  predicate OccursAt(s: string, sep: string, i: nat) {
    i + |sep| <= |s| && s[i..i + |sep|] == sep
  }

  /** Where sep first occurs, or the length of s. */
  function Find(s: string, sep: string): (i: nat)
    ensures i == |s| || OccursAt(s, sep, i)
  {
    if |s| < |sep| || s == "" then |s|
    else if s[..|sep|] == sep then 0
    else
      var i := Find(s[1..], sep);
      OccursLater(s, sep, i);
      i + 1
  }

  function Split(s: string, sep: string): (parts: seq<string>)
    requires sep != ""
    ensures parts != []
    decreases |s|
  {
    var i := Find(s, sep);
    if i == |s| then [s] else [s[..i]] + Split(s[i + |sep|..], sep)
  }

  lemma OccursLater(s: string, sep: string, i: nat)
    requires s != ""
    ensures OccursAt(s[1..], sep, i) ==> OccursAt(s, sep, i + 1)
  {
    if OccursAt(s[1..], sep, i) { assert s[1..][i..i + |sep|] == s[i + 1..i + 1 + |sep|]; }
  }

  lemma {:induction false} FindFirst(a: string, sep: string, b: string)
    requires sep != "" && forall i | 0 <= i < |a| :: !OccursAt(a + sep + b, sep, i)
    ensures Find(a + sep + b, sep) == |a|
  {
    var s := a + sep + b;
    if a == "" {
      assert s[..|sep|] == sep;
    } else {
      assert s[1..] == a[1..] + sep + b;
      forall i | 0 <= i < |a[1..]| ensures !OccursAt(a[1..] + sep + b, sep, i) {
        assert !OccursAt(s, sep, i + 1);
        OccursLater(s, sep, i);
      }
      assert !OccursAt(s, sep, 0);
      FindFirst(a[1..], sep, b);
    }
  }

  lemma NoOccurrence(s: string, sep: string)
    requires forall i | 0 <= i < |s| :: !OccursAt(s, sep, i)
    ensures Find(s, sep) == |s|
  {
  }

  predicate Lacks(s: string, c: char) {
    forall i | 0 <= i < |s| :: s[i] != c
  }

  lemma SplitWhole(s: string, c: char)
    requires Lacks(s, c)
    ensures Split(s, [c]) == [s]
  {
    forall i | 0 <= i < |s| ensures !OccursAt(s, [c], i) { assert s[i..i + 1] == [s[i]]; }
    NoOccurrence(s, [c]);
  }

  lemma SplitFirst(a: string, c: char, b: string)
    requires Lacks(a, c)
    ensures Split(a + [c] + b, [c]) == [a] + Split(b, [c])
  {
    var s := a + [c] + b;
    forall i | 0 <= i < |a| ensures !OccursAt(s, [c], i) { assert s[i] == a[i]; }
    FindFirst(a, [c], b);
    assert s[..|a|] == a && s[|a| + 1..] == b;
  }

  /** No part contains the separator. */
  lemma {:induction false} PartsLack(s: string, c: char, k: nat)
    requires k < |Split(s, [c])|
    ensures Lacks(Split(s, [c])[k], c)
    decreases |s|
  {
    var i := Find(s, [c]);
    FindIsFirst(s, c);
    if i < |s| && k > 0 { PartsLack(s[i + 1..], c, k - 1); }
  }

  lemma {:induction false} FindIsFirst(s: string, c: char)
    ensures Lacks(s[..Find(s, [c])], c)
  {
    if s != "" && s[..1] != [c] {
      FindIsFirst(s[1..], c);
      var i := Find(s[1..], [c]);
      assert s[..i + 1] == [s[0]] + s[1..][..i];
    }
  }

  // ----- trimming -----

  /** The white space and line terminators of ECMAScript. */
  predicate IsSpace(c: char) {
    var n := c as int;
    || 0x9 <= n <= 0xd || n == 0x20 || n == 0xa0 || n == 0x1680 || 0x2000 <= n <= 0x200a
    || n == 0x2028 || n == 0x2029 || n == 0x202f || n == 0x205f || n == 0x3000 || n == 0xfeff
  }

  function TrimStart(s: string): string {
    if s != "" && IsSpace(s[0]) then TrimStart(s[1..]) else s
  }

  function TrimEnd(s: string): string {
    if s != "" && IsSpace(s[|s| - 1]) then TrimEnd(s[..|s| - 1]) else s
  }

  function Trim(s: string): string {
    TrimEnd(TrimStart(s))
  }

  predicate IsTrimmed(s: string) {
    s != "" ==> !IsSpace(s[0]) && !IsSpace(s[|s| - 1])
  }

  lemma TrimTrimmed(s: string)
    requires IsTrimmed(s)
    ensures Trim(s) == s
  {
  }

  lemma TrimAfterSpace(s: string)
    ensures Trim(" " + s) == Trim(s)
  {
    assert (" " + s)[1..] == s;
  }

  lemma {:induction false} TrimStartStarts(s: string)
    ensures TrimStart(s) != "" ==> !IsSpace(TrimStart(s)[0])
  {
    if s != "" && IsSpace(s[0]) { TrimStartStarts(s[1..]); }
  }

  lemma {:induction false} TrimEndKeeps(s: string)
    ensures TrimEnd(s) <= s
    ensures TrimEnd(s) != "" ==> !IsSpace(TrimEnd(s)[|TrimEnd(s)| - 1])
  {
    if s != "" && IsSpace(s[|s| - 1]) { TrimEndKeeps(s[..|s| - 1]); }
  }

  lemma TrimIsTrimmed(s: string)
    ensures IsTrimmed(Trim(s))
  {
    TrimStartStarts(s);
    TrimEndKeeps(TrimStart(s));
    if Trim(s) != "" { assert Trim(s)[0] == TrimStart(s)[0]; }
  }

  lemma {:induction false} TrimStartLacks(s: string, c: char)
    requires Lacks(s, c)
    ensures Lacks(TrimStart(s), c)
  {
    if s != "" && IsSpace(s[0]) { TrimStartLacks(s[1..], c); }
  }

  lemma TrimLacks(s: string, c: char)
    requires Lacks(s, c)
    ensures Lacks(Trim(s), c)
  {
    TrimStartLacks(s, c);
    TrimEndKeeps(TrimStart(s));
  }

  /** Trimming takes away white space only. */
  lemma {:induction false} TrimStartLost(s: string, c: char)
    requires Lacks(TrimStart(s), c) && !IsSpace(c)
    ensures Lacks(s, c)
  {
    if s != "" && IsSpace(s[0]) {
      TrimStartLost(s[1..], c);
      assert s == [s[0]] + s[1..];
    }
  }

  lemma {:induction false} TrimEndLost(s: string, c: char)
    requires Lacks(TrimEnd(s), c) && !IsSpace(c)
    ensures Lacks(s, c)
  {
    if s != "" && IsSpace(s[|s| - 1]) {
      TrimEndLost(s[..|s| - 1], c);
      assert s == s[..|s| - 1] + [s[|s| - 1]];
    }
  }

  lemma TrimLost(s: string, c: char)
    requires Lacks(Trim(s), c) && !IsSpace(c)
    ensures Lacks(s, c)
  {
    TrimEndLost(TrimStart(s), c);
    TrimStartLost(s, c);
  }
}
