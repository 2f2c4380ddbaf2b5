/** IPv6 addresses as text, their numbers, and the networks they lie in. */
module Ipv6 {
  import opened Int32
  import opened Cidr
  import opened Texts

  // ----- hexadecimal -----

  function HexDigit(c: char): Option<nat> {
    if '0' <= c <= '9' then Some((c - '0') as int)
    else if 'a' <= c <= 'f' then Some((c - 'a') as int + 10)
    else if 'A' <= c <= 'F' then Some((c - 'A') as int + 10)
    else None
  }

  predicate IsHex(g: string) {
    forall i | 0 <= i < |g| :: HexDigit(g[i]).Some?
  }

  function HexValue(g: string): nat
    requires IsHex(g)
  {
    if g == "" then 0 else HexValue(g[..|g| - 1]) * 16 + HexDigit(g[|g| - 1]).value
  }

  function HexPrefix(g: string): (n: nat)
    ensures n <= |g| && IsHex(g[..n])
  {
    if g == "" || HexDigit(g[0]).None? then 0
    else
      var n := HexPrefix(g[1..]);
      assert g[..n + 1] == [g[0]] + g[1..][..n];
      n + 1
  }

  /** The sixteen digits, the letters in either case, and nothing else. */
  lemma HexDigitsAre(c: char, n: nat)
    ensures n < 16 ==> HexDigit("0123456789abcdef"[n]) == Some(n) && HexDigit("0123456789ABCDEF"[n]) == Some(n)
    ensures HexDigit(c).Some? ==>
              HexDigit(c).value < 16 && c in {"0123456789abcdef"[HexDigit(c).value], "0123456789ABCDEF"[HexDigit(c).value]}
  {
  }

  /** Reads hexadecimal digits up to the first other character; None is not a number. */
  function ParseHex(g: string): Option<nat> {
    var n := HexPrefix(g);
    if n == 0 then None else Some(HexValue(g[..n]))
  }

  // ----- the parser -----

  /** Throws: a group is not a number, or a negative count of zeros. */
  datatype Parsed = Number(value: nat) | Null | Throws

  function ParsePart(part: string): seq<Option<nat>> {
    if part == "" then []
    else
      var groups := Split(part, ":");
      seq(|groups|, i requires 0 <= i < |groups| => ParseHex(groups[i]))
  }

  function Zeros(n: nat): seq<Option<nat>> {
    seq(n, _ => Some(0))
  }

  function Combine(groups: seq<Option<nat>>): nat
    requires forall g <- groups :: g.Some?
  {
    if groups == [] then 0 else Combine(groups[..|groups| - 1]) * 0x1_0000 + groups[|groups| - 1].value
  }

  function FromGroups(groups: seq<Option<nat>>): Parsed {
    if |groups| != 8 then Null
    else if forall g <- groups :: g.Some? then Number(Combine(groups))
    else Throws
  }

  /** The text's parts before and after a "::". */
  function FromParts(parts: seq<string>): Parsed
    requires parts != []
  {
    if |parts| > 2 then Null
    else
      var head := ParsePart(parts[0]);
      var tail := if |parts| == 2 then ParsePart(parts[1]) else [];
      var zeroCount := if |parts| == 2 then 8 - |head| - |tail| else 0;
      if zeroCount < 0 then Throws else FromGroups(head + Zeros(zeroCount) + tail)
  }

  function Ipv6ToBigInt(isIpv6: bool, ip: string): Parsed {
    if isIpv6 then FromParts(Split(ip, "::")) else Null
  }

  function BigShiftRight(x: int, n: int): int {
    if n >= 0 then x / Pow2(n) else x * Pow2(-n)
  }

  /** No prefix: its text is not an integer. */
  predicate Ipv6InCidr(ip: Parsed, network: Parsed, prefix: Option<int>)
    requires !ip.Throws? && !network.Throws?
  {
    if ip.Null? || network.Null? || prefix.None? then false
    else BigShiftRight(ip.value, 128 - prefix.value) == BigShiftRight(network.value, 128 - prefix.value)
  }

  // ----- addresses as section 2.2 of RFC 4291 writes them -----

  /** All eight groups, or the groups before and after a "::". */
  datatype Form = Full(groups: seq<string>) | Compressed(head: seq<string>, tail: seq<string>)

  predicate IsGroup(g: string) {
    1 <= |g| <= 4 && IsHex(g)
  }

  predicate AreGroups(gs: seq<string>) {
    forall i | 0 <= i < |gs| :: IsGroup(gs[i])
  }

  predicate ValidForm(f: Form) {
    match f
    case Full(groups) => |groups| == 8 && AreGroups(groups)
    case Compressed(head, tail) => |head| + |tail| <= 7 && AreGroups(head) && AreGroups(tail)
  }

  function Join(gs: seq<string>): string {
    if gs == [] then "" else if |gs| == 1 then gs[0] else gs[0] + ":" + Join(gs[1..])
  }

  function Text(f: Form): string {
    match f
    case Full(groups) => Join(groups)
    case Compressed(head, tail) => Join(head) + "::" + Join(tail)
  }

  function Repeat(g: string, n: nat): seq<string> {
    seq(n, _ => g)
  }

  /** All eight groups, the elided ones as zero. */
  function Expand(f: Form): seq<string>
    requires ValidForm(f)
  {
    match f
    case Full(groups) => groups
    case Compressed(head, tail) => head + Repeat("0", 8 - |head| - |tail|) + tail
  }

  /** The number of eight 16-bit groups, the first most significant. */
  function AddressOf(gs: seq<string>): nat
    requires AreGroups(gs)
  {
    if gs == [] then 0 else AddressOf(gs[..|gs| - 1]) * 0x1_0000 + HexValue(gs[|gs| - 1])
  }

  // ----- splitting joined groups -----

  predicate NoColon(s: string) {
    Lacks(s, ':')
  }

  lemma GroupHasNoColon(g: string)
    requires IsHex(g)
    ensures NoColon(g)
  {
  }

  lemma {:induction false} SplitJoin(gs: seq<string>)
    requires gs != [] && AreGroups(gs)
    ensures Split(Join(gs), ":") == gs
  {
    GroupHasNoColon(gs[0]);
    if |gs| == 1 {
      SplitWhole(gs[0], ':');
    } else {
      SplitFirst(gs[0], ':', Join(gs[1..]));
      SplitJoin(gs[1..]);
    }
  }

  predicate DoubledAt(s: string, i: nat)
    requires i + 1 < |s|
  {
    s[i] == ':' && s[i + 1] == ':'
  }

  /** No two colons side by side, none at either end. */
  predicate SingleColons(s: string) {
    && (s != "" ==> s[0] != ':' && s[|s| - 1] != ':')
    && forall i | 0 <= i < |s| - 1 :: !DoubledAt(s, i)
  }

  lemma {:induction false} JoinHasSingleColons(gs: seq<string>)
    requires AreGroups(gs)
    ensures SingleColons(Join(gs)) && (gs != [] ==> Join(gs) != "")
  {
    if gs != [] {
      var g := gs[0];
      GroupHasNoColon(g);
      if |gs| == 1 {
        assert g[0] != ':';
      } else {
        JoinHasSingleColons(gs[1..]);
        JoinMore(g, Join(gs[1..]));
      }
    }
  }

  lemma JoinMore(g: string, rest: string)
    requires g != "" && NoColon(g) && rest != "" && SingleColons(rest)
    ensures SingleColons(g + ":" + rest)
  {
    var s := g + ":" + rest;
    assert s[0] == g[0];
    assert s[|s| - 1] == rest[|rest| - 1];
    forall i | 0 <= i < |s| - 1 ensures !DoubledAt(s, i) {
      if i < |g| {
        assert s[i] == g[i];
      } else if i == |g| {
        assert s[i + 1] == rest[0];
      } else {
        assert s[i] == rest[i - |g| - 1] && s[i + 1] == rest[i - |g|];
        assert !DoubledAt(rest, i - |g| - 1);
      }
    }
  }

  lemma NotDoubled(s: string)
    requires SingleColons(s)
    ensures Split(s, "::") == [s]
  {
    forall i | 0 <= i < |s| ensures !OccursAt(s, "::", i) {
      if i < |s| - 1 {
        assert !DoubledAt(s, i);
        assert s[i..i + 2] == [s[i], s[i + 1]];
      }
    }
    NoOccurrence(s, "::");
  }

  lemma DoubledOnce(a: string, b: string)
    requires SingleColons(a) && SingleColons(b)
    ensures Split(a + "::" + b, "::") == [a, b]
  {
    var s := a + "::" + b;
    forall i | 0 <= i < |a| ensures !OccursAt(s, "::", i) {
      assert s[i..i + 2] == [s[i], s[i + 1]];
      assert s[i] == a[i];
      if i < |a| - 1 { assert !DoubledAt(a, i); }
    }
    FindFirst(a, "::", b);
    NotDoubled(b);
    assert s[..|a|] == a && s[|a| + 2..] == b;
  }

  // ----- parsing -----

  lemma {:induction false} HexPrefixAll(g: string)
    requires IsHex(g)
    ensures HexPrefix(g) == |g|
  {
    if g != "" { HexPrefixAll(g[1..]); }
  }

  lemma ParseGroup(g: string)
    requires IsGroup(g)
    ensures ParseHex(g) == Some(HexValue(g))
  {
    HexPrefixAll(g);
    assert g[..|g|] == g;
  }

  function Values(gs: seq<string>): (vs: seq<Option<nat>>)
    requires AreGroups(gs)
    ensures |vs| == |gs| && forall i | 0 <= i < |gs| :: vs[i] == Some(HexValue(gs[i]))
  {
    seq(|gs|, i requires 0 <= i < |gs| => Some(HexValue(gs[i])))
  }

  lemma ParseJoined(gs: seq<string>)
    requires AreGroups(gs)
    ensures ParsePart(Join(gs)) == Values(gs)
  {
    JoinHasSingleColons(gs);
    if gs != [] {
      SplitJoin(gs);
      forall i | 0 <= i < |gs| ensures ParseHex(gs[i]) == Some(HexValue(gs[i])) { ParseGroup(gs[i]); }
    }
  }

  lemma {:induction false} CombineValues(gs: seq<string>)
    requires AreGroups(gs)
    ensures (forall v <- Values(gs) :: v.Some?) && Combine(Values(gs)) == AddressOf(gs)
  {
    if gs != [] {
      var n := |gs| - 1;
      CombineValues(gs[..n]);
      assert Values(gs)[..n] == Values(gs[..n]);
    }
  }

  lemma ZeroGroups(n: nat)
    ensures AreGroups(Repeat("0", n)) && Values(Repeat("0", n)) == Zeros(n)
  {
    assert HexDigit('0') == Some(0) && HexValue("0") == HexValue("") * 16 + 0;
  }

  lemma {:induction false} ValuesConcat(a: seq<string>, b: seq<string>)
    requires AreGroups(a) && AreGroups(b)
    ensures AreGroups(a + b) && Values(a + b) == Values(a) + Values(b)
  {
  }

  lemma {:induction false} ValuesAround(head: seq<string>, n: nat, tail: seq<string>)
    requires AreGroups(head) && AreGroups(tail)
    ensures var gs := head + Repeat("0", n) + tail;
      AreGroups(gs) && Values(gs) == Values(head) + Zeros(n) + Values(tail)
  {
    ZeroGroups(n);
    ValuesConcat(head, Repeat("0", n));
    ValuesConcat(head + Repeat("0", n), tail);
  }

  lemma {:induction false} ExpandIs(head: seq<string>, n: nat, tail: seq<string>)
    requires ValidForm(Compressed(head, tail)) && |head| + n + |tail| == 8
    ensures Expand(Compressed(head, tail)) == head + Repeat("0", n) + tail
  {
  }

  lemma {:induction false} ExpandedValues(head: seq<string>, tail: seq<string>)
    requires ValidForm(Compressed(head, tail))
    ensures AreGroups(Expand(Compressed(head, tail)))
    ensures Values(Expand(Compressed(head, tail))) == Values(head) + Zeros(8 - |head| - |tail|) + Values(tail)
  {
    var n := 8 - |head| - |tail|;
    ValuesAround(head, n, tail);
    ExpandIs(head, n, tail);
  }

  lemma {:induction false} FromExpanded(f: Form)
    requires ValidForm(f)
    ensures AreGroups(Expand(f)) && |Expand(f)| == 8
    ensures FromGroups(Values(Expand(f))) == Number(AddressOf(Expand(f)))
  {
    if f.Compressed? { ExpandedValues(f.head, f.tail); }
    CombineValues(Expand(f));
  }

  lemma ParsesFull(groups: seq<string>)
    requires ValidForm(Full(groups))
    ensures Ipv6ToBigInt(true, Join(groups)) == FromGroups(Values(groups))
  {
    JoinHasSingleColons(groups);
    NotDoubled(Join(groups));
    ParseJoined(groups);
    assert Values(groups) + Zeros(0) + [] == Values(groups);
  }

  lemma FromTwoParts(a: string, b: string)
    requires |ParsePart(a)| + |ParsePart(b)| <= 8
    ensures FromParts([a, b]) == FromGroups(ParsePart(a) + Zeros(8 - |ParsePart(a)| - |ParsePart(b)|) + ParsePart(b))
  {
  }

  lemma ParsesTwo(a: string, b: string, before: seq<Option<nat>>, after: seq<Option<nat>>)
    requires SingleColons(a) && SingleColons(b)
    requires ParsePart(a) == before && ParsePart(b) == after && |before| + |after| <= 8
    ensures Ipv6ToBigInt(true, a + "::" + b) == FromGroups(before + Zeros(8 - |before| - |after|) + after)
  {
    DoubledOnce(a, b);
    FromTwoParts(a, b);
  }

  lemma ParsesCompressed(head: seq<string>, tail: seq<string>, a: string, b: string)
    requires AreGroups(head) && AreGroups(tail) && |head| + |tail| <= 7
    requires a == Join(head) && b == Join(tail)
    ensures Ipv6ToBigInt(true, a + "::" + b) ==
            FromGroups(Values(head) + Zeros(8 - |head| - |tail|) + Values(tail))
  {
    JoinHasSingleColons(head);
    JoinHasSingleColons(tail);
    ParseJoined(head);
    ParseJoined(tail);
    ParsesTwo(a, b, Values(head), Values(tail));
  }

  /** The parser reads every valid text without an IPv4 tail as the number of its groups. */
  lemma ParsesText(f: Form)
    requires ValidForm(f)
    ensures AreGroups(Expand(f)) && Ipv6ToBigInt(true, Text(f)) == Number(AddressOf(Expand(f)))
  {
    FromExpanded(f);
    match f {
      case Full(groups) => ParsesFull(groups);
      case Compressed(head, tail) =>
        ParsesCompressed(head, tail, Join(head), Join(tail));
        ExpandedValues(head, tail);
    }
  }

  /** "::" stands for the zero groups it elides: writing them out gives the same number. */
  lemma CompressionKeepsValue(head: seq<string>, tail: seq<string>)
    requires ValidForm(Compressed(head, tail))
    ensures ValidForm(Full(Expand(Compressed(head, tail))))
    ensures Ipv6ToBigInt(true, Text(Compressed(head, tail))) ==
            Ipv6ToBigInt(true, Text(Full(Expand(Compressed(head, tail)))))
  {
    ParsesText(Compressed(head, tail));
    ParsesText(Full(Expand(Compressed(head, tail))));
  }

  /** For a prefix length of 0 to 128: in the network exactly when in its interval (section 2.3 of RFC 4291). */
  lemma Ipv6InCidrIsInterval(ip: Form, network: Form, prefix: int)
    requires ValidForm(ip) && ValidForm(network) && 0 <= prefix <= 128
    ensures AreGroups(Expand(ip)) && AreGroups(Expand(network))
    ensures var x, n := Ipv6ToBigInt(true, Text(ip)), Ipv6ToBigInt(true, Text(network));
      && !x.Throws? && !n.Throws?
      && (Ipv6InCidr(x, n, Some(prefix)) <==> InBlock(AddressOf(Expand(ip)), AddressOf(Expand(network)), 128 - prefix))
  {
    ParsesText(ip);
    ParsesText(network);
    NumbersInCidr(AddressOf(Expand(ip)), AddressOf(Expand(network)), prefix);
  }

  lemma NumbersInCidr(x: nat, n: nat, prefix: int)
    requires 0 <= prefix <= 128
    ensures Ipv6InCidr(Number(x), Number(n), Some(prefix)) <==> InBlock(x, n, 128 - prefix)
  {
    SharesPrefix(x, n, 128 - prefix);
  }

  /** A prefix length over 128 asks for the very address. */
  lemma LongPrefixIsEquality(x: nat, n: nat, prefix: int)
    requires prefix > 128
    ensures Ipv6InCidr(Number(x), Number(n), Some(prefix)) <==> x == n
  {
    SameMultiple(Pow2(prefix - 128), x, n);
  }

  lemma SameMultiple(p: nat, x: nat, n: nat)
    requires p > 0
    ensures x * p == n * p <==> x == n
  {
    if x < n { MoreTimes(p, x, n); } else if n < x { MoreTimes(p, n, x); }
  }

  lemma MoreTimes(p: nat, a: nat, b: nat)
    requires p > 0 && a < b
    ensures a * p < b * p
  {
    AtLeast(p, b - a);
    assert b * p == a * p + p * (b - a);
  }

  /** A text that is not an IPv6 address, or a prefix that is not an integer: never in the network. */
  lemma OnlyIpv6(isIpv6: bool, ip: string, network: Parsed, prefix: Option<int>)
    requires !Ipv6ToBigInt(isIpv6, ip).Throws? && !network.Throws?
    requires Ipv6InCidr(Ipv6ToBigInt(isIpv6, ip), network, prefix)
    ensures isIpv6 && network.Number? && prefix.Some?
  {
  }

  /** A prefix length of zero or below puts every address in the network. */
  lemma ShortPrefixMatchesAll(x: nat, n: nat, prefix: int)
    requires x < Pow2(128) && n < Pow2(128) && prefix <= 0
    ensures Ipv6InCidr(Number(x), Number(n), Some(prefix))
  {
    PowMono(128, 128 - prefix);
    DivModIs(x, Pow2(128 - prefix), 0, x);
    DivModIs(n, Pow2(128 - prefix), 0, n);
  }
}
