/** Whether an address lies in a network: IPv4 through 32-bit integers, IPv6 through its text. */
module Cidr {
  import opened Int32

  datatype Option<+T> = None | Some(value: T)

  type Byte = n: nat | n < 256

  // ----- IPv4 -----

  function Fold8(acc: int, octet: Byte): int {
    ToUint32(ShiftLeft(acc, 8) + octet)
  }

  /** The four octets of an address, as isIP accepts it. */
  function Ipv4ToNumber(o: seq<Byte>): int
    requires |o| == 4
  {
    Fold8(Fold8(Fold8(Fold8(0, o[0]), o[1]), o[2]), o[3])
  }

  function Mask(prefix: int): int {
    if prefix == 0 then 0 else ToUint32(ShiftLeft(0xffff_ffff, 32 - prefix))
  }

  /** None: not an IPv4 address, or not an integer. */
  predicate Ipv4InCidr(ip: Option<seq<Byte>>, network: Option<seq<Byte>>, prefix: Option<int>)
    requires ip.Some? ==> |ip.value| == 4
    requires network.Some? ==> |network.value| == 4
  {
    if ip.None? || network.None? || prefix.None? then false
    else
      var mask := Mask(prefix.value);
      And(Ipv4ToNumber(ip.value), mask) == And(Ipv4ToNumber(network.value), mask)
  }

  /** The address among the 2 ^ hostBits that share the network's leading bits. */
  predicate InBlock(x: int, network: int, hostBits: nat) {
    var first := network - network % Pow2(hostBits);
    first <= x < first + Pow2(hostBits)
  }

  lemma AddWraps(x: int, n: int)
    ensures (ToInt32(x) + n) % TWO32 == (x + n) % TWO32
  {
  }

  lemma Fold8Is(acc: nat, octet: Byte)
    requires acc < 0x100_0000
    ensures Fold8(acc, octet) == acc * 256 + octet
  {
    Powers();
    assert ShiftLeft(acc, 8) == ToInt32(acc * 256);
    AddWraps(acc * 256, octet);
  }

  lemma Ipv4Value(o: seq<Byte>)
    requires |o| == 4
    ensures var a: int, b: int, c: int, d: int := o[0], o[1], o[2], o[3];
      Ipv4ToNumber(o) == ((a * 256 + b) * 256 + c) * 256 + d
    ensures 0 <= Ipv4ToNumber(o) < TWO32
  {
    var a: int, b: int, c: int := o[0], o[1], o[2];
    Fold8Is(0, o[0]);
    Fold8Is(a, o[1]);
    Fold8Is(a * 256 + b, o[2]);
    Fold8Is((a * 256 + b) * 256 + c, o[3]);
  }

  lemma BlockSize(h: nat)
    requires h <= 32
    ensures Pow2(h) <= TWO32 && (h == 32 ==> Pow2(h) == TWO32)
  {
    Powers();
    PowMono(h, 32);
  }

  lemma MaskIs(prefix: int)
    requires 0 <= prefix <= 32
    ensures Pow2(32 - prefix) <= TWO32 && Mask(prefix) == TWO32 - Pow2(32 - prefix)
  {
    var h := 32 - prefix;
    BlockSize(h);
    if prefix > 0 {
      DivModIs(h, 32, 0, h);
      OnesShifted(Pow2(h));
    }
  }

  lemma OnesShifted(p: nat)
    requires 0 < p <= TWO32
    ensures ToUint32(ToInt32(ToUint32(0xffff_ffff) * p)) == TWO32 - p
  {
    var x := ToUint32(0xffff_ffff) * p;
    ToInt32Same(x);
    SmallWord(0xffff_ffff);
    DivModIs(x, TWO32, p - 1, TWO32 - p);
  }

  lemma SameMasked(a: nat, b: nat)
    requires a < TWO32 && b < TWO32
    ensures ToInt32(a) == ToInt32(b) <==> a == b
  {
  }

  lemma BlockHasQuotient(x: nat, network: nat, h: nat)
    ensures InBlock(x, network, h) ==> x / Pow2(h) == network / Pow2(h)
  {
    var p := Pow2(h);
    var r := network / p;
    assert network == p * r + network % p;
    if InBlock(x, network, h) { DivModIs(x, p, r, x - p * r); }
  }

  lemma HighParts(x: nat, p: nat)
    requires p > 0
    ensures x - x % p == p * (x / p)
  {
  }

  /** Two numbers share their high part exactly when one is in the other's block. */
  lemma SharesPrefix(x: nat, network: nat, h: nat)
    ensures x - x % Pow2(h) == network - network % Pow2(h) <==> InBlock(x, network, h)
    ensures x / Pow2(h) == network / Pow2(h) <==> InBlock(x, network, h)
  {
    BlockHasQuotient(x, network, h);
    HighParts(x, Pow2(h));
    HighParts(network, Pow2(h));
  }

  /** For a prefix length of 0 to 32: in the network exactly when in its interval (section 3.1 of RFC 4632). */
  lemma Ipv4InCidrIsInterval(ip: seq<Byte>, network: seq<Byte>, prefix: int)
    requires |ip| == 4 && |network| == 4 && 0 <= prefix <= 32
    ensures Ipv4InCidr(Some(ip), Some(network), Some(prefix)) <==>
            InBlock(Ipv4ToNumber(ip), Ipv4ToNumber(network), 32 - prefix)
  {
    Ipv4Value(ip);
    Ipv4Value(network);
    MaskedAlike(Ipv4ToNumber(ip), Ipv4ToNumber(network), prefix);
  }

  lemma MaskedAlike(x: nat, n: nat, prefix: int)
    requires x < TWO32 && n < TWO32 && 0 <= prefix <= 32
    ensures And(x, Mask(prefix)) == And(n, Mask(prefix)) <==> InBlock(x, n, 32 - prefix)
  {
    Masked(x, prefix);
    Masked(n, prefix);
    BelowSelf(x, 32 - prefix);
    BelowSelf(n, 32 - prefix);
    SharesPrefix(x, n, 32 - prefix);
    SameMasked(x - x % Pow2(32 - prefix), n - n % Pow2(32 - prefix));
  }

  lemma HighBits(x: nat, h: nat, mask: nat)
    requires x < TWO32 && h <= 32 && mask == TWO32 - Pow2(h)
    ensures AndWords(x, mask) == ToInt32(x - x % Pow2(h))
  {
    Powers();
    AndHigh(x, h, 32, mask);
  }

  lemma BelowSelf(x: nat, h: nat)
    ensures 0 <= x - x % Pow2(h) <= x
  {
    ModAtMost(x, Pow2(h));
  }

  lemma Masked(x: nat, prefix: int)
    requires x < TWO32 && 0 <= prefix <= 32
    ensures And(x, Mask(prefix)) == ToInt32(x - x % Pow2(32 - prefix))
  {
    MaskIs(prefix);
    var mask := Mask(prefix);
    HighBits(x, 32 - prefix, mask);
    AndSmall(x, mask);
  }

  /** Outside 0 to 32 the shift count wraps: another length in 1 to 32 takes the prefix's place. */
  lemma Ipv4PrefixWraps(ip: seq<Byte>, network: seq<Byte>, prefix: int)
    requires |ip| == 4 && |network| == 4 && prefix != 0
    ensures Ipv4InCidr(Some(ip), Some(network), Some(prefix)) ==
            Ipv4InCidr(Some(ip), Some(network), Some((prefix - 1) % 32 + 1))
  {
    MaskWraps(prefix);
  }

  lemma MaskWraps(prefix: int)
    requires prefix != 0
    ensures Mask(prefix) == Mask((prefix - 1) % 32 + 1)
  {
    var q, r := (prefix - 1) / 32, (prefix - 1) % 32;
    DivModIs(32 - prefix, 32, -q, 31 - r);
  }

  /** An address or network that is not IPv4, or a prefix that is not an integer: never in the network. */
  lemma OnlyIpv4(ip: Option<seq<Byte>>, network: Option<seq<Byte>>, prefix: Option<int>)
    requires ip.Some? ==> |ip.value| == 4
    requires network.Some? ==> |network.value| == 4
    requires Ipv4InCidr(ip, network, prefix)
    ensures ip.Some? && network.Some? && prefix.Some?
  {
  }
}
