/**
 IPv4 addresses as the daemon handles them: byte sequences, Go's net.IP and net.IPNet operations on them,
 and the arithmetic that relates the bytes to numbers.
 */
module Ipv4 {
  import opened Wrappers
  import Text

  type byte = x: int | 0 <= x < 256

  /** net.IP: four bytes, sixteen bytes, or (as an arithmetic artefact) any other number of bytes. */
  type IP = seq<byte>

  const MAPPED_PREFIX: seq<byte> := [0, 0, 0, 0, 0, 0, 0, 0, 0, 0, 255, 255]

  // ---------- shifts ----------

  function Pow2(k: nat): (p: nat)
    ensures p > 0
  {
    if k == 0 then 1 else 2 * Pow2(k - 1)
  }

  /** v shifted right by k bits. */
  function Shr(v: nat, k: nat): nat {
    if k == 0 then v else Shr(v / 2, k - 1)
  }

  /** v shifted left by k bits. */
  function Shl(v: nat, k: nat): nat {
    if k == 0 then v else 2 * Shl(v, k - 1)
  }

  lemma {:induction false} ShrAdd(v: nat, a: nat, b: nat)
    ensures Shr(v, a + b) == Shr(Shr(v, a), b)
  {
    if a > 0 {
      ShrAdd(v / 2, a - 1, b);
    }
  }

  /** The numbers with a given shifted value are one interval. */
  lemma {:induction false} ShrIsInterval(v: nat, q: nat, k: nat)
    ensures Shr(v, k) == q <==> Shl(q, k) <= v < Shl(q, k) + Pow2(k)
  {
    if k > 0 {
      ShrIsInterval(v / 2, q, k - 1);
    }
  }

  lemma {:induction false} ShlMonotone(p: nat, q: nat, k: nat)
    requires p < q
    ensures Shl(p, k) + Pow2(k) <= Shl(q, k)
  {
    if k > 0 {
      ShlMonotone(p, q, k - 1);
    }
  }

  // ---------- bytes and big-endian numbers ----------

  /** big.Int.SetBytes: the number written big-endian in `s`. */
  function Value(s: seq<byte>): nat {
    if s == [] then 0 else 256 * Value(s[..|s| - 1]) + s[|s| - 1]
  }

  /** big.Int.Bytes: the shortest big-endian form. */
  function Bytes(n: nat): (s: seq<byte>) {
    if n == 0 then [] else Bytes(n / 256) + [n % 256]
  }

  lemma {:induction false} ValueOfBytes(n: nat)
    ensures Value(Bytes(n)) == n
  {
    if n > 0 {
      ValueOfBytes(n / 256);
      assert Bytes(n)[..|Bytes(n)| - 1] == Bytes(n / 256);
    }
  }

  /** How many bytes the shortest form has, around the lengths that matter. */
  lemma BytesLength(n: nat)
    requires 0 < n <= 0x1_0000_0000
    ensures n < 0x100_0000 ==> |Bytes(n)| < 4
    ensures 0x100_0000 <= n < 0x1_0000_0000 ==> |Bytes(n)| == 4
    ensures n == 0x1_0000_0000 ==> |Bytes(n)| == 5
  {
    var a := n / 256;
    var b := a / 256;
    var c := b / 256;
    var d := c / 256;
    assert |Bytes(a)| == if a == 0 then 0 else 1 + |Bytes(b)|;
    assert |Bytes(b)| == if b == 0 then 0 else 1 + |Bytes(c)|;
    assert |Bytes(c)| == if c == 0 then 0 else 1 + |Bytes(d)|;
    assert |Bytes(d)| == if d == 0 then 0 else 1 + |Bytes(d / 256)|;
  }

  /** The four bytes of an address, written out. */
  lemma ValueOfFour(ip: seq<byte>)
    requires |ip| == 4
    ensures var a: int, b: int, c: int, d: int := ip[0], ip[1], ip[2], ip[3];
      Value(ip) == 0x100_0000 * a + 0x1_0000 * b + 0x100 * c + d
    ensures Value(ip) < 0x1_0000_0000
  {
    assert ip[..3][..2][..1] == [ip[0]] && ip[..3][..2] == [ip[0], ip[1]] && ip[..3] == [ip[0], ip[1], ip[2]];
    assert Value([ip[0]]) == ip[0];
    assert Value([ip[0], ip[1]]) == 256 * Value([ip[0]]) + ip[1];
    assert Value([ip[0], ip[1], ip[2]]) == 256 * Value([ip[0], ip[1]]) + ip[2];
  }

  lemma {:induction false} ValueInjective(s: seq<byte>, t: seq<byte>)
    requires |s| == |t| && Value(s) == Value(t)
    ensures s == t
  {
    if s != [] {
      ValueInjective(s[..|s| - 1], t[..|t| - 1]);
      assert s == s[..|s| - 1] + [s[|s| - 1]];
      assert t == t[..|t| - 1] + [t[|t| - 1]];
    }
  }

  /** The four-byte address with value v. */
  function FromValue(v: nat): (ip: IP)
    requires v < 0x1_0000_0000
    ensures |ip| == 4 && Value(ip) == v
  {
    var c := v / 256;
    var b := c / 256;
    var ip := [b / 256, b % 256, c % 256, v % 256];
    ValueOfFour(ip);
    ip
  }

  lemma FromValueOfValue(ip: IP)
    requires |ip| == 4
    ensures Value(ip) < 0x1_0000_0000 && FromValue(Value(ip)) == ip
  {
    ValueOfFour(ip);
    ValueInjective(FromValue(Value(ip)), ip);
  }

  // ---------- net.IP ----------

  /** net.IP.To4. */
  function To4(ip: IP): (r: Option<IP>)
    ensures r.Some? ==> |r.value| == 4
  {
    if |ip| == 4 then Some(ip)
    else if |ip| == 16 && ip[..12] == MAPPED_PREFIX then Some(ip[12..])
    else None
  }

  /** net.IP.Equal. */
  predicate Equal(a: IP, b: IP) {
    if |a| == |b| then a == b
    else if |a| == 4 && |b| == 16 then b == MAPPED_PREFIX + a
    else if |a| == 16 && |b| == 4 then a == MAPPED_PREFIX + b
    else false
  }

  lemma EqualIsSameV4(a: IP, b: IP)
    requires |b| == 4
    ensures Equal(a, b) <==> To4(a) == Some(b)
  {
    if |a| == 16 && a[..12] == MAPPED_PREFIX {
      assert a == a[..12] + a[12..];
    }
  }

  /** net.IP.String on the addresses that have a four-byte form: dotted decimal. */
  function ToString(ip: IP): string
    requires To4(ip).Some?
  {
    var v4 := To4(ip).value;
    Text.Decimal(v4[0]) + "." + (Text.Decimal(v4[1]) + "." + (Text.Decimal(v4[2]) + "." + Text.Decimal(v4[3])))
  }

  /** The text of an address is its four bytes in order, in decimal, with dots between. */
  lemma ToStringSpells(ip: IP) returns (a: string, b: string, c: string, d: string)
    requires |ip| == 4
    ensures ToString(ip) == a + "." + b + "." + c + "." + d
    ensures Text.Spells(a, ip[0]) && Text.Spells(b, ip[1]) && Text.Spells(c, ip[2]) && Text.Spells(d, ip[3])
  {
    a, b, c, d := Text.Decimal(ip[0]), Text.Decimal(ip[1]), Text.Decimal(ip[2]), Text.Decimal(ip[3]);
    Text.DecimalSpells(ip[0]);
    Text.DecimalSpells(ip[1]);
    Text.DecimalSpells(ip[2]);
    Text.DecimalSpells(ip[3]);
    assert ToString(ip) == a + "." + (b + "." + (c + "." + d));
  }

  /** Dotted decimal tells addresses apart. */
  lemma ToStringInjective(a: IP, b: IP)
    requires |a| == |b| == 4 && ToString(a) == ToString(b)
    ensures a == b
  {
    var at := Text.Decimal(a[2]) + "." + Text.Decimal(a[3]);
    var bt := Text.Decimal(b[2]) + "." + Text.Decimal(b[3]);
    DigitsHaveNoDot(a[0]); DigitsHaveNoDot(b[0]);
    Text.SplitUnique(Text.Decimal(a[0]), Text.Decimal(a[1]) + "." + at, Text.Decimal(b[0]),
      Text.Decimal(b[1]) + "." + bt, '.');
    DigitsHaveNoDot(a[1]); DigitsHaveNoDot(b[1]);
    Text.SplitUnique(Text.Decimal(a[1]), at, Text.Decimal(b[1]), bt, '.');
    DigitsHaveNoDot(a[2]); DigitsHaveNoDot(b[2]);
    Text.SplitUnique(Text.Decimal(a[2]), Text.Decimal(a[3]), Text.Decimal(b[2]), Text.Decimal(b[3]), '.');
    forall i | 0 <= i < 4
      ensures a[i] == b[i]
    {
      Text.DecimalInjective(a[i], b[i]);
    }
  }

  lemma DigitsHaveNoDot(n: nat)
    ensures '.' !in Text.Decimal(n)
  {
    assert !Text.IsDigit('.');
  }

  /** The text of the address with value v: the key under which a store holds it. */
  function Key(v: nat): string
    requires v < 0x1_0000_0000
  {
    ToString(FromValue(v))
  }

  lemma KeyOfValue(ip: IP)
    requires |ip| == 4
    ensures Value(ip) < 0x1_0000_0000 && Key(Value(ip)) == ToString(ip)
  {
    FromValueOfValue(ip);
  }

  // ---------- the successor ----------

  /** nextIP: an address without a four-byte form counts as zero. */
  function NextIP(ip: IP): IP {
    var v4 := To4(ip);
    Bytes((if v4.Some? then Value(v4.value) else 0) + 1)
  }

  /**
   The byte-level successor is the number's successor in four bytes exactly when that number needs four
   bytes; otherwise its length is neither four nor sixteen.
   */
  lemma NextIPExact(ip: IP)
    requires To4(ip).Some?
    ensures var n := Value(To4(ip).value) + 1;
      if 0x100_0000 <= n < 0x1_0000_0000 then NextIP(ip) == FromValue(n)
      else |NextIP(ip)| != 4 && To4(NextIP(ip)).None? && |NextIP(ip)| != 16
  {
    var n := Value(To4(ip).value) + 1;
    ValueOfFour(To4(ip).value);
    BytesLength(n);
    if 0x100_0000 <= n < 0x1_0000_0000 {
      ValueOfBytes(n);
      ValueInjective(Bytes(n), FromValue(n));
    }
  }

  lemma NextIPOfOddLength(ip: IP)
    requires To4(ip).None?
    ensures NextIP(ip) == [1]
  {
    assert Bytes(1) == Bytes(0) + [1];
  }

  // ---------- masks and subnets ----------

  /** Bitwise and of two numbers. */
  function And(x: nat, y: nat): nat {
    if x == 0 || y == 0 then 0 else 2 * And(x / 2, y / 2) + (if x % 2 == 1 && y % 2 == 1 then 1 else 0)
  }

  lemma {:induction false} AndAllOnes(x: nat, width: nat)
    requires x < Pow2(width)
    ensures And(x, Pow2(width) - 1) == x
  {
    if x > 0 {
      AndAllOnes(x / 2, width - 1);
    }
  }

  /** A mask of leading ones compares what is left of its k zeros. */
  lemma {:induction false} AndComparesLeadingBits(x: nat, y: nat, k: nat, width: nat)
    requires k <= width && x < Pow2(width) && y < Pow2(width)
    ensures Pow2(k) <= Pow2(width)
    ensures And(x, Pow2(width) - Pow2(k)) == And(y, Pow2(width) - Pow2(k)) <==> Shr(x, k) == Shr(y, k)
  {
    if k == 0 {
      AndAllOnes(x, width);
      AndAllOnes(y, width);
    } else {
      AndComparesLeadingBits(x / 2, y / 2, k - 1, width - 1);
    }
  }

  /** The mask byte with the given number of leading ones. */
  function MaskByte(ones: int): byte {
    if ones <= 0 then 0
    else if ones == 1 then 0x80
    else if ones == 2 then 0xC0
    else if ones == 3 then 0xE0
    else if ones == 4 then 0xF0
    else if ones == 5 then 0xF8
    else if ones == 6 then 0xFC
    else if ones == 7 then 0xFE
    else 0xFF
  }

  lemma MaskByteValue(ones: nat)
    requires ones <= 8
    ensures MaskByte(ones) == 256 - Pow2(8 - ones) && Pow2(8) == 256
  {
    assert Pow2(2) == 4 && Pow2(4) == 16 && Pow2(6) == 64;
  }

  /** net.CIDRMask(ones, 8 * length). */
  function CIDRMask(ones: nat, length: nat): (m: seq<byte>)
    ensures |m| == length
  {
    seq(length, i requires 0 <= i => MaskByte(ones - 8 * i))
  }

  /** net.IPNet for an IPv4 base: the base need not be the first address of the block. */
  datatype IPNet = IPNet(ip: IP, ones: nat) {

    predicate Valid() {
      To4(ip).Some? && ones <= 32
    }

    function Base(): nat
      requires Valid()
    {
      Value(To4(ip).value)
    }

    /** The first number of the block. */
    function Low(): nat
      requires Valid()
    {
      Shl(Shr(Base(), 32 - ones), 32 - ones)
    }

    /** The last number of the block. */
    function High(): nat
      requires Valid()
    {
      Low() + Pow2(32 - ones) - 1
    }
  }

  /** The comparison loop of net.IPNet.Contains. */
  predicate MaskedEqual(nn: seq<byte>, ip: seq<byte>, mask: seq<byte>)
    requires |nn| == |ip| == |mask|
  {
    forall i :: 0 <= i < |nn| ==> And(nn[i], mask[i]) == And(ip[i], mask[i])
  }

  /** net.IPNet.Contains for an IPv4 network. */
  predicate Contains(net: IPNet, ip: IP)
    requires net.Valid()
  {
    var x := if To4(ip).Some? then To4(ip).value else ip;
    |x| == 4 && MaskedEqual(To4(net.ip).value, x, CIDRMask(net.ones, 4))
  }

  lemma MaskByteCompares(x: byte, y: byte, ones: nat)
    requires ones <= 8
    ensures And(x, MaskByte(ones)) == And(y, MaskByte(ones)) <==> Shr(x, 8 - ones) == Shr(y, 8 - ones)
  {
    MaskByteValue(ones);
    AndComparesLeadingBits(x, y, 8 - ones, 8);
  }

  /** Comparing under a mask, peeled from the last byte. */
  lemma MaskedEqualLast(s: seq<byte>, t: seq<byte>, ones: nat)
    requires |s| == |t| > 0 && ones <= 8 * |s|
    ensures var n := |s| - 1;
      var last := ones - 8 * n;
      MaskedEqual(s, t, CIDRMask(ones, |s|)) <==>
        && MaskedEqual(s[..n], t[..n], CIDRMask(if last <= 0 then ones else 8 * n, n))
        && (last <= 0 || Shr(s[n], 8 - last) == Shr(t[n], 8 - last))
  {
    var n := |s| - 1;
    var last := ones - 8 * n;
    var whole := CIDRMask(ones, |s|);
    assert whole[..n] == CIDRMask(if last <= 0 then ones else 8 * n, n);
    MaskByteCompares(s[n], t[n], if last <= 0 then 0 else last);
    assert MaskedEqual(s, t, whole) <==>
      MaskedEqual(s[..n], t[..n], whole[..n]) && And(s[n], whole[n]) == And(t[n], whole[n]);
    assert last <= 0 ==> And(s[n], whole[n]) == And(t[n], whole[n]);
  }

  /** Bits appended below are shifted out again. */
  lemma {:induction false} ShrOfAppended(v: nat, b: nat, k: nat)
    requires b < Pow2(k)
    ensures Shr(Shl(v, k) + b, k) == v
  {
    if k > 0 {
      assert (Shl(v, k) + b) / 2 == Shl(v, k - 1) + b / 2;
      ShrOfAppended(v, b / 2, k - 1);
    }
  }

  /** Fewer than eight bits of an appended byte are shifted out: what is left of both parts still decides. */
  lemma {:induction false} ShrSplits(u: nat, v: nat, b: nat, c: nat, k: nat, width: nat)
    requires k <= width && b < Pow2(width) && c < Pow2(width)
    ensures Shr(Shl(u, width) + b, k) == Shr(Shl(v, width) + c, k) <==> u == v && Shr(b, k) == Shr(c, k)
  {
    if k == 0 {
      if u < v {
        ShlMonotone(u, v, width);
      } else if v < u {
        ShlMonotone(v, u, width);
      }
    } else {
      assert (Shl(u, width) + b) / 2 == Shl(u, width - 1) + b / 2;
      assert (Shl(v, width) + c) / 2 == Shl(v, width - 1) + c / 2;
      ShrSplits(u, v, b / 2, c / 2, k - 1, width - 1);
    }
  }

  lemma Shl8(v: nat)
    ensures Shl(v, 8) == 256 * v && Pow2(8) == 256
  {
    assert Shl(v, 1) == 2 * v && Shl(v, 2) == 4 * v && Shl(v, 3) == 8 * v && Shl(v, 4) == 16 * v;
    assert Shl(v, 5) == 32 * v && Shl(v, 6) == 64 * v && Shl(v, 7) == 128 * v;
    assert Pow2(2) == 4 && Pow2(4) == 16 && Pow2(6) == 64;
  }

  /** Shifting out at least the last byte. */
  lemma ShrDropsLastByte(s: seq<byte>, k: nat)
    requires s != [] && k >= 8
    ensures Shr(Value(s), k) == Shr(Value(s[..|s| - 1]), k - 8)
  {
    ShrAdd(Value(s), 8, k - 8);
    Shl8(Value(s[..|s| - 1]));
    ShrOfAppended(Value(s[..|s| - 1]), s[|s| - 1], 8);
  }

  /** Shifting out part of the last byte. */
  lemma ShrKeepsPrefix(s: seq<byte>, t: seq<byte>, k: nat)
    requires |s| == |t| > 0 && k <= 8
    ensures var n := |s| - 1;
      Shr(Value(s), k) == Shr(Value(t), k) <==> Value(s[..n]) == Value(t[..n]) && Shr(s[n], k) == Shr(t[n], k)
  {
    var n := |s| - 1;
    Shl8(Value(s[..n]));
    Shl8(Value(t[..n]));
    ShrSplits(Value(s[..n]), Value(t[..n]), s[n], t[n], k, 8);
  }

  /** Byte-wise masking compares the numbers' leading bits. */
  lemma {:induction false} MaskedEqualIsShift(s: seq<byte>, t: seq<byte>, ones: nat)
    requires |s| == |t| && ones <= 8 * |s|
    ensures MaskedEqual(s, t, CIDRMask(ones, |s|)) <==> Shr(Value(s), 8 * |s| - ones) == Shr(Value(t), 8 * |s| - ones)
  {
    if s != [] {
      var n := |s| - 1;
      var last := ones - 8 * n;
      MaskedEqualLast(s, t, ones);
      MaskedEqualIsShift(s[..n], t[..n], if last <= 0 then ones else 8 * n);
      if last <= 0 {
        ShrDropsLastByte(s, 8 * |s| - ones);
        ShrDropsLastByte(t, 8 * |s| - ones);
      } else {
        ShrKeepsPrefix(s, t, 8 - last);
      }
    }
  }

  lemma ContainsIsShift(net: IPNet, x: IP)
    requires net.Valid() && |x| == 4
    ensures Contains(net, x) <==> Shr(net.Base(), 32 - net.ones) == Shr(Value(x), 32 - net.ones)
  {
    MaskedEqualIsShift(To4(net.ip).value, x, net.ones);
  }

  /** A subnet is one interval of numbers around its base, wherever in the block the base lies. */
  lemma ContainsIsInterval(net: IPNet, v: nat)
    requires net.Valid() && v < 0x1_0000_0000
    ensures Contains(net, FromValue(v)) <==> net.Low() <= v <= net.High()
    ensures net.Low() <= net.Base() <= net.High() < 0x1_0000_0000
  {
    var k := 32 - net.ones;
    ContainsIsShift(net, FromValue(v));
    ShrIsInterval(v, Shr(net.Base(), k), k);
    ShrIsInterval(net.Base(), Shr(net.Base(), k), k);
    ValueOfFour(To4(net.ip).value);
    Pow2Is32();
    BlockBelow(net.Base(), k, 32);
  }

  lemma {:induction false} BlockBelow(v: nat, k: nat, width: nat)
    requires k <= width && v < Pow2(width)
    ensures Shl(Shr(v, k), k) + Pow2(k) <= Pow2(width)
  {
    if k > 0 {
      BlockBelow(v / 2, k - 1, width - 1);
    } else {
      assert Shl(Shr(v, k), k) == v;
    }
  }

  lemma Pow2Is32()
    ensures Pow2(32) == 0x1_0000_0000
  {
    assert Pow2(4) == 16 && Pow2(8) == 256 && Pow2(12) == 4096 && Pow2(16) == 65536;
    assert Pow2(20) == 0x10_0000 && Pow2(24) == 0x100_0000 && Pow2(28) == 0x1000_0000;
  }

  /**
   The start-up check: if the overlay's prefix is no longer than the local one and the overlay contains the
   local base, every address of the local subnet lies in the overlay.
   */
  lemma OverlayCoversSubnet(overlay: IPNet, subnet: IPNet, ip: IP)
    requires overlay.Valid() && subnet.Valid()
    requires overlay.ones <= subnet.ones && Contains(overlay, subnet.ip) && Contains(subnet, ip)
    ensures Contains(overlay, ip)
  {
    var base := To4(subnet.ip).value;
    var x := if To4(ip).Some? then To4(ip).value else ip;
    ContainsIsShift(overlay, base);
    ContainsIsShift(overlay, x);
    ContainsIsShift(subnet, x);
    ShrAdd(Value(base), 32 - subnet.ones, subnet.ones - overlay.ones);
    ShrAdd(Value(x), 32 - subnet.ones, subnet.ones - overlay.ones);
  }
}
