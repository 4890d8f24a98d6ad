/** Network identifiers and the names made from them. */
module Naming {
  import opened Wrappers
  import opened Ipv4
  import Text

  /** The largest name the kernel takes for a link. */
  const MAX_LINK_NAME: nat := 15

  function SandboxName(vni: nat): string {
    "vni-" + Text.Decimal(vni)
  }

  function VxlanName(vni: nat): string {
    "vxlan" + Text.Decimal(vni)
  }

  function BridgeName(vni: nat): string {
    "vxlanbr" + Text.Decimal(vni)
  }

  /** A 32-bit little-endian number. */
  function LittleEndian(d: seq<byte>): (n: nat)
    requires |d| == 4
  {
    var a: int, b: int, c: int, e: int := d[0], d[1], d[2], d[3];
    a + 0x100 * b + 0x1_0000 * c + 0x100_0000 * e
  }

  /** A SHA-1 hash. */
  type Digest = d: seq<byte> | |d| == 20 witness seq(20, _ => 0)

  /** The alphabet of section 6 of RFC 4648. */
  predicate IsBase32(s: string) {
    forall i :: 0 <= i < |s| ==> 'A' <= s[i] <= 'Z' || '2' <= s[i] <= '7'
  }

  /** The base32 text of a hash. */
  type Encoded = s: string | |s| == 32 && IsBase32(s) witness seq(32, _ => 'A')

  /** What NameSandboxLink names a link. */
  predicate IsLinkName(s: string) {
    |s| == MAX_LINK_NAME && IsBase32(s)
  }

  /** A network's VNI: three bytes of the hash of its ID, little-endian. */
  function VNI(hash: string -> Digest, networkID: string): nat {
    LittleEndian(hash(networkID)[..4]) % 0x100_0000
  }

  lemma VNIIsThreeBytes(hash: string -> Digest, networkID: string)
    ensures var a: int, b: int, c: int := hash(networkID)[0], hash(networkID)[1], hash(networkID)[2];
      VNI(hash, networkID) == a + 256 * b + 65536 * c
  {
  }

  /** GetVNI; the number fits the 24 bits of section 5 of RFC 7348. */
  method GetVNI(hash: string -> Digest, networkID: string) returns (vni: nat)
    ensures vni == VNI(hash, networkID) && vni < 0x100_0000
    ensures var a: int, b: int, c: int := hash(networkID)[0], hash(networkID)[1], hash(networkID)[2];
      vni == a + 256 * b + 65536 * c
  {
    VNIIsThreeBytes(hash, networkID);
    var sum := hash(networkID);
    var digest := new byte[20](i requires 0 <= i < 20 => sum[i]);
    digest[3] := 0;
    vni := LittleEndian(digest[..4]);
    assert digest[..4] == [sum[0], sum[1], sum[2], 0];
    assert sum[..4] == [sum[0], sum[1], sum[2], sum[3]];
  }

  /** A network payload without a space goes to the default network. */
  function GetNetworkID(spaceID: string, defaultNetworkID: string): string {
    if spaceID == "" then defaultNetworkID else spaceID
  }

  /** NameSandboxLink: the first characters of the base32 text of a hash of the container ID. */
  function SandboxLinkName(encodedHash: Encoded): string {
    encodedHash[..MAX_LINK_NAME]
  }

  /**
   For every network ID the VNI has 24 bits and every generated link name fits; a bridge of the widest VNI fits
   exactly.
   */
  lemma LinkNamesFit(hash: string -> Digest, networkID: string, encodedHash: Encoded)
    ensures var vni := VNI(hash, networkID);
      && vni < 0x100_0000
      && |VxlanName(vni)| < |BridgeName(vni)| <= MAX_LINK_NAME
      && (vni >= 10_000_000 ==> |BridgeName(vni)| == MAX_LINK_NAME)
    ensures IsLinkName(SandboxLinkName(encodedHash))
    ensures forall i :: 0 <= i < MAX_LINK_NAME ==> SandboxLinkName(encodedHash)[i] == encodedHash[i]
  {
    var vni := VNI(hash, networkID);
    assert Text.Pow10(2) == 100 && Text.Pow10(4) == 10_000;
    assert Text.Pow10(6) == 1_000_000 && Text.Pow10(8) == 100_000_000;
    Text.DecimalLength(vni, 8);
    if vni >= 10_000_000 {
      Text.DecimalAtLeast(vni, 8);
    }
  }

  /** The names of a network's sandbox, vxlan link and bridge end in its VNI, in decimal. */
  lemma NamesSpell(vni: nat) returns (digits: string)
    ensures Text.Spells(digits, vni)
    ensures SandboxName(vni) == "vni-" + digits && VxlanName(vni) == "vxlan" + digits
    ensures BridgeName(vni) == "vxlanbr" + digits
  {
    digits := Text.Decimal(vni);
    Text.DecimalSpells(vni);
  }

  /** Sandbox names tell VNIs apart. */
  lemma SandboxNameInjective(v: nat, w: nat)
    requires SandboxName(v) == SandboxName(w)
    ensures v == w
  {
    assert SandboxName(v)[4..] == Text.Decimal(v) && SandboxName(w)[4..] == Text.Decimal(w);
    Text.DecimalInjective(v, w);
  }

  function TrimPrefix(s: string, prefix: string): string {
    if prefix <= s then s[|prefix|..] else s
  }

  datatype NameError = NotASandboxName

  /** The reloader's getVxlanName. */
  function GetVxlanName(nsName: string): Result<string, NameError> {
    var s := TrimPrefix(Text.Base(nsName), "vni-");
    if s == nsName then Err(NotASandboxName) else Ok("vxlan" + s)
  }

  /** From the path of any sandbox, under any directory, the reloader recovers the sandbox's own vxlan name. */
  lemma ReloaderRecoversVxlanName(dir: string, vni: nat)
    ensures GetVxlanName(dir + "/" + SandboxName(vni)) == Ok(VxlanName(vni))
  {
    var name := SandboxName(vni);
    forall i | 0 <= i < |name|
      ensures name[i] != '/'
    {
      if i >= 4 {
        assert name[i] == Text.Decimal(vni)[i - 4];
        assert Text.IsDigit(Text.Decimal(vni)[i - 4]);
      }
    }
    Text.BaseOfJoin(dir, name);
    assert name[4..] == Text.Decimal(vni);
  }

  /**
   The reloader refuses a path only when it is its own last element and does not start like a sandbox name.
   */
  lemma ReloaderRefusesExactly(nsName: string)
    ensures GetVxlanName(nsName).Err? <==> Text.Base(nsName) == nsName && !("vni-" <= nsName)
  {
    if nsName != "" {
      Text.BaseNoLonger(nsName);
    }
  }

  /** Any other file in the sandbox directory is taken for a sandbox of a network named after the whole file. */
  lemma ReloaderTakesForeignFiles(dir: string, name: string)
    requires name != "" && '/' !in name && !("vni-" <= name)
    ensures GetVxlanName(dir + "/" + name) == Ok("vxlan" + name)
  {
    Text.BaseOfJoin(dir, name);
    assert |dir + "/" + name| > |name|;
  }
}
