/**
 * Local address discovery (Services/NetworkService.cs): the RFC 1918 test
 * on an address's first two octets, and the filter that turns the host's
 * interfaces into NetworkInterfaceInfo records.
 *
 * The operating system's interface list is an input sequence; an exception
 * while enumerating is an optional index of the interface at which it is
 * raised.
 */
module Network {
  import opened Wrappers
  import opened InterfaceInfo

  type byte = x: int | 0 <= x < 256

  /** The four octets of an IPv4 address, most significant first. */
  datatype IPv4 = IPv4(b0: byte, b1: byte, b2: byte, b3: byte)

  type Bytes16 = s: seq<byte> | |s| == 16 witness seq(16, _ => 0)

  /** An address of family InterNetwork (IPv4) or InterNetworkV6 (IPv6). */
  datatype IPAddress = InterNetwork(v4: IPv4) | InterNetworkV6(v6: Bytes16)

  /** IPAddress.GetAddressBytes: network byte order, 4 or 16 bytes. */
  function GetAddressBytes(address: IPAddress): (bytes: seq<byte>)
    ensures |bytes| == if address.InterNetwork? then 4 else 16
  {
    match address
    case InterNetwork(a) => [a.b0, a.b1, a.b2, a.b3]
    case InterNetworkV6(s) => s
  }

  /** IsPrivateIpAddress: a switch on the first octet, looking at the second for 172 and 192. */
  function IsPrivateIpAddress(address: IPAddress): bool
  {
    var bytes := GetAddressBytes(address);
    if bytes[0] == 10 then true
    else if bytes[0] == 172 then 16 <= bytes[1] <= 31
    else if bytes[0] == 192 then bytes[1] == 168
    else false
  }

  // ---------------------------------------------------------------------------
  // The private ranges of section 3 of RFC 1918, as CIDR blocks
  // ---------------------------------------------------------------------------

  /** The address as a 32-bit unsigned number. */
  function ToUint32(a: IPv4): (v: nat)
    ensures v < 0x1_0000_0000
  {
    a.b0 * 0x100_0000 + a.b1 * 0x1_0000 + a.b2 * 0x100 + a.b3
  }

  function Pow2(n: nat): (p: nat)
    ensures p > 0
  {
    if n == 0 then 1 else 2 * Pow2(n - 1)
  }

  /** a lies in the block network/prefixLength: the top prefixLength bits agree. */
  predicate InBlock(a: IPv4, network: IPv4, prefixLength: nat)
    requires prefixLength <= 32
  {
    ToUint32(a) / Pow2(32 - prefixLength) == ToUint32(network) / Pow2(32 - prefixLength)
  }

  /** 10.0.0.0/8, 172.16.0.0/12 and 192.168.0.0/16. */
  predicate InPrivateRange(a: IPv4)
  {
    InBlock(a, IPv4(10, 0, 0, 0), 8)
    || InBlock(a, IPv4(172, 16, 0, 0), 12)
    || InBlock(a, IPv4(192, 168, 0, 0), 16)
  }

  lemma Pow2OfBlockSizes()
    ensures Pow2(16) == 0x1_0000 && Pow2(20) == 0x10_0000 && Pow2(24) == 0x100_0000
  {
    assert Pow2(4) == 16;
    assert Pow2(8) == 256 by { assert Pow2(5) == 32; assert Pow2(6) == 64; assert Pow2(7) == 128; }
    assert Pow2(12) == 0x1000 by { assert Pow2(9) == 512; assert Pow2(10) == 1024; assert Pow2(11) == 2048; }
    assert Pow2(16) == 0x1_0000 by { assert Pow2(13) == 0x2000; assert Pow2(14) == 0x4000; assert Pow2(15) == 0x8000; }
    assert Pow2(20) == 0x10_0000 by { assert Pow2(17) == 0x2_0000; assert Pow2(18) == 0x4_0000; assert Pow2(19) == 0x8_0000; }
    assert Pow2(24) == 0x100_0000 by { assert Pow2(21) == 0x20_0000; assert Pow2(22) == 0x40_0000; assert Pow2(23) == 0x80_0000; }
  }

  /** The octet test of IsPrivateIpAddress is exactly membership in the three RFC 1918 blocks. */
  lemma IsPrivateMeansRfc1918(a: IPv4)
    ensures IsPrivateIpAddress(InterNetwork(a)) <==> InPrivateRange(a)
  {
    Pow2OfBlockSizes();
    var v := ToUint32(a);
    assert v / 0x100_0000 == a.b0;
    assert v / 0x10_0000 == a.b0 * 16 + a.b1 / 16;
    assert v / 0x1_0000 == a.b0 * 0x100 + a.b1;
  }

  // ---------------------------------------------------------------------------
  // Address text (IPAddress.ToString for IPv4)
  // ---------------------------------------------------------------------------

  function DigitChar(d: int): (c: char)
    requires 0 <= d < 10
    ensures '0' <= c <= '9'
  {
    ('0' as int + d) as char
  }

  /** A number in decimal, without leading zeros. */
  function NatToDecimal(n: nat): (r: string)
    ensures |r| > 0
  {
    if n < 10 then [DigitChar(n)] else NatToDecimal(n / 10) + [DigitChar(n % 10)]
  }

  /** The number a string of decimal digits denotes. */
  function DecimalValue(s: string): int
  {
    if s == [] then 0 else DecimalValue(s[..|s| - 1]) * 10 + (s[|s| - 1] as int - '0' as int)
  }

  /** The decimal text of a number is made of digits, has no leading zero, and reads back as the number. */
  lemma {:induction false} NatToDecimalReadsBack(n: nat)
    ensures NatToDecimal(n) != []
    ensures forall i :: 0 <= i < |NatToDecimal(n)| ==> '0' <= NatToDecimal(n)[i] <= '9'
    ensures |NatToDecimal(n)| > 1 ==> NatToDecimal(n)[0] != '0'
    ensures DecimalValue(NatToDecimal(n)) == n
  {
    var s := NatToDecimal(n);
    if n < 10 {
      assert s[..0] == [];
    } else {
      NatToDecimalReadsBack(n / 10);
      var front := NatToDecimal(n / 10);
      assert s[..|s| - 1] == front;
      assert s[0] == front[0];
    }
  }

  /** The octets in decimal, separated by dots. */
  function JoinOctets(octets: seq<byte>): string
    decreases |octets|
  {
    if |octets| <= 1 then (if octets == [] then "" else NatToDecimal(octets[0]))
    else JoinOctets(octets[..|octets| - 1]) + "." + NatToDecimal(octets[|octets| - 1])
  }

  /** Dotted-decimal notation. */
  function Dotted(a: IPv4): string
  {
    JoinOctets([a.b0, a.b1, a.b2, a.b3])
  }

  /** The four octets in decimal, separated by three dots. */
  lemma DottedOctets(a: IPv4)
    ensures Dotted(a) == NatToDecimal(a.b0) + "." + NatToDecimal(a.b1) + "." + NatToDecimal(a.b2) + "." + NatToDecimal(a.b3)
  {
    var o1, o2, o3, o4 := [a.b0], [a.b0, a.b1], [a.b0, a.b1, a.b2], [a.b0, a.b1, a.b2, a.b3];
    assert o4[..3] == o3 && o3[..2] == o2 && o2[..1] == o1;
    assert JoinOctets(o2) == NatToDecimal(a.b0) + "." + NatToDecimal(a.b1);
    assert JoinOctets(o3) == JoinOctets(o2) + "." + NatToDecimal(a.b2);
    assert JoinOctets(o4) == JoinOctets(o3) + "." + NatToDecimal(a.b3);
  }

  // ---------------------------------------------------------------------------
  // What the operating system reports
  // ---------------------------------------------------------------------------

  datatype OperationalStatus = Up | Down | Testing | Unknown | Dormant | NotPresent | LowerLayerDown

  /**
   * System.Net.NetworkInformation.NetworkInterfaceType is an enum over int:
   * the platform reports a number, and ToString renders the member's name,
   * or the number itself when no member has that value.
   */
  type NetworkInterfaceType = int

  const Loopback: NetworkInterfaceType := 24

  function IntToDecimal(n: int): (r: string)
    ensures |r| > 0
  {
    if n < 0 then "-" + NatToDecimal(-n) else NatToDecimal(n)
  }

  /** The enum value rendered by ToString. */
  function TypeName(t: NetworkInterfaceType): (r: string)
    ensures |r| > 0
  {
    match t
    case 1 => "Unknown"
    case 6 => "Ethernet"
    case 9 => "TokenRing"
    case 15 => "Fddi"
    case 20 => "BasicIsdn"
    case 21 => "PrimaryIsdn"
    case 23 => "Ppp"
    case 24 => "Loopback"
    case 26 => "Ethernet3Megabit"
    case 28 => "Slip"
    case 37 => "Atm"
    case 48 => "GenericModem"
    case 62 => "FastEthernetT"
    case 63 => "Isdn"
    case 69 => "FastEthernetFx"
    case 71 => "Wireless80211"
    case 94 => "AsymmetricDsl"
    case 95 => "RateAdaptDsl"
    case 96 => "SymmetricDsl"
    case 97 => "VeryHighSpeedDsl"
    case 114 => "IPOverAtm"
    case 117 => "GigabitEthernet"
    case 131 => "Tunnel"
    case 143 => "MultiRateSymmetricDsl"
    case 144 => "HighPerformanceSerialBus"
    case 237 => "Wman"
    case 243 => "Wwanpp"
    case 244 => "Wwanpp2"
    case _ => IntToDecimal(t)
  }

  /** One unicast address of an interface, with its IPv4 mask when the platform reports one. */
  datatype UnicastAddress = UnicastAddress(Address: IPAddress, IPv4Mask: Option<IPv4>)

  datatype NetInterface = NetInterface(
    Name: string,
    Status: OperationalStatus,
    InterfaceType: NetworkInterfaceType,
    UnicastAddresses: seq<UnicastAddress>)

  // ---------------------------------------------------------------------------
  // The filter, as a reference definition
  // ---------------------------------------------------------------------------

  const DefaultSubnetMask: string := "255.255.255.0"

  /** An interface whose addresses are looked at: up, and not the loopback. */
  predicate InterfaceEligible(ni: NetInterface)
  {
    ni.Status == Up && ni.InterfaceType != Loopback
  }

  /** An address that is reported: IPv4 and private. */
  predicate AddressEligible(ua: UnicastAddress)
  {
    ua.Address.InterNetwork? && IsPrivateIpAddress(ua.Address)
  }

  /** The record made for an address of an interface. */
  function MakeRecord(ni: NetInterface, ua: UnicastAddress): NetworkInterfaceInfo
    requires ua.Address.InterNetwork?
  {
    NetworkInterfaceInfo(
      ni.Name,
      TypeName(ni.InterfaceType),
      Dotted(ua.Address.v4),
      match ua.IPv4Mask
      case Some(mask) => Dotted(mask)
      case None => DefaultSubnetMask)
  }

  /** The records of the eligible addresses among addrs, in order. */
  function AddressRecords(ni: NetInterface, addrs: seq<UnicastAddress>): (r: seq<NetworkInterfaceInfo>)
    ensures |r| <= |addrs|
  {
    if addrs == [] then []
    else
      var last := addrs[|addrs| - 1];
      AddressRecords(ni, addrs[..|addrs| - 1]) + (if AddressEligible(last) then [MakeRecord(ni, last)] else [])
  }

  /** The records of one interface. */
  function InterfaceRecords(ni: NetInterface): (r: seq<NetworkInterfaceInfo>)
    ensures |r| <= |ni.UnicastAddresses|
    ensures !InterfaceEligible(ni) ==> r == []
  {
    if InterfaceEligible(ni) then AddressRecords(ni, ni.UnicastAddresses) else []
  }

  /** The records of a list of interfaces, interface by interface. */
  function Discover(interfaces: seq<NetInterface>): seq<NetworkInterfaceInfo>
  {
    if interfaces == [] then []
    else Discover(interfaces[..|interfaces| - 1]) + InterfaceRecords(interfaces[|interfaces| - 1])
  }

  /** Address j of interface i is one the filter keeps. */
  predicate Qualifies(interfaces: seq<NetInterface>, i: int, j: int)
  {
    0 <= i < |interfaces| && 0 <= j < |interfaces[i].UnicastAddresses|
    && InterfaceEligible(interfaces[i]) && AddressEligible(interfaces[i].UnicastAddresses[j])
  }

  /** The number of records made before address j of interface i is reached. */
  function Position(interfaces: seq<NetInterface>, i: int, j: int): nat
    requires 0 <= i < |interfaces| && 0 <= j <= |interfaces[i].UnicastAddresses|
  {
    |Discover(interfaces[..i])| + |AddressRecords(interfaces[i], interfaces[i].UnicastAddresses[..j])|
  }

  // ---------------------------------------------------------------------------
  // Lemmas about the reference definition
  // ---------------------------------------------------------------------------

  lemma {:induction false} AddressRecordsAppend(ni: NetInterface, a: seq<UnicastAddress>, b: seq<UnicastAddress>)
    ensures AddressRecords(ni, a + b) == AddressRecords(ni, a) + AddressRecords(ni, b)
    decreases |b|
  {
    if b == [] {
      assert a + b == a;
    } else {
      assert (a + b)[..|a + b| - 1] == a + b[..|b| - 1];
      AddressRecordsAppend(ni, a, b[..|b| - 1]);
    }
  }

  lemma {:induction false} DiscoverAppend(a: seq<NetInterface>, b: seq<NetInterface>)
    ensures Discover(a + b) == Discover(a) + Discover(b)
    decreases |b|
  {
    if b == [] {
      assert a + b == a;
    } else {
      assert (a + b)[..|a + b| - 1] == a + b[..|b| - 1];
      DiscoverAppend(a, b[..|b| - 1]);
    }
  }

  /** The records of a prefix of the interfaces are a prefix of the records of all of them. */
  lemma DiscoverPrefix(interfaces: seq<NetInterface>, n: nat)
    requires n <= |interfaces|
    ensures Discover(interfaces[..n]) <= Discover(interfaces)
  {
    assert interfaces == interfaces[..n] + interfaces[n..];
    DiscoverAppend(interfaces[..n], interfaces[n..]);
  }

  lemma AddressRecordsPrefixLength(ni: NetInterface, addrs: seq<UnicastAddress>, j: nat, k: nat)
    requires j <= k <= |addrs|
    ensures |AddressRecords(ni, addrs[..j])| <= |AddressRecords(ni, addrs[..k])|
  {
    assert addrs[..k] == addrs[..j] + addrs[j..k];
    AddressRecordsAppend(ni, addrs[..j], addrs[j..k]);
  }

  lemma DiscoverPrefixLength(interfaces: seq<NetInterface>, i: nat, k: nat)
    requires i <= k <= |interfaces|
    ensures |Discover(interfaces[..i])| <= |Discover(interfaces[..k])|
  {
    assert interfaces[..k] == interfaces[..i] + interfaces[i..k];
    DiscoverAppend(interfaces[..i], interfaces[i..k]);
  }

  lemma AddressRecordsAt(ni: NetInterface, addrs: seq<UnicastAddress>, j: int)
    requires 0 <= j < |addrs| && AddressEligible(addrs[j])
    ensures |AddressRecords(ni, addrs[..j])| < |AddressRecords(ni, addrs)|
    ensures AddressRecords(ni, addrs)[|AddressRecords(ni, addrs[..j])|] == MakeRecord(ni, addrs[j])
  {
    assert addrs == addrs[..j + 1] + addrs[j + 1..];
    AddressRecordsAppend(ni, addrs[..j + 1], addrs[j + 1..]);
    assert addrs[..j + 1][..j] == addrs[..j];
  }

  lemma SplitAt<T>(s: seq<T>, i: int)
    requires 0 <= i < |s|
    ensures s == s[..i] + [s[i]] + s[i + 1..]
  {
  }

  lemma DiscoverCons(front: seq<NetInterface>, ni: NetInterface, rest: seq<NetInterface>)
    ensures Discover(front + [ni] + rest) == Discover(front) + InterfaceRecords(ni) + Discover(rest)
  {
    DiscoverAppend(front + [ni], rest);
    DiscoverAppend(front, [ni]);
    assert [ni][..0] == [];
  }

  lemma DiscoverSplit(interfaces: seq<NetInterface>, i: int)
    requires 0 <= i < |interfaces|
    ensures Discover(interfaces)
         == Discover(interfaces[..i]) + InterfaceRecords(interfaces[i]) + Discover(interfaces[i + 1..])
  {
    var front, ni, rest := interfaces[..i], interfaces[i], interfaces[i + 1..];
    SplitAt(interfaces, i);
    DiscoverCons(front, ni, rest);
    calc {
      Discover(interfaces);
      Discover(front + [ni] + rest);
      Discover(front) + InterfaceRecords(ni) + Discover(rest);
    }
  }

  /** Each kept address yields its record at its Position. */
  lemma DiscoverAt(interfaces: seq<NetInterface>, i: int, j: int)
    requires Qualifies(interfaces, i, j)
    ensures Position(interfaces, i, j) < |Discover(interfaces)|
    ensures Discover(interfaces)[Position(interfaces, i, j)]
         == MakeRecord(interfaces[i], interfaces[i].UnicastAddresses[j])
  {
    var ni := interfaces[i];
    AddressRecordsAt(ni, ni.UnicastAddresses, j);
    DiscoverSplit(interfaces, i);
    var before := Discover(interfaces[..i]);
    var here := AddressRecords(ni, ni.UnicastAddresses);
    var p := |AddressRecords(ni, ni.UnicastAddresses[..j])|;
    assert (before + here + Discover(interfaces[i + 1..]))[|before| + p] == here[p];
  }

  lemma {:induction false} AddressRecordsSound(ni: NetInterface, addrs: seq<UnicastAddress>, k: int)
    requires 0 <= k < |AddressRecords(ni, addrs)|
    ensures exists j :: (0 <= j < |addrs| && AddressEligible(addrs[j])
      && |AddressRecords(ni, addrs[..j])| == k && AddressRecords(ni, addrs)[k] == MakeRecord(ni, addrs[j]))
    decreases |addrs|
  {
    var n := |addrs| - 1;
    var front := addrs[..n];
    assert addrs[..n] == front;
    if k < |AddressRecords(ni, front)| {
      AddressRecordsSound(ni, front, k);
      var j :| 0 <= j < |front| && AddressEligible(front[j])
        && |AddressRecords(ni, front[..j])| == k && AddressRecords(ni, front)[k] == MakeRecord(ni, front[j]);
      assert front[..j] == addrs[..j];
      assert addrs[j] == front[j];
    } else {
      assert AddressRecords(ni, addrs)[k] == MakeRecord(ni, addrs[n]);
    }
  }

  /** Every record comes from a kept address of an eligible interface, at that address's Position. */
  lemma {:induction false} DiscoverSound(interfaces: seq<NetInterface>, k: int)
    requires 0 <= k < |Discover(interfaces)|
    ensures exists i, j :: (Qualifies(interfaces, i, j) && Position(interfaces, i, j) == k
      && Discover(interfaces)[k] == MakeRecord(interfaces[i], interfaces[i].UnicastAddresses[j]))
    decreases |interfaces|
  {
    var n := |interfaces| - 1;
    var front := interfaces[..n];
    if k < |Discover(front)| {
      DiscoverSound(front, k);
      var i, j :| Qualifies(front, i, j) && Position(front, i, j) == k
        && Discover(front)[k] == MakeRecord(front[i], front[i].UnicastAddresses[j]);
      assert front[..i] == interfaces[..i];
      assert Qualifies(interfaces, i, j) && Position(interfaces, i, j) == k;
    } else {
      var ni := interfaces[n];
      var k' := k - |Discover(front)|;
      assert InterfaceEligible(ni);
      AddressRecordsSound(ni, ni.UnicastAddresses, k');
      var j :| 0 <= j < |ni.UnicastAddresses| && AddressEligible(ni.UnicastAddresses[j])
        && |AddressRecords(ni, ni.UnicastAddresses[..j])| == k'
        && AddressRecords(ni, ni.UnicastAddresses)[k'] == MakeRecord(ni, ni.UnicastAddresses[j]);
      assert Qualifies(interfaces, n, j) && Position(interfaces, n, j) == k;
    }
  }

  /**
   * Records are in interface order, then address order: a kept address
   * that comes earlier has a smaller Position. With DiscoverAt and
   * DiscoverSound this makes Position an order-preserving one-to-one
   * correspondence between kept addresses and records.
   */
  lemma PositionIncreases(interfaces: seq<NetInterface>, i1: int, j1: int, i2: int, j2: int)
    requires Qualifies(interfaces, i1, j1) && Qualifies(interfaces, i2, j2)
    requires i1 < i2 || (i1 == i2 && j1 < j2)
    ensures Position(interfaces, i1, j1) < Position(interfaces, i2, j2)
  {
    var ni := interfaces[i1];
    var addrs := ni.UnicastAddresses;
    if i1 == i2 {
      AddressRecordsStep(ni, addrs, j1);
      AddressRecordsPrefixLength(ni, addrs, j1 + 1, j2);
    } else {
      AddressRecordsAt(ni, addrs, j1);
      DiscoverStep(interfaces, i1);
      DiscoverPrefixLength(interfaces, i1 + 1, i2);
    }
  }

  /** One more interface: its records follow those of the interfaces before it. */
  lemma DiscoverStep(interfaces: seq<NetInterface>, i: int)
    requires 0 <= i < |interfaces|
    ensures Discover(interfaces[..i + 1]) == Discover(interfaces[..i]) + InterfaceRecords(interfaces[i])
  {
    var upTo := interfaces[..i + 1];
    assert upTo[..|upTo| - 1] == interfaces[..i];
  }

  /** One more address: its record, if it is kept, follows those of the addresses before it. */
  lemma AddressRecordsStep(ni: NetInterface, addrs: seq<UnicastAddress>, j: int)
    requires 0 <= j < |addrs|
    ensures AddressRecords(ni, addrs[..j + 1])
         == AddressRecords(ni, addrs[..j]) + (if AddressEligible(addrs[j]) then [MakeRecord(ni, addrs[j])] else [])
  {
    var upTo := addrs[..j + 1];
    assert upTo[..|upTo| - 1] == addrs[..j];
  }

  /** The inner loop skips an address that is not kept. */
  lemma SkipAddress(ni: NetInterface, addrs: seq<UnicastAddress>, j: int)
    requires 0 <= j < |addrs| && !AddressEligible(addrs[j])
    ensures AddressRecords(ni, addrs[..j]) == AddressRecords(ni, addrs[..j + 1])
  {
    AddressRecordsStep(ni, addrs, j);
  }

  /** The inner loop appends the record of a kept address. */
  lemma KeepAddress(ni: NetInterface, addrs: seq<UnicastAddress>, j: int)
    requires 0 <= j < |addrs| && AddressEligible(addrs[j])
    ensures AddressRecords(ni, addrs[..j]) + [MakeRecord(ni, addrs[j])] == AddressRecords(ni, addrs[..j + 1])
  {
    AddressRecordsStep(ni, addrs, j);
  }

  /** The outer loop skips an interface that is down or a loopback interface. */
  lemma SkipInterface(interfaces: seq<NetInterface>, i: int)
    requires 0 <= i < |interfaces| && !InterfaceEligible(interfaces[i])
    ensures Discover(interfaces[..i]) == Discover(interfaces[..i + 1])
  {
    DiscoverStep(interfaces, i);
  }

  /** An eligible interface contributes the records of all its addresses. */
  lemma FinishInterface(interfaces: seq<NetInterface>, i: int)
    requires 0 <= i < |interfaces| && InterfaceEligible(interfaces[i])
    ensures Discover(interfaces[..i]) + AddressRecords(interfaces[i], interfaces[i].UnicastAddresses)
         == Discover(interfaces[..i + 1])
  {
    DiscoverStep(interfaces, i);
  }

  /** The loop's exit: the records of the first i interfaces, a prefix of all of them. */
  lemma PrefixResult(interfaces: seq<NetInterface>, i: int)
    requires 0 <= i <= |interfaces|
    ensures Discover(interfaces[..i]) <= Discover(interfaces)
    ensures i == |interfaces| ==> Discover(interfaces[..i]) == Discover(interfaces)
  {
    assert interfaces[..|interfaces|] == interfaces;
    DiscoverPrefix(interfaces, i);
  }

  /** How many interfaces are processed before the enumeration throws (all of them if it does not). */
  function Processed(count: nat, failAt: Option<nat>): (n: nat)
    ensures n <= count
    ensures failAt.None? ==> n == count
  {
    if failAt.Some? && failAt.value < count then failAt.value else count
  }

  /** The inner loop: the records of the kept addresses of one interface, in order. */
  method CollectAddresses(ni: NetInterface) returns (records: seq<NetworkInterfaceInfo>)
    ensures records == AddressRecords(ni, ni.UnicastAddresses)
  {
    records := [];
    var addrs := ni.UnicastAddresses;
    var j := 0;
    while j < |addrs|
      invariant 0 <= j <= |addrs|
      invariant records == AddressRecords(ni, addrs[..j])
    {
      var ua := addrs[j];
      if !ua.Address.InterNetwork? {
        SkipAddress(ni, addrs, j);
        j := j + 1;
        continue;
      }
      if !IsPrivateIpAddress(ua.Address) {
        SkipAddress(ni, addrs, j);
        j := j + 1;
        continue;
      }
      KeepAddress(ni, addrs, j);
      records := records + [MakeRecord(ni, ua)];
      j := j + 1;
    }
    assert addrs[..j] == addrs;
  }

  /**
   * The outer filter loop, over the interfaces; CollectAddresses is the inner
   * one. An exception raised when the loop reaches
   * interface failAt is caught: the records gathered so far are returned.
   */
  method GetAvailableLocalAddresses(interfaces: seq<NetInterface>, failAt: Option<nat>)
    returns (results: seq<NetworkInterfaceInfo>)
    ensures results == Discover(interfaces[..Processed(|interfaces|, failAt)])
    ensures results <= Discover(interfaces)
    ensures failAt.None? ==> results == Discover(interfaces)
  {
    results := [];
    var i := 0;
    while i < |interfaces|
      invariant 0 <= i <= Processed(|interfaces|, failAt)
      invariant results == Discover(interfaces[..i])
    {
      if failAt == Some(i) {
        break;
      }
      var ni := interfaces[i];
      if ni.Status != Up {
        SkipInterface(interfaces, i);
        i := i + 1;
        continue;
      }
      if ni.InterfaceType == Loopback {
        SkipInterface(interfaces, i);
        i := i + 1;
        continue;
      }
      var records := CollectAddresses(ni);
      results := results + records;
      FinishInterface(interfaces, i);
      i := i + 1;
    }
    PrefixResult(interfaces, i);
  }
}
