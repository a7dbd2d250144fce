/**
 * A worked instance of address discovery: a wired interface with two
 * private addresses, a wireless one with a public, a private and another
 * public address, and the loopback interface.
 */
module NetworkExample {
  import opened Wrappers
  import opened InterfaceInfo
  import opened Network

  const Ethernet: NetworkInterfaceType := 6
  const Wireless80211: NetworkInterfaceType := 71

  function Addr(a: byte, b: byte, c: byte, d: byte): UnicastAddress
  {
    UnicastAddress(InterNetwork(IPv4(a, b, c, d)), None)
  }

  const Eth := NetInterface("eth0", Up, Ethernet, [Addr(10, 1, 2, 3), Addr(172, 20, 0, 5)])
  const Wlan := NetInterface("wlan0", Up, Wireless80211, [Addr(172, 40, 0, 5), Addr(192, 168, 1, 10), Addr(8, 8, 8, 8)])
  const Lo := NetInterface("lo", Up, Loopback, [Addr(127, 0, 0, 1)])

  /** Both addresses of the wired interface are private. */
  lemma EthRecords()
    ensures InterfaceRecords(Eth) == [MakeRecord(Eth, Addr(10, 1, 2, 3)), MakeRecord(Eth, Addr(172, 20, 0, 5))]
  {
    var ea := Eth.UnicastAddresses;
    assert ea[..1] == [ea[0]] && [ea[0]][..0] == [];
    assert AddressEligible(ea[0]) && AddressEligible(ea[1]);
    assert AddressRecords(Eth, ea[..1]) == AddressRecords(Eth, []) + [MakeRecord(Eth, ea[0])];
  }

  /** 172.40.0.5 lies outside 172.16.0.0/12 and 8.8.8.8 is public: one record. */
  lemma WlanRecords()
    ensures InterfaceRecords(Wlan) == [MakeRecord(Wlan, Addr(192, 168, 1, 10))]
  {
    var wa := Wlan.UnicastAddresses;
    assert wa[..2] == [wa[0], wa[1]] && [wa[0], wa[1]][..1] == [wa[0]] && [wa[0]][..0] == [];
    assert !AddressEligible(wa[0]) && AddressEligible(wa[1]) && !AddressEligible(wa[2]);
    assert AddressRecords(Wlan, wa[..1]) == AddressRecords(Wlan, []);
    assert AddressRecords(Wlan, wa[..2]) == AddressRecords(Wlan, wa[..1]) + [MakeRecord(Wlan, wa[1])];
  }

  /** The loopback interface is skipped, whatever its addresses. */
  lemma DiscoverExampleRecords()
    ensures Discover([Eth, Wlan, Lo])
         == [MakeRecord(Eth, Addr(10, 1, 2, 3)), MakeRecord(Eth, Addr(172, 20, 0, 5)), MakeRecord(Wlan, Addr(192, 168, 1, 10))]
  {
    var all := [Eth, Wlan, Lo];
    assert all[..2] == [Eth, Wlan];
    assert [Eth, Wlan][..1] == [Eth];
    assert [Eth][..0] == [];
    assert InterfaceRecords(Lo) == [];
    EthRecords();
    WlanRecords();
    assert Discover([Eth]) == InterfaceRecords(Eth);
    assert Discover([Eth, Wlan]) == InterfaceRecords(Eth) + InterfaceRecords(Wlan);
  }

  lemma TwoDigits(n: nat)
    requires 10 <= n < 100
    ensures NatToDecimal(n) == [DigitChar(n / 10), DigitChar(n % 10)]
  {
    assert NatToDecimal(n) == NatToDecimal(n / 10) + [DigitChar(n % 10)];
  }

  lemma ThreeDigits(n: nat)
    requires 100 <= n < 1000
    ensures NatToDecimal(n) == [DigitChar(n / 100), DigitChar(n / 10 % 10), DigitChar(n % 10)]
  {
    TwoDigits(n / 10);
    assert NatToDecimal(n) == NatToDecimal(n / 10) + [DigitChar(n % 10)];
  }

  lemma FirstAddressInDecimal()
    ensures Dotted(IPv4(10, 1, 2, 3)) == "10.1.2.3"
  {
    DottedOctets(IPv4(10, 1, 2, 3));
    TwoDigits(10);
  }

  lemma SecondAddressInDecimal()
    ensures Dotted(IPv4(172, 20, 0, 5)) == "172.20.0.5"
  {
    DottedOctets(IPv4(172, 20, 0, 5));
    ThreeDigits(172);
    TwoDigits(20);
  }

  lemma ThirdAddressInDecimal()
    ensures Dotted(IPv4(192, 168, 1, 10)) == "192.168.1.10"
  {
    DottedOctets(IPv4(192, 168, 1, 10));
    ThreeDigits(192);
    ThreeDigits(168);
    TwoDigits(10);
  }

  /** The three private addresses, in interface order and then address order, with the default mask. */
  lemma DiscoverExample()
    ensures var r := Discover([Eth, Wlan, Lo]);
      && |r| == 3
      && r[0].IpAddress == "10.1.2.3" && r[1].IpAddress == "172.20.0.5" && r[2].IpAddress == "192.168.1.10"
      && r[0].InterfaceName == "eth0" && r[2].InterfaceName == "wlan0"
      && r[2].InterfaceType == "Wireless80211" && r[2].SubnetMask == "255.255.255.0"
  {
    DiscoverExampleRecords();
    FirstAddressInDecimal();
    SecondAddressInDecimal();
    ThirdAddressInDecimal();
  }
}
