/**
 * A discovered local interface address (Models/NetworkInterfaceInfo.cs):
 * four init-only strings and a derived display name.
 */
module InterfaceInfo {

  /**
   * The separator of DisplayName exactly as the source file spells it: a
   * space, the three characters U+00E2 U+20AC U+201D (an em dash whose UTF-8
   * bytes were read as Windows-1252), and a space.
   */
  const Separator: string := " \U{00E2}\U{20AC}\U{201D} "

  /** Immutable: a datatype value cannot change after construction. */
  datatype NetworkInterfaceInfo = NetworkInterfaceInfo(
    InterfaceName: string,
    InterfaceType: string,
    IpAddress: string,
    SubnetMask: string)
  {
    /** The interface name, the separator and the address. */
    function DisplayName(): (r: string)
      ensures |r| == |InterfaceName| + |Separator| + |IpAddress|
      ensures r[..|InterfaceName|] == InterfaceName
      ensures r[|InterfaceName|..|InterfaceName| + |Separator|] == Separator
      ensures r[|r| - |IpAddress|..] == IpAddress
    {
      InterfaceName + Separator + IpAddress
    }
  }

  /** DisplayName reads only the interface name and the address. */
  lemma DisplayNameIgnoresTypeAndMask(a: NetworkInterfaceInfo, b: NetworkInterfaceInfo)
    requires a.InterfaceName == b.InterfaceName && a.IpAddress == b.IpAddress
    ensures a.DisplayName() == b.DisplayName()
  {
  }

  /**
   * Two records of the same interface have the same display name exactly
   * when they have the same address: the name can be split off again.
   */
  lemma DisplayNameDeterminesAddress(a: NetworkInterfaceInfo, b: NetworkInterfaceInfo)
    requires a.InterfaceName == b.InterfaceName
    ensures a.DisplayName() == b.DisplayName() <==> a.IpAddress == b.IpAddress
  {
    if a.DisplayName() == b.DisplayName() {
      var k := |a.InterfaceName| + |Separator|;
      assert a.IpAddress == a.DisplayName()[k..];
      assert b.IpAddress == b.DisplayName()[k..];
    }
  }
}
