/**
 * Choosing the local addresses to search from
 * (`YeelightScanner._async_build_source_set`, homeassistant/components/yeelight/scanner.py).
 */
module Sources {

  newtype byte = x: int | 0 <= x < 256

  /** A local source address, as the network helper reports it. */
  datatype IpAddress = IPv4(a: byte, b: byte, c: byte, d: byte) | IPv6(groups: seq<int>)

  /** `IPv4Address("0.0.0.0")`: listen on every interface. */
  const Wildcard: IpAddress := IPv4(0, 0, 0, 0)

  /** `is_loopback`: 127.0.0.0/8 for IPv4, ::1 for IPv6. */
  predicate IsLoopback(ip: IpAddress)
  {
    match ip
    case IPv4(a, _, _, _) => a == 127
    case IPv6(groups) => groups == [0, 0, 0, 0, 0, 0, 0, 1]
  }

  /**
   * The wildcard address alone when only the default interface is enabled; otherwise
   * the enabled source addresses that are IPv4 and not loopback, without duplicates.
   */
  function BuildSourceSet(onlyDefaultInterface: bool, enabledSourceIps: seq<IpAddress>): (sources: set<IpAddress>)
    ensures onlyDefaultInterface ==> sources == {Wildcard}
    ensures !onlyDefaultInterface ==>
      forall ip :: ip in sources <==> ip in enabledSourceIps && ip.IPv4? && !IsLoopback(ip)
    ensures forall ip :: ip in sources ==> ip.IPv4? && !IsLoopback(ip)
    ensures !onlyDefaultInterface ==> |sources| <= |enabledSourceIps|
  {
    if onlyDefaultInterface then {Wildcard}
    else
      var r := set ip | ip in enabledSourceIps && ip.IPv4? && !IsLoopback(ip);
      SubsetOfSeqIsNoLarger(r, enabledSourceIps);
      r
  }

  lemma {:induction false} SubsetOfSeqIsNoLarger(r: set<IpAddress>, s: seq<IpAddress>)
    requires forall ip :: ip in r ==> ip in s
    ensures |r| <= |s|
    decreases |s|
  {
    if s != [] {
      var rest := r - {s[0]};
      forall ip | ip in rest ensures ip in s[1..] {
        assert s == [s[0]] + s[1..];
      }
      SubsetOfSeqIsNoLarger(rest, s[1..]);
    } else {
      assert r == {};
    }
  }
}
