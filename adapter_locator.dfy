/**
 * AdapterLocator: `get_network_adapter_used`. A UDP socket connected toward
 * the target reveals the local address the OS would use; the interface table
 * is then searched, in enumeration order, for that address.
 */
module AdapterLocator {
  import opened Wrappers
  import opened Text
  import opened Effects
  import opened PathClassifier

  const NoInterfaceLabel: string := "Could not determine local interface"

  function AdapterLabel(name: string, ip: string): string {
    name + " (" + ip + ")"
  }

  function NotFoundLabel(ip: string): string {
    "Local IP " + ip + " used, but adapter name not found"
  }

  predicate HasAddress(iface: Interface, ip: string) {
    ip in iface.addresses
  }

  /** The label the search over `interfaces` yields for the local address `ip`. */
  function SearchLabel(interfaces: seq<Interface>, ip: string): string
    decreases |interfaces|
  {
    if interfaces == [] then NotFoundLabel(ip)
    else if HasAddress(interfaces[0], ip) then AdapterLabel(interfaces[0].name, ip)
    else SearchLabel(interfaces[1..], ip)
  }

  /** The whole lookup: no local address, or the result of the search. */
  function AdapterLabelFor(w: World, remote: string): string {
    match w.egressFor(remote)
    case None => NoInterfaceLabel
    case Some(local) => SearchLabel(w.interfaces, local)
  }

  /** The calls the lookup makes: the UDP connect, then the enumeration if it succeeded. */
  function AdapterCalls(w: World, remote: string): seq<Call> {
    [UdpConnect(remote)] + if w.egressFor(remote).Some? then [ListInterfaces] else []
  }

  /** Lines 111-117: the nested search with early return. */
  method FindAdapter(interfaces: seq<Interface>, localIp: string) returns (adapter: string)
    ensures adapter == SearchLabel(interfaces, localIp)
  {
    var i := 0;
    while i < |interfaces|
      invariant 0 <= i <= |interfaces|
      invariant SearchLabel(interfaces[i..], localIp) == SearchLabel(interfaces, localIp)
    {
      var addrs := interfaces[i].addresses;
      var j := 0;
      while j < |addrs|
        invariant 0 <= j <= |addrs|
        invariant forall m :: 0 <= m < j ==> addrs[m] != localIp
      {
        if addrs[j] == localIp {
          return AdapterLabel(interfaces[i].name, localIp);
        }
        j := j + 1;
      }
      assert interfaces[i..][1..] == interfaces[i + 1..];
      i := i + 1;
    }
    return NotFoundLabel(localIp);
  }

  method GetNetworkAdapterUsed(remoteIp: string, net: Network) returns (adapter: string)
    modifies net
    ensures adapter == AdapterLabelFor(net.world, remoteIp)
    ensures net.calls == old(net.calls) + AdapterCalls(net.world, remoteIp)
  {
    var local := net.LocalAddressToward(remoteIp);
    if local.None? {
      return NoInterfaceLabel;
    }
    var interfaces := net.NetIfAddrs();
    adapter := FindAdapter(interfaces, local.value);
  }

  // ---------------------------------------------------------------- lemmas

  /**
   * The search returns the label of the FIRST interface, in enumeration
   * order, that has an address exactly equal to `ip`, and the "adapter name
   * not found" label when none has.
   */
  lemma {:induction false} SearchFindsFirstMatch(interfaces: seq<Interface>, ip: string)
    ensures (forall k :: 0 <= k < |interfaces| ==> !HasAddress(interfaces[k], ip)) ==>
              SearchLabel(interfaces, ip) == NotFoundLabel(ip)
    ensures forall k :: 0 <= k < |interfaces| && HasAddress(interfaces[k], ip) &&
                        (forall j :: 0 <= j < k ==> !HasAddress(interfaces[j], ip)) ==>
              SearchLabel(interfaces, ip) == AdapterLabel(interfaces[k].name, ip)
    decreases |interfaces|
  {
    if interfaces != [] {
      SearchFindsFirstMatch(interfaces[1..], ip);
      forall k | 1 <= k < |interfaces|
        ensures interfaces[k] == interfaces[1..][k - 1]
      {
      }
    }
  }

  /** When some interface has the address, the search yields the label of one of them. */
  lemma {:induction false} SearchFindsSome(interfaces: seq<Interface>, ip: string)
    requires exists k :: 0 <= k < |interfaces| && HasAddress(interfaces[k], ip)
    ensures exists k :: 0 <= k < |interfaces| && SearchLabel(interfaces, ip) == AdapterLabel(interfaces[k].name, ip)
    decreases |interfaces|
  {
    if !HasAddress(interfaces[0], ip) {
      var k :| 0 <= k < |interfaces| && HasAddress(interfaces[k], ip);
      assert HasAddress(interfaces[1..][k - 1], ip);
      SearchFindsSome(interfaces[1..], ip);
      var m :| 0 <= m < |interfaces| - 1 && SearchLabel(interfaces[1..], ip) == AdapterLabel(interfaces[1..][m].name, ip);
      assert interfaces[1..][m] == interfaces[m + 1];
    } else {
      assert SearchLabel(interfaces, ip) == AdapterLabel(interfaces[0].name, ip);
    }
  }

  /** An address text that the label parser cannot confuse with the label's own parentheses. */
  predicate PlainAddress(ip: string) {
    '(' !in ip && (ip == [] || Last(ip) != ')')
  }

  /** The label built for a found adapter gives back exactly the local address, whatever the adapter's name. */
  lemma LabelRoundTrip(name: string, ip: string)
    requires PlainAddress(ip)
    ensures ExtractLocalIp(AdapterLabel(name, ip)) == Some(ip)
  {
    var text := AdapterLabel(name, ip);
    assert text == (name + " ") + ['('] + (ip + ")");
    assert text[|name| + 1] == '(';
    LastPieceAfter(name + " ", ip + ")", '(');
    var piece := ip + ")";
    assert Last(piece) == ')' && piece[..|piece| - 1] == ip;
    TrimRightShape(ip, ')');
  }

  /** The "adapter name not found" label holds no '(' so no local address is extracted from it. */
  lemma NotFoundLabelYieldsNothing(ip: string)
    requires '(' !in ip
    ensures ExtractLocalIp(NotFoundLabel(ip)) == None
  {
    assert NotFoundLabel(ip) == "Local IP " + ip + " used, but adapter name not found";
    assert '(' !in "Local IP ";
    assert '(' !in " used, but adapter name not found";
  }

  /** Neither does the label for a missing local address. */
  lemma NoInterfaceLabelYieldsNothing()
    ensures ExtractLocalIp(NoInterfaceLabel) == None
  {
    assert '(' !in NoInterfaceLabel;
  }
}
