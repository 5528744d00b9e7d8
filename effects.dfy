/**
 * The world outside the diagnostic: DNS data, the system resolver, sockets,
 * the interface table and the trace utility, given as fixed oracle values;
 * a `Network` object that answers from them and records every call made;
 * and the `Transcript` that `log` appends to.
 */
module Effects {
  import opened Wrappers

  datatype RecordType = A | AAAA | CNAME | MX | NS | TXT | SOA | SRV

  function TypeName(rt: RecordType): string {
    match rt
    case A => "A"
    case AAAA => "AAAA"
    case CNAME => "CNAME"
    case MX => "MX"
    case NS => "NS"
    case TXT => "TXT"
    case SOA => "SOA"
    case SRV => "SRV"
  }

  /**
   * What one DNS query produces: the text of each answer record, or the
   * exception the resolver raises (NXDOMAIN is response code 3 of
   * section 4.1.1 of RFC 1035; OtherError covers timeouts and every other
   * failure, with its message).
   */
  datatype DnsOutcome =
    | Answers(values: seq<string>)
    | NoAnswer
    | NxDomain
    | NoNameservers
    | OtherError(message: string)

  /** The DNS data as seen by the resolver: an outcome per name and record type. */
  type DnsData = (string, RecordType) -> DnsOutcome

  /** One enumerated network interface and the address texts bound to it. */
  datatype Interface = Interface(name: string, addresses: seq<string>)

  datatype World = World(
    dns: DnsData,
    // socket.gethostbyname: an address, or None when it raises gaierror
    hostByName: string -> Option<string>,
    // socket.gethostbyaddr: the host name, or the text of the failure
    hostByAddr: string -> Result<string, string>,
    // local address the OS picks for a UDP socket connected to (ip, 80); None if that fails
    egressFor: string -> Option<string>,
    // psutil.net_if_addrs(), in enumeration order
    interfaces: seq<Interface>,
    // the stripped output lines of `tracert ip`
    tracert: string -> seq<string>,
    // whether a TCP connect to (ip, port) succeeds within the 3-second timeout
    tcpConnect: (string, int) -> bool
  )

  /** A call from the diagnostic to the world. */
  datatype Call =
    | HostByName(name: string)
    | DnsQuery(qname: string, rtype: RecordType)
    | HostByAddr(ip: string)
    | UdpConnect(remote: string)
    | ListInterfaces
    | Tracert(target: string)
    | TcpConnect(host: string, port: int)

  /** The world as the program reaches it: each call answers from `world` and is recorded. */
  class Network {
    const world: World
    var calls: seq<Call>

    constructor (world: World)
      ensures this.world == world && calls == []
    {
      this.world := world;
      calls := [];
    }

    method Query(name: string, rtype: RecordType) returns (outcome: DnsOutcome)
      modifies this
      ensures outcome == world.dns(name, rtype)
      ensures calls == old(calls) + [DnsQuery(name, rtype)]
    {
      outcome := world.dns(name, rtype);
      calls := calls + [DnsQuery(name, rtype)];
    }

    method GetHostByName(name: string) returns (ip: Option<string>)
      modifies this
      ensures ip == world.hostByName(name)
      ensures calls == old(calls) + [HostByName(name)]
    {
      ip := world.hostByName(name);
      calls := calls + [HostByName(name)];
    }

    method GetHostByAddr(ip: string) returns (host: Result<string, string>)
      modifies this
      ensures host == world.hostByAddr(ip)
      ensures calls == old(calls) + [HostByAddr(ip)]
    {
      host := world.hostByAddr(ip);
      calls := calls + [HostByAddr(ip)];
    }

    method LocalAddressToward(remote: string) returns (local: Option<string>)
      modifies this
      ensures local == world.egressFor(remote)
      ensures calls == old(calls) + [UdpConnect(remote)]
    {
      local := world.egressFor(remote);
      calls := calls + [UdpConnect(remote)];
    }

    method NetIfAddrs() returns (interfaces: seq<Interface>)
      modifies this
      ensures interfaces == world.interfaces
      ensures calls == old(calls) + [ListInterfaces]
    {
      interfaces := world.interfaces;
      calls := calls + [ListInterfaces];
    }

    method RunTracert(ip: string) returns (output: seq<string>)
      modifies this
      ensures output == world.tracert(ip)
      ensures calls == old(calls) + [Tracert(ip)]
    {
      output := world.tracert(ip);
      calls := calls + [Tracert(ip)];
    }

    method ConnectTcp(ip: string, port: int) returns (ok: bool)
      modifies this
      ensures ok == world.tcpConnect(ip, port)
      ensures calls == old(calls) + [TcpConnect(ip, port)]
    {
      ok := world.tcpConnect(ip, port);
      calls := calls + [TcpConnect(ip, port)];
    }
  }

  /** The run's transcript: one entry per `log` call, in order. */
  class Transcript {
    var lines: seq<string>

    constructor ()
      ensures lines == []
    {
      lines := [];
    }

    method Log(msg: string)
      modifies this
      ensures lines == old(lines) + [msg]
    {
      lines := lines + [msg];
    }
  }
}
