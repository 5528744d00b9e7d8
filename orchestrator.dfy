/**
 * DiagnosticOrchestrator: `main`. Read the target, resolve it, then run the
 * record report, the alias chain, the adapter lookup, the trace (or the
 * notice that it is skipped) and the TCP probe, in that order. An invalid
 * port or an unresolved name ends the run early.
 */
module Orchestrator {
  import opened Wrappers
  import opened Decimal
  import opened Text
  import opened Effects
  import opened PathClassifier
  import opened AdapterLocator
  import opened NameResolver

  /** `int(port_input)` for an optional sign followed by ASCII digits; None where `int` raises. */
  function ParsePort(text: string): (r: Option<int>)
    ensures r.Some? ==> text != [] && forall i :: 1 <= i < |text| ==> IsDigit(text[i])
    ensures r.Some? ==> (r.value < 0 ==> text[0] == '-')
  {
    if |text| >= 2 && (text[0] == '-' || text[0] == '+') && AllDigits(text[1..]) then
      Some(if text[0] == '-' then -(Value(text[1..]) as int) else Value(text[1..]))
    else if text != [] && AllDigits(text) then Some(Value(text))
    else None
  }

  /** `resolve_fqdn` followed by the `if not ip` test: a failed or empty answer ends the run. */
  function Resolved(w: World, fqdn: string): (r: Option<string>)
    ensures r.Some? <==> w.hostByName(fqdn).Some? && w.hostByName(fqdn).value != []
    ensures r.Some? ==> r == w.hostByName(fqdn)
  {
    match w.hostByName(fqdn)
    case Some(ip) => if ip != [] then Some(ip) else None
    case None => None
  }

  const LogFile: string := "network_diagnostic_output.txt"

  const InvalidPortLine: string := "\U{274C} Invalid port."
  const UnresolvedLine: string := "\U{274C} Could not resolve hostname."
  const ZtnaLine: string := "\n\U{1F310} This application route is through the ZTNA agent"
  const SkipLine: string := "\U{23E9} Skipping traceroute."
  const TracingLine: string := "\n\U{1F6F0}\U{FE0F} Tracing route (real-time output)..."
  const ResultsLine: string := "\n\U{1F4C1} Results saved to: " + LogFile

  function ResolvedLine(fqdn: string, ip: string): string {
    "\n\U{2705} Resolved " + fqdn + " to " + ip
  }

  function AdapterLine(adapter: string): string {
    "\n\U{1F50C} Network adapter used: " + adapter
  }

  function ProbeLine(connected: bool, ip: string, port: int): string {
    if connected then "\n\U{1F4E1} Successfully connected to " + ip + ":" + IntText(port)
    else "\n\U{274C} Could not connect to " + ip + ":" + IntText(port)
  }

  /** Lines 153-157: the skip notice, or the trace header followed by the trace output. */
  function TraceLines(w: World, ip: string, adapter: string): seq<string> {
    if SkipTrace(ip, adapter) then [ZtnaLine, SkipLine] else [TracingLine] + w.tracert(ip)
  }

  function TraceCalls(ip: string, adapter: string): seq<Call> {
    if SkipTrace(ip, adapter) then [] else [Tracert(ip)]
  }

  /** Lines 148-157: the adapter line, then the trace or the skip notice. */
  function RouteSection(w: World, ip: string): seq<string> {
    var adapter := AdapterLabelFor(w, ip);
    [AdapterLine(adapter)] + TraceLines(w, ip, adapter)
  }

  function RouteCalls(w: World, ip: string): seq<Call> {
    AdapterCalls(w, ip) + TraceCalls(ip, AdapterLabelFor(w, ip))
  }

  /** The lines before the route section: the resolution line, the record report and the alias report. */
  function Lookups(w: World, fqdn: string, ip: string): seq<string> {
    [ResolvedLine(fqdn, ip)] + RecordsReport(w.dns, fqdn) + AliasReport(w, fqdn)
  }

  /** A resolved run's transcript around its route section, ending with the probe result and the notice. */
  function Framed(lookups: seq<string>, route: seq<string>, probe: string): seq<string> {
    lookups + route + [probe] + [ResultsLine]
  }

  /** The transcript of a run once the port is read and the name resolved to `ip`. */
  function Diagnostics(w: World, fqdn: string, ip: string, port: int): seq<string> {
    Framed(Lookups(w, fqdn, ip), RouteSection(w, ip), ProbeLine(w.tcpConnect(ip, port), ip, port))
  }

  function DiagnosticCalls(w: World, fqdn: string, ip: string, port: int): seq<Call> {
    RecordCalls(w.dns, fqdn) + AliasCalls(w, fqdn) + RouteCalls(w, ip) + [TcpConnect(ip, port)]
  }

  /** The lines a whole run appends to the transcript. */
  function Report(w: World, fqdn: string, portText: string): seq<string> {
    match ParsePort(portText)
    case None => [InvalidPortLine]
    case Some(port) =>
      match Resolved(w, fqdn)
      case None => [UnresolvedLine]
      case Some(ip) => Diagnostics(w, fqdn, ip, port)
  }

  /** The calls a whole run makes to the world. */
  function RunCalls(w: World, fqdn: string, portText: string): seq<Call> {
    match ParsePort(portText)
    case None => []
    case Some(port) =>
      [HostByName(fqdn)] +
      match Resolved(w, fqdn)
      case None => []
      case Some(ip) => DiagnosticCalls(w, fqdn, ip, port)
  }

  /** `run_tracert`: the header, then each output line as it arrives. */
  method TraceRoute(ip: string, net: Network, t: Transcript)
    modifies net, t
    ensures t.lines == old(t.lines) + [TracingLine] + net.world.tracert(ip)
    ensures net.calls == old(net.calls) + [Tracert(ip)]
  {
    t.Log(TracingLine);
    var output := net.RunTracert(ip);
    for k := 0 to |output|
      invariant t.lines == old(t.lines) + [TracingLine] + output[..k]
      invariant net.calls == old(net.calls) + [Tracert(ip)]
    {
      assert output[..k + 1] == output[..k] + [output[k]];
      t.Log(output[k]);
    }
    assert output[..|output|] == output;
  }

  /** Lines 151-157: the skip notice for a tunnelled route, otherwise the trace. */
  method TraceUnlessTunnelled(ip: string, adapter: string, net: Network, t: Transcript)
    modifies net, t
    ensures t.lines == old(t.lines) + TraceLines(net.world, ip, adapter)
    ensures net.calls == old(net.calls) + TraceCalls(ip, adapter)
  {
    if SkipTrace(ip, adapter) {
      t.Log(ZtnaLine);
      t.Log(SkipLine);
      assert [ZtnaLine] + [SkipLine] == [ZtnaLine, SkipLine];
    } else {
      TraceRoute(ip, net, t);
      AppendAssociative(old(t.lines), [TracingLine], net.world.tracert(ip));
    }
  }

  /** Lines 148-157: report the adapter, then trace the route unless it is tunnelled. */
  method ClassifyAndTrace(ip: string, net: Network, t: Transcript)
    modifies net, t
    ensures t.lines == old(t.lines) + RouteSection(net.world, ip)
    ensures net.calls == old(net.calls) + RouteCalls(net.world, ip)
  {
    var adapter := GetNetworkAdapterUsed(ip, net);
    t.Log(AdapterLine(adapter));
    TraceUnlessTunnelled(ip, adapter, net, t);
    AppendAssociative(old(t.lines), [AdapterLine(adapter)], TraceLines(net.world, ip, adapter));
    AppendAssociative(old(net.calls), AdapterCalls(net.world, ip), TraceCalls(ip, adapter));
  }

  /** Lines 143-164: every step after a successful resolution. */
  method Diagnose(fqdn: string, ip: string, port: int, net: Network, t: Transcript)
    modifies net, t
    ensures t.lines == old(t.lines) + Diagnostics(net.world, fqdn, ip, port)
    ensures net.calls == old(net.calls) + DiagnosticCalls(net.world, fqdn, ip, port)
  {
    var w := net.world;
    ghost var lines0, calls0 := t.lines, net.calls;
    t.Log(ResolvedLine(fqdn, ip));
    ghost var lines: seq<string> := [ResolvedLine(fqdn, ip)];

    ShowAllDnsRecords(fqdn, net, t);
    AppendAssociative(lines0, lines, RecordsReport(w.dns, fqdn));
    lines := lines + RecordsReport(w.dns, fqdn);
    ghost var calls := RecordCalls(w.dns, fqdn);

    ShowDnsAliasChainAndPtr(fqdn, net, t);
    AppendAssociative(lines0, lines, AliasReport(w, fqdn));
    AppendAssociative(calls0, calls, AliasCalls(w, fqdn));
    lines, calls := lines + AliasReport(w, fqdn), calls + AliasCalls(w, fqdn);

    ClassifyAndTrace(ip, net, t);
    AppendAssociative(lines0, lines, RouteSection(w, ip));
    AppendAssociative(calls0, calls, RouteCalls(w, ip));
    lines, calls := lines + RouteSection(w, ip), calls + RouteCalls(w, ip);

    var connected := net.ConnectTcp(ip, port);
    t.Log(ProbeLine(connected, ip, port));
    t.Log(ResultsLine);
    AppendAssociative(calls0, calls, [TcpConnect(ip, port)]);
    AppendAssociative(lines0, lines, [ProbeLine(connected, ip, port)]);
    AppendAssociative(lines0, lines + [ProbeLine(connected, ip, port)], [ResultsLine]);
    lines := lines + [ProbeLine(connected, ip, port)] + [ResultsLine];
    calls := calls + [TcpConnect(ip, port)];
  }

  /** `main`, after the transcript header: the two early exits, then the diagnostics. */
  method RunDiagnostic(fqdn: string, portText: string, net: Network, t: Transcript)
    modifies net, t
    ensures t.lines == old(t.lines) + Report(net.world, fqdn, portText)
    ensures net.calls == old(net.calls) + RunCalls(net.world, fqdn, portText)
  {
    var port := ParsePort(portText);
    if port.None? {
      t.Log(InvalidPortLine);
      return;
    }
    var ip := net.GetHostByName(fqdn);
    if ip.None? || ip.value == [] {
      t.Log(UnresolvedLine);
      return;
    }
    Diagnose(fqdn, ip.value, port.value, net, t);
    AppendAssociative(old(net.calls), [HostByName(fqdn)], DiagnosticCalls(net.world, fqdn, ip.value, port.value));
  }

  // ---------------------------------------------------------------- lemmas

  /** Every integer Python writes with `str` is read back by `int` as the same integer. */
  lemma ParsePortRoundTrip(n: int)
    ensures ParsePort(IntText(n)) == Some(n)
  {
    if n < 0 {
      var digits := NatText(-n);
      ValueOfNatText(-n);
      assert IntText(n) == "-" + digits;
      assert ("-" + digits)[0] == '-' && ("-" + digits)[1..] == digits;
    } else {
      var digits := NatText(n);
      ValueOfNatText(n);
      assert IsDigit(digits[0]);
    }
  }

  /** A canonical decimal numeral is accepted, and printing the port gives back the same text. */
  lemma ParsePortCanonical(text: string)
    requires Canonical(text)
    ensures ParsePort(text) == Some(Value(text) as int)
    ensures IntText(ParsePort(text).value) == text
  {
    NatTextOfValue(text);
  }

  /** Lines 138-146: a port `int` refuses ends the run before any lookup; an unresolved name ends it after one. */
  lemma EarlyExits(w: World, fqdn: string, portText: string)
    ensures ParsePort(portText).None? ==>
              Report(w, fqdn, portText) == [InvalidPortLine] && RunCalls(w, fqdn, portText) == []
    ensures ParsePort(portText).Some? && Resolved(w, fqdn).None? ==>
              Report(w, fqdn, portText) == [UnresolvedLine] &&
              RunCalls(w, fqdn, portText) == [HostByName(fqdn)]
    ensures Resolved(w, fqdn).None? <==> w.hostByName(fqdn) == None || w.hostByName(fqdn) == Some("")
  {
  }

  /** The phase of the run a call belongs to. */
  function Stage(c: Call): nat {
    match c
    case HostByName(_) => 0
    case DnsQuery(_, _) => 1
    case HostByAddr(_) => 1
    case UdpConnect(_) => 2
    case ListInterfaces => 2
    case Tracert(_) => 3
    case TcpConnect(_, _) => 4
  }

  /** The calls happen phase by phase, never returning to an earlier phase. */
  predicate InPhaseOrder(calls: seq<Call>) {
    forall i, j :: 0 <= i < j < |calls| ==> Stage(calls[i]) <= Stage(calls[j])
  }

  predicate AllAtStage(calls: seq<Call>, k: nat) {
    forall c :: c in calls ==> Stage(c) == k
  }

  predicate AllUpToStage(calls: seq<Call>, k: nat) {
    forall c :: c in calls ==> Stage(c) <= k
  }

  lemma AppendPhase(a: seq<Call>, b: seq<Call>, k: nat)
    requires InPhaseOrder(a) && AllUpToStage(a, k) && AllAtStage(b, k)
    ensures InPhaseOrder(a + b) && AllUpToStage(a + b, k)
  {
    forall i, j | 0 <= i < j < |a + b|
      ensures Stage((a + b)[i]) <= Stage((a + b)[j])
    {
      if i < |a| {
        assert (a + b)[i] in a;
      } else {
        assert (a + b)[i] in b;
      }
      if j < |a| {
        assert (a + b)[j] in a;
      } else {
        assert (a + b)[j] in b;
      }
    }
  }

  lemma {:induction false} QueriesAreLookups(name: string, types: seq<RecordType>)
    ensures AllAtStage(Queries(name, types), 1)
    decreases |types|
  {
    if types != [] {
      QueriesAreLookups(name, types[1..]);
    }
  }

  lemma AliasCallsAreLookups(w: World, fqdn: string)
    ensures AllAtStage(AliasCalls(w, fqdn), 1)
  {
    var walk := AliasWalk(w.dns, fqdn);
    CnameQueriesShape(walk.chain);
    AliasChainShape(w.dns, fqdn);
    forall c | c in CnameQueries(walk.chain)
      ensures Stage(c) == 1
    {
      var i :| 0 <= i < |walk.chain| && CnameQueries(walk.chain)[i] == c;
    }
  }

  /** The resolution and the DNS lookups come first, in phase order. */
  lemma LookupPhases(w: World, fqdn: string)
    ensures var lookups := [HostByName(fqdn)] + RecordCalls(w.dns, fqdn) + AliasCalls(w, fqdn);
            InPhaseOrder(lookups) && AllUpToStage(lookups, 1)
  {
    QueriesAreLookups(fqdn, QueriedTypes(w.dns, fqdn, RecordTypes));
    AppendPhase([HostByName(fqdn)], RecordCalls(w.dns, fqdn), 1);
    AliasCallsAreLookups(w, fqdn);
    AppendPhase([HostByName(fqdn)] + RecordCalls(w.dns, fqdn), AliasCalls(w, fqdn), 1);
  }

  lemma AdapterCallsPhase(w: World, ip: string)
    ensures AllAtStage(AdapterCalls(w, ip), 2)
  {
  }

  lemma TraceCallsPhase(ip: string, adapter: string)
    ensures AllAtStage(TraceCalls(ip, adapter), 3)
  {
  }

  lemma ProbePhase(ip: string, port: int)
    ensures AllAtStage([TcpConnect(ip, port)], 4)
  {
  }

  /** The calls of a resolved run, grouped by phase. */
  lemma RunCallsByPhase(w: World, fqdn: string, portText: string, port: int, ip: string)
    requires ParsePort(portText) == Some(port) && Resolved(w, fqdn) == Some(ip)
    ensures RunCalls(w, fqdn, portText) ==
              ([HostByName(fqdn)] + RecordCalls(w.dns, fqdn) + AliasCalls(w, fqdn)) + AdapterCalls(w, ip)
              + TraceCalls(ip, AdapterLabelFor(w, ip)) + [TcpConnect(ip, port)]
  {
    var lookups := RecordCalls(w.dns, fqdn) + AliasCalls(w, fqdn);
    var adapter := AdapterLabelFor(w, ip);
    AppendAssociative(lookups, AdapterCalls(w, ip), TraceCalls(ip, adapter));
    AppendAssociative([HostByName(fqdn)], RecordCalls(w.dns, fqdn), AliasCalls(w, fqdn));
    AppendAssociative([HostByName(fqdn)], lookups, AdapterCalls(w, ip));
    AppendAssociative([HostByName(fqdn)], lookups + AdapterCalls(w, ip), TraceCalls(ip, adapter));
    AppendAssociative([HostByName(fqdn)], lookups + AdapterCalls(w, ip) + TraceCalls(ip, adapter), [TcpConnect(ip, port)]);
  }

  /** After calls of earlier phases and a trace phase, a final probe is the only probe, and a trace call can only come from the trace phase. */
  lemma ProbeAfterTrace(before: seq<Call>, trace: seq<Call>, probe: Call, ip: string)
    requires AllUpToStage(before, 2) && AllAtStage(trace, 3) && probe.TcpConnect?
    ensures var calls := before + trace + [probe];
            && (forall i :: 0 <= i < |calls| - 1 ==> !calls[i].TcpConnect?)
            && (Tracert(ip) in calls <==> Tracert(ip) in trace)
  {
    var calls := before + trace + [probe];
    forall i | 0 <= i < |calls| - 1
      ensures !calls[i].TcpConnect?
    {
      assert calls[i] in before + trace;
    }
    assert Tracert(ip) !in before;
  }

  /**
   * Lines 143-162: once the port is read and the name resolved, the calls run
   * phase by phase (resolution, DNS lookups, adapter lookup, trace, probe); the
   * trace runs exactly when the route is not tunnelled, and the TCP probe runs
   * once, as the very last call.
   */
  lemma RunOrder(w: World, fqdn: string, portText: string, port: int, ip: string)
    requires ParsePort(portText) == Some(port) && Resolved(w, fqdn) == Some(ip)
    ensures var calls := RunCalls(w, fqdn, portText);
            && InPhaseOrder(calls)
            && calls[0] == HostByName(fqdn)
            && Last(calls) == TcpConnect(ip, port)
            && (forall i :: 0 <= i < |calls| - 1 ==> !calls[i].TcpConnect?)
            && (Tracert(ip) in calls <==> !SkipTrace(ip, AdapterLabelFor(w, ip)))
  {
    var trace := TraceCalls(ip, AdapterLabelFor(w, ip));
    var lookups := [HostByName(fqdn)] + RecordCalls(w.dns, fqdn) + AliasCalls(w, fqdn);
    LookupPhases(w, fqdn);
    AdapterCallsPhase(w, ip);
    TraceCallsPhase(ip, AdapterLabelFor(w, ip));
    ProbePhase(ip, port);
    AppendPhase(lookups, AdapterCalls(w, ip), 2);
    var before := lookups + AdapterCalls(w, ip);
    AppendPhase(before, trace, 3);
    AppendPhase(before + trace, [TcpConnect(ip, port)], 4);
    RunCallsByPhase(w, fqdn, portText, port, ip);
    ProbeAfterTrace(before, trace, TcpConnect(ip, port), ip);
    assert lookups[0] == HostByName(fqdn);
  }

  /**
   * Lines 119-123 and 151-157: the trace is skipped exactly when the target
   * address is CGNAT, the socket trick found a local address, an interface
   * carries that address, and that address is CGNAT too. The local address
   * must not itself contain the label's parentheses.
   */
  lemma SkipIffTunnelled(w: World, ip: string)
    requires w.egressFor(ip).Some? ==> PlainAddress(w.egressFor(ip).value)
    ensures SkipTrace(ip, AdapterLabelFor(w, ip)) <==>
              && IsCgnat(ip)
              && w.egressFor(ip).Some?
              && (exists k :: 0 <= k < |w.interfaces| && HasAddress(w.interfaces[k], w.egressFor(ip).value))
              && IsCgnat(w.egressFor(ip).value)
  {
    match w.egressFor(ip)
    case None =>
      NoInterfaceLabelYieldsNothing();
    case Some(local) =>
      if exists k :: 0 <= k < |w.interfaces| && HasAddress(w.interfaces[k], local) {
        SearchFindsSome(w.interfaces, local);
        var k :| 0 <= k < |w.interfaces| && SearchLabel(w.interfaces, local) == AdapterLabel(w.interfaces[k].name, local);
        LabelRoundTrip(w.interfaces[k].name, local);
        EmptyNotCgnat();
      } else {
        SearchFindsFirstMatch(w.interfaces, local);
        NotFoundLabelYieldsNothing(local);
      }
  }

  /** A tunnelled route section is the adapter line, the ZTNA notice and the skip line, and nothing else. */
  lemma TunnelledRoute(w: World, ip: string)
    requires SkipTrace(ip, AdapterLabelFor(w, ip))
    ensures RouteSection(w, ip) == [AdapterLine(AdapterLabelFor(w, ip)), ZtnaLine, SkipLine]
  {
  }

  /**
   * Lines 146-164: whatever the lookups printed, the route section (the
   * adapter line, then the trace or the ZTNA notice) comes right before the
   * probe result, and the saved-file notice is the last line.
   */
  lemma FrameOf(lookups: seq<string>, route: seq<string>, probe: string)
    requires |lookups| >= 1
    ensures var r := Framed(lookups, route, probe);
            && |r| >= 3 + |route| && r[0] == lookups[0] && r[|r| - 2] == probe && r[|r| - 1] == ResultsLine
            && r[|r| - 2 - |route|..|r| - 2] == route
  {
    var r := Framed(lookups, route, probe);
    assert r[|r| - 2 - |route|..|r| - 2] == (lookups + route)[|lookups|..];
  }

  /** Lines 146-164: a resolved run opens with the resolution line and closes with the probe result and the saved-file notice. */
  lemma DiagnosticsFrame(w: World, fqdn: string, ip: string, port: int)
    ensures var r := Diagnostics(w, fqdn, ip, port);
            && |r| >= 3
            && r[0] == ResolvedLine(fqdn, ip)
            && r[|r| - 2] == ProbeLine(w.tcpConnect(ip, port), ip, port)
            && r[|r| - 1] == ResultsLine
  {
    FrameOf(Lookups(w, fqdn, ip), RouteSection(w, ip), ProbeLine(w.tcpConnect(ip, port), ip, port));
  }

  /** Lines 138-164: once the port is read and the name resolved, the run is the diagnostics of that address. */
  lemma ResolvedRun(w: World, fqdn: string, portText: string, port: int, ip: string)
    requires ParsePort(portText) == Some(port) && Resolved(w, fqdn) == Some(ip)
    ensures Report(w, fqdn, portText) == Diagnostics(w, fqdn, ip, port)
    ensures RunCalls(w, fqdn, portText) == [HostByName(fqdn)] + DiagnosticCalls(w, fqdn, ip, port)
  {
  }
}
