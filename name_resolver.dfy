/**
 * NameResolver: `show_all_dns_records` (one query per record type, stopping
 * at NXDOMAIN), `show_dns_alias_chain_and_ptr` (the CNAME walk, its diagram,
 * the final A query) and `reverse_dns_lookup`.
 */
module NameResolver {
  import opened Wrappers
  import opened Text
  import opened Effects

  // ------------------------------------------------------ per-type records

  /** The record types queried, in this order. */
  const RecordTypes: seq<RecordType> := [A, AAAA, CNAME, MX, NS, TXT, SOA, SRV]

  const NoAnswerMarker: string := "[No Answer]"
  const NxDomainMarker: string := "[Domain does not exist]"
  const NoNameserversMarker: string := "[No nameservers responded]"

  function ErrorMarker(message: string): string {
    "[Error: " + message + "]"
  }

  function RecordsHeader(fqdn: string): string {
    "\n\U{1F310} DNS Records for: " + fqdn
  }

  function TypeLine(rtype: RecordType, text: string): string {
    "  " + TypeName(rtype) + ": " + text
  }

  function AnswerLines(rtype: RecordType, values: seq<string>): seq<string>
    decreases |values|
  {
    if values == [] then []
    else AnswerLines(rtype, values[..|values| - 1]) + [TypeLine(rtype, Last(values))]
  }

  /** What one query contributes: a line per answer record, or one marker line. */
  function OutcomeLines(rtype: RecordType, outcome: DnsOutcome): seq<string> {
    match outcome
    case Answers(values) => AnswerLines(rtype, values)
    case NoAnswer => [TypeLine(rtype, NoAnswerMarker)]
    case NxDomain => [TypeLine(rtype, NxDomainMarker)]
    case NoNameservers => [TypeLine(rtype, NoNameserversMarker)]
    case OtherError(message) => [TypeLine(rtype, ErrorMarker(message))]
  }

  /** The lines the loop over `types` logs: it leaves the loop after an NXDOMAIN. */
  function RecordLines(dns: DnsData, fqdn: string, types: seq<RecordType>): seq<string>
    decreases |types|
  {
    if types == [] then []
    else
      var outcome := dns(fqdn, types[0]);
      OutcomeLines(types[0], outcome) +
      if outcome.NxDomain? then [] else RecordLines(dns, fqdn, types[1..])
  }

  /** The record types the loop over `types` actually queries. */
  function QueriedTypes(dns: DnsData, fqdn: string, types: seq<RecordType>): seq<RecordType>
    decreases |types|
  {
    if types == [] then []
    else [types[0]] + if dns(fqdn, types[0]).NxDomain? then [] else QueriedTypes(dns, fqdn, types[1..])
  }

  function Queries(name: string, types: seq<RecordType>): seq<Call>
    decreases |types|
  {
    if types == [] then [] else [DnsQuery(name, types[0])] + Queries(name, types[1..])
  }

  function RecordsReport(dns: DnsData, fqdn: string): seq<string> {
    [RecordsHeader(fqdn)] + RecordLines(dns, fqdn, RecordTypes)
  }

  function RecordCalls(dns: DnsData, fqdn: string): seq<Call> {
    Queries(fqdn, QueriedTypes(dns, fqdn, RecordTypes))
  }

  /** One iteration of the loop over types, unfolded. */
  lemma RecordLinesStep(dns: DnsData, fqdn: string, types: seq<RecordType>, i: nat)
    requires i < |types|
    ensures RecordLines(dns, fqdn, types[i..]) ==
              OutcomeLines(types[i], dns(fqdn, types[i])) +
              if dns(fqdn, types[i]).NxDomain? then [] else RecordLines(dns, fqdn, types[i + 1..])
    ensures Queries(fqdn, QueriedTypes(dns, fqdn, types[i..])) ==
              [DnsQuery(fqdn, types[i])] +
              if dns(fqdn, types[i]).NxDomain? then [] else Queries(fqdn, QueriedTypes(dns, fqdn, types[i + 1..]))
  {
    assert types[i..][1..] == types[i + 1..];
    var later := QueriedTypes(dns, fqdn, types[i + 1..]);
    assert ([types[i]] + later)[1..] == later;
  }

  /** The body of one `try`: log each answer, or the marker of the exception. */
  method LogOutcome(rtype: RecordType, outcome: DnsOutcome, t: Transcript)
    modifies t
    ensures t.lines == old(t.lines) + OutcomeLines(rtype, outcome)
  {
    match outcome {
      case Answers(values) =>
        for j := 0 to |values|
          invariant t.lines == old(t.lines) + AnswerLines(rtype, values[..j])
        {
          assert values[..j + 1][..j] == values[..j];
          t.Log(TypeLine(rtype, values[j]));
        }
        assert values[..|values|] == values;
      case NoAnswer =>
        t.Log(TypeLine(rtype, NoAnswerMarker));
      case NxDomain =>
        t.Log(TypeLine(rtype, NxDomainMarker));
      case NoNameservers =>
        t.Log(TypeLine(rtype, NoNameserversMarker));
      case OtherError(message) =>
        t.Log(TypeLine(rtype, ErrorMarker(message)));
    }
  }

  /** Lines 25-38: the loop over the record types, left at the first NXDOMAIN. */
  method QueryEachType(fqdn: string, types: seq<RecordType>, net: Network, t: Transcript)
    modifies net, t
    ensures t.lines == old(t.lines) + RecordLines(net.world.dns, fqdn, types)
    ensures net.calls == old(net.calls) + Queries(fqdn, QueriedTypes(net.world.dns, fqdn, types))
  {
    var dns := net.world.dns;
    var i := 0;
    while i < |types|
      invariant 0 <= i <= |types|
      invariant t.lines + RecordLines(dns, fqdn, types[i..]) == old(t.lines) + RecordLines(dns, fqdn, types)
      invariant net.calls + Queries(fqdn, QueriedTypes(dns, fqdn, types[i..])) ==
                old(net.calls) + Queries(fqdn, QueriedTypes(dns, fqdn, types))
    {
      ghost var linesBefore, callsBefore := t.lines, net.calls;
      RecordLinesStep(dns, fqdn, types, i);
      var outcome := net.Query(fqdn, types[i]);
      LogOutcome(types[i], outcome, t);
      if outcome.NxDomain? {
        break;
      }
      AppendAssociative(linesBefore, OutcomeLines(types[i], outcome), RecordLines(dns, fqdn, types[i + 1..]));
      AppendAssociative(callsBefore, [DnsQuery(fqdn, types[i])], Queries(fqdn, QueriedTypes(dns, fqdn, types[i + 1..])));
      i := i + 1;
    }
  }

  method ShowAllDnsRecords(fqdn: string, net: Network, t: Transcript)
    modifies net, t
    ensures t.lines == old(t.lines) + RecordsReport(net.world.dns, fqdn)
    ensures net.calls == old(net.calls) + RecordCalls(net.world.dns, fqdn)
  {
    ghost var before := t.lines;
    t.Log(RecordsHeader(fqdn));
    QueryEachType(fqdn, RecordTypes, net, t);
    AppendAssociative(before, [RecordsHeader(fqdn)], RecordLines(net.world.dns, fqdn, RecordTypes));
  }

  // ---------------------------------------------------- alias-chain walk

  /** Longest alias chain followed; a longer one is reported as an error (see the README's findings). */
  const MaxChainLength: nat := 20

  const ChainTooLongText: string := "alias chain too long"

  /** How the walk ends: at a name without CNAME, on an exception, or at the length bound. */
  datatype Walk =
    | Complete(chain: seq<string>)
    | Broken(chain: seq<string>, reason: string)
    | TooLong(chain: seq<string>)

  /** An outcome from which `answer[0]` can be taken. */
  predicate HasRecord(outcome: DnsOutcome) {
    outcome.Answers? && outcome.values != []
  }

  /** `str(answer[0]).strip('.')`. */
  function Target(outcome: DnsOutcome): string
    requires HasRecord(outcome)
  {
    Strip(outcome.values[0], '.')
  }

  /** `str(e)` for the exception raised by the query or by indexing an empty answer. */
  function RaisedText(outcome: DnsOutcome): string {
    match outcome
    case OtherError(message) => message
    case NxDomain => "The DNS query name does not exist"
    case NoNameservers => "All nameservers failed to answer the query"
    case Answers(_) => "list index out of range"
    case NoAnswer => "The DNS response does not contain an answer to the question"
  }

  /** `from` is an alias whose CNAME record names `to`. */
  predicate IsAliasStep(dns: DnsData, from: string, to: string) {
    var outcome := dns(from, CNAME);
    HasRecord(outcome) && to == Target(outcome)
  }

  /** The walk from a chain already built, following CNAMEs of its last name. */
  function WalkFrom(dns: DnsData, chain: seq<string>): (w: Walk)
    requires 1 <= |chain| <= MaxChainLength
    ensures chain <= w.chain && |w.chain| <= MaxChainLength
    decreases MaxChainLength - |chain|
  {
    var outcome := dns(Last(chain), CNAME);
    if outcome.NoAnswer? then Complete(chain)
    else if !HasRecord(outcome) then Broken(chain, RaisedText(outcome))
    else if |chain| == MaxChainLength then TooLong(chain)
    else WalkFrom(dns, chain + [Target(outcome)])
  }

  function AliasWalk(dns: DnsData, fqdn: string): Walk {
    WalkFrom(dns, [fqdn])
  }

  function Indent(depth: nat): string {
    if depth == 0 then "" else "  " + Indent(depth - 1)
  }

  const DownArrow: char := '\U{2193}'
  const RightArrow: char := '\U{2192}'
  const EmDash: char := '\U{2014}'

  function DiagramLine(chain: seq<string>, i: nat): string
    requires i < |chain|
  {
    Indent(i) + chain[i] + " " + [if i < |chain| - 1 then DownArrow else RightArrow]
  }

  /** The first `n` lines of the diagram. */
  function DiagramPrefix(chain: seq<string>, n: nat): seq<string>
    requires n <= |chain|
  {
    if n == 0 then [] else DiagramPrefix(chain, n - 1) + [DiagramLine(chain, n - 1)]
  }

  function DiagramLines(chain: seq<string>): seq<string> {
    DiagramPrefix(chain, |chain|)
  }

  const AliasHeader: string := "\n\U{1F517} Alias (CNAME) Chain Diagram:"

  function AliasErrorLine(reason: string): string {
    "  [Error resolving alias chain: " + reason + "]"
  }

  function FinalLine(depth: nat, ip: string): string {
    Indent(depth) + "Final A Record " + [RightArrow] + " " + ip
  }

  function UnresolvedFinalLine(depth: nat): string {
    Indent(depth) + "[Could not resolve final IP]"
  }

  function PtrLine(ip: string, lookup: Result<string, string>): string {
    match lookup
    case Success(host) => "\n\U{1F501} PTR (Reverse DNS) Lookup for " + ip + ": " + host
    case Failure(reason) => "\n\U{1F501} PTR (Reverse DNS) Lookup for " + ip + ": [Failed " + [EmDash] + " " + reason + "]"
  }

  /** What follows the diagram: the final A record and its PTR, or the failure line. */
  function FinalLines(w: World, chain: seq<string>): seq<string>
    requires |chain| >= 1
  {
    var answer := w.dns(Last(chain), A);
    if HasRecord(answer) then
      [FinalLine(|chain|, answer.values[0]), PtrLine(answer.values[0], w.hostByAddr(answer.values[0]))]
    else
      [UnresolvedFinalLine(|chain|)]
  }

  function FinalCalls(w: World, chain: seq<string>): seq<Call>
    requires |chain| >= 1
  {
    var answer := w.dns(Last(chain), A);
    [DnsQuery(Last(chain), A)] + if HasRecord(answer) then [HostByAddr(answer.values[0])] else []
  }

  function CnameQueries(chain: seq<string>): (calls: seq<Call>)
    ensures |calls| == |chain|
    decreases |chain|
  {
    if chain == [] then [] else CnameQueries(chain[..|chain| - 1]) + [DnsQuery(Last(chain), CNAME)]
  }

  function AliasReport(w: World, fqdn: string): seq<string> {
    [AliasHeader] +
    match AliasWalk(w.dns, fqdn)
    case Complete(chain) => DiagramLines(chain) + FinalLines(w, chain)
    case Broken(_, reason) => [AliasErrorLine(reason)]
    case TooLong(_) => [AliasErrorLine(ChainTooLongText)]
  }

  function AliasCalls(w: World, fqdn: string): seq<Call> {
    var walk := AliasWalk(w.dns, fqdn);
    CnameQueries(walk.chain) + if walk.Complete? then FinalCalls(w, walk.chain) else []
  }

  method ReverseDnsLookup(ip: string, net: Network, t: Transcript)
    modifies net, t
    ensures t.lines == old(t.lines) + [PtrLine(ip, net.world.hostByAddr(ip))]
    ensures net.calls == old(net.calls) + [HostByAddr(ip)]
  {
    var lookup := net.GetHostByAddr(ip);
    t.Log(PtrLine(ip, lookup));
  }

  method LogDiagram(chain: seq<string>, t: Transcript)
    modifies t
    ensures t.lines == old(t.lines) + DiagramLines(chain)
  {
    for i := 0 to |chain|
      invariant t.lines == old(t.lines) + DiagramPrefix(chain, i)
    {
      t.Log(DiagramLine(chain, i));
    }
  }

  /** Lines 50-58: follow CNAMEs from `fqdn` until a query does not give a target. */
  method WalkAliasChain(fqdn: string, net: Network) returns (walk: Walk)
    modifies net
    ensures walk == AliasWalk(net.world.dns, fqdn)
    ensures net.calls == old(net.calls) + CnameQueries(walk.chain)
  {
    var dns := net.world.dns;
    var chain := [fqdn];
    var current := fqdn;
    var outcome := net.Query(current, CNAME);
    while HasRecord(outcome) && |chain| < MaxChainLength
      invariant 1 <= |chain| <= MaxChainLength
      invariant current == Last(chain)
      invariant outcome == dns(current, CNAME)
      invariant WalkFrom(dns, chain) == AliasWalk(dns, fqdn)
      invariant net.calls == old(net.calls) + CnameQueries(chain)
      decreases MaxChainLength - |chain|
    {
      var cname := Strip(outcome.values[0], '.');
      assert (chain + [cname])[..|chain|] == chain;
      chain := chain + [cname];
      current := cname;
      outcome := net.Query(current, CNAME);
    }
    if outcome.NoAnswer? {
      walk := Complete(chain);
    } else if HasRecord(outcome) {
      walk := TooLong(chain);
    } else {
      walk := Broken(chain, RaisedText(outcome));
    }
  }

  /** Lines 70-76: the one A query for the last name of the chain, then its PTR lookup. */
  method ShowFinalAddress(chain: seq<string>, net: Network, t: Transcript)
    requires |chain| >= 1
    modifies net, t
    ensures t.lines == old(t.lines) + FinalLines(net.world, chain)
    ensures net.calls == old(net.calls) + FinalCalls(net.world, chain)
  {
    var answer := net.Query(chain[|chain| - 1], A);
    if HasRecord(answer) {
      var ip := answer.values[0];
      t.Log(FinalLine(|chain|, ip));
      ReverseDnsLookup(ip, net, t);
    } else {
      t.Log(UnresolvedFinalLine(|chain|));
    }
  }

  method ShowDnsAliasChainAndPtr(fqdn: string, net: Network, t: Transcript)
    modifies net, t
    ensures t.lines == old(t.lines) + AliasReport(net.world, fqdn)
    ensures net.calls == old(net.calls) + AliasCalls(net.world, fqdn)
  {
    t.Log(AliasHeader);
    ghost var afterHeader := t.lines;
    var walk := WalkAliasChain(fqdn, net);
    ghost var afterWalk := net.calls;
    match walk {
      case Broken(_, reason) =>
        t.Log(AliasErrorLine(reason));
      case TooLong(_) =>
        t.Log(AliasErrorLine(ChainTooLongText));
      case Complete(chain) =>
        LogDiagram(chain, t);
        ShowFinalAddress(chain, net, t);
        AppendAssociative(afterHeader, DiagramLines(chain), FinalLines(net.world, chain));
        AppendAssociative(old(net.calls), CnameQueries(chain), FinalCalls(net.world, chain));
    }
    ghost var tail := t.lines[|afterHeader|..];
    assert t.lines == afterHeader + tail;
    AppendAssociative(old(t.lines), [AliasHeader], tail);
  }

  // ------------------------------------------------- lemmas: record types

  /** Each answer record gives one line, in order; every other outcome gives exactly one marker line. */
  lemma {:induction false} AnswerLinesShape(rtype: RecordType, values: seq<string>)
    ensures |AnswerLines(rtype, values)| == |values|
    ensures forall i :: 0 <= i < |values| ==> AnswerLines(rtype, values)[i] == TypeLine(rtype, values[i])
    decreases |values|
  {
    if values != [] {
      AnswerLinesShape(rtype, values[..|values| - 1]);
    }
  }

  /**
   * The types queried are a prefix of the list; no type before the last one
   * queried answered NXDOMAIN; and the loop stops short of the end of the
   * list only right after an NXDOMAIN.
   */
  lemma {:induction false} QueriedTypesStopAtNxDomain(dns: DnsData, fqdn: string, types: seq<RecordType>)
    ensures var q := QueriedTypes(dns, fqdn, types);
            && q <= types
            && (forall i :: 0 <= i < |q| - 1 ==> !dns(fqdn, q[i]).NxDomain?)
            && (|q| < |types| ==> q != [] && dns(fqdn, Last(q)).NxDomain?)
    decreases |types|
  {
    if types != [] && !dns(fqdn, types[0]).NxDomain? {
      QueriedTypesStopAtNxDomain(dns, fqdn, types[1..]);
      var rest := QueriedTypes(dns, fqdn, types[1..]);
      assert QueriedTypes(dns, fqdn, types) == [types[0]] + rest;
      assert types == [types[0]] + types[1..];
      assert forall i :: 1 <= i < |rest| + 1 ==> ([types[0]] + rest)[i] == rest[i - 1];
    }
  }

  /**
   * When the first NXDOMAIN is at position `k`, exactly the types up to and
   * including it are queried.
   */
  lemma {:induction false} NxDomainEndsQueries(dns: DnsData, fqdn: string, types: seq<RecordType>, k: nat)
    requires k < |types| && dns(fqdn, types[k]).NxDomain?
    requires forall j :: 0 <= j < k ==> !dns(fqdn, types[j]).NxDomain?
    ensures QueriedTypes(dns, fqdn, types) == types[..k + 1]
    decreases k
  {
    if k > 0 {
      NxDomainEndsQueries(dns, fqdn, types[1..], k - 1);
      assert types[1..][..k] == types[1..k + 1];
      assert types[..k + 1] == [types[0]] + types[1..k + 1];
    }
  }

  /** The NXDOMAIN marker for the first type that got NXDOMAIN is the last record line. */
  lemma {:induction false} NxDomainEndsRecords(dns: DnsData, fqdn: string, types: seq<RecordType>, k: nat)
    requires k < |types| && dns(fqdn, types[k]).NxDomain?
    requires forall j :: 0 <= j < k ==> !dns(fqdn, types[j]).NxDomain?
    ensures var lines := RecordLines(dns, fqdn, types);
            lines != [] && Last(lines) == TypeLine(types[k], NxDomainMarker)
    decreases k
  {
    var rest := RecordLines(dns, fqdn, types[1..]);
    if k > 0 {
      assert types[1..][k - 1] == types[k];
      assert forall j :: 0 <= j < k - 1 ==> types[1..][j] == types[j + 1];
      NxDomainEndsRecords(dns, fqdn, types[1..], k - 1);
      assert RecordLines(dns, fqdn, types) == OutcomeLines(types[0], dns(fqdn, types[0])) + rest;
    } else {
      assert RecordLines(dns, fqdn, types) == [TypeLine(types[0], NxDomainMarker)] + [];
    }
  }


  /** With no NXDOMAIN answer, every one of the eight types is queried, in the fixed order. */
  lemma AllTypesQueriedWithoutNxDomain(dns: DnsData, fqdn: string)
    requires forall rtype :: !dns(fqdn, rtype).NxDomain?
    ensures QueriedTypes(dns, fqdn, RecordTypes) == RecordTypes
  {
    var q := QueriedTypes(dns, fqdn, RecordTypes);
    QueriedTypesStopAtNxDomain(dns, fqdn, RecordTypes);
    if |q| < |RecordTypes| {
      assert false;
    }
  }

  // ------------------------------------------------- lemmas: alias chain

  /**
   * From a chain already built, the walk keeps it as a prefix, each name it
   * adds is the stripped CNAME target of the one before, and it ends for the
   * reason its result names.
   */
  lemma {:induction false} WalkFromShape(dns: DnsData, chain: seq<string>)
    requires 1 <= |chain| <= MaxChainLength
    ensures var w := WalkFrom(dns, chain);
            && (forall i :: |chain| - 1 <= i < |w.chain| - 1 ==> IsAliasStep(dns, w.chain[i], w.chain[i + 1]))
            && (w.Complete? ==> dns(Last(w.chain), CNAME).NoAnswer?)
            && (w.Broken? ==> !dns(Last(w.chain), CNAME).NoAnswer? && !HasRecord(dns(Last(w.chain), CNAME))
                              && w.reason == RaisedText(dns(Last(w.chain), CNAME)))
            && (w.TooLong? ==> |w.chain| == MaxChainLength && HasRecord(dns(Last(w.chain), CNAME)))
    decreases MaxChainLength - |chain|
  {
    var outcome := dns(Last(chain), CNAME);
    if !outcome.NoAnswer? && HasRecord(outcome) && |chain| < MaxChainLength {
      var next := chain + [Target(outcome)];
      WalkFromShape(dns, next);
      var w := WalkFrom(dns, next);
      assert w.chain[|chain| - 1] == Last(chain) && w.chain[|chain|] == Target(outcome);
    }
  }

  /**
   * The alias chain starts at the queried name, holds at most
   * `MaxChainLength` names, and links each name to the next by its CNAME
   * record; a complete walk ends at a name whose CNAME query gave NoAnswer.
   */
  lemma AliasChainShape(dns: DnsData, fqdn: string)
    ensures var w := AliasWalk(dns, fqdn);
            && 1 <= |w.chain| <= MaxChainLength && w.chain[0] == fqdn
            && (forall i :: 0 <= i < |w.chain| - 1 ==> IsAliasStep(dns, w.chain[i], w.chain[i + 1]))
            && (w.Complete? <==> dns(Last(w.chain), CNAME).NoAnswer?)
  {
    WalkFromShape(dns, [fqdn]);
    assert [fqdn] <= AliasWalk(dns, fqdn).chain;
  }

  lemma {:induction false} CnameQueriesShape(chain: seq<string>)
    ensures forall i :: 0 <= i < |chain| ==> CnameQueries(chain)[i] == DnsQuery(chain[i], CNAME)
    decreases |chain|
  {
    if chain != [] {
      CnameQueriesShape(chain[..|chain| - 1]);
    }
  }

  /**
   * The walk queries the CNAME of every name of the chain, in order. Exactly
   * one A query follows, for the chain's last name, and only when the walk is
   * complete; the PTR lookup happens only when that A query gave a record.
   */
  lemma FinalQueryOnce(w: World, fqdn: string)
    ensures var walk, calls := AliasWalk(w.dns, fqdn), AliasCalls(w, fqdn);
            && |calls| >= |walk.chain|
            && (forall i :: 0 <= i < |walk.chain| ==> calls[i] == DnsQuery(walk.chain[i], CNAME))
            && (forall i :: 0 <= i < |calls| && calls[i].DnsQuery? && calls[i].rtype == A ==>
                  walk.Complete? && i == |walk.chain| && calls[i].qname == Last(walk.chain))
            && (walk.Complete? ==> calls[|walk.chain|] == DnsQuery(Last(walk.chain), A))
            && ((exists i :: 0 <= i < |calls| && calls[i].HostByAddr?) <==>
                  walk.Complete? && HasRecord(w.dns(Last(walk.chain), A)))
  {
    var walk, calls := AliasWalk(w.dns, fqdn), AliasCalls(w, fqdn);
    AliasChainShape(w.dns, fqdn);
    CnameQueriesShape(walk.chain);
    var n := |walk.chain|;
    assert calls[..n] == CnameQueries(walk.chain);
    if walk.Complete? {
      var answer := w.dns(Last(walk.chain), A);
      if HasRecord(answer) {
        assert calls[n + 1].HostByAddr?;
      }
    }
  }

  /** After a failed walk only the header and one error line are logged: no diagram, no final lookup. */
  lemma WalkErrorIsContained(w: World, fqdn: string)
    requires !AliasWalk(w.dns, fqdn).Complete?
    ensures var walk := AliasWalk(w.dns, fqdn);
            AliasReport(w, fqdn) ==
              [AliasHeader, AliasErrorLine(if walk.TooLong? then ChainTooLongText else walk.reason)]
    ensures AliasCalls(w, fqdn) == CnameQueries(AliasWalk(w.dns, fqdn).chain)
  {
  }

  lemma {:induction false} IndentShape(depth: nat)
    ensures |Indent(depth)| == 2 * depth
    ensures forall k :: 0 <= k < 2 * depth ==> Indent(depth)[k] == ' '
    decreases depth
  {
    if depth > 0 {
      IndentShape(depth - 1);
    }
  }

  lemma {:induction false} DiagramPrefixShape(chain: seq<string>, n: nat)
    requires n <= |chain|
    ensures |DiagramPrefix(chain, n)| == n
    ensures forall i :: 0 <= i < n ==> DiagramPrefix(chain, n)[i] == DiagramLine(chain, i)
    decreases n
  {
    if n > 0 {
      DiagramPrefixShape(chain, n - 1);
    }
  }

  /**
   * Line `i` of the diagram is `i` two-space indents, the name, a space and
   * an arrow: down for every name but the last, right for the last.
   */
  lemma DiagramShape(chain: seq<string>, i: nat)
    requires i < |chain|
    ensures |DiagramLines(chain)| == |chain|
    ensures var line := DiagramLines(chain)[i];
            && |line| == 2 * i + |chain[i]| + 2
            && (forall k :: 0 <= k < 2 * i ==> line[k] == ' ')
            && line[2 * i..2 * i + |chain[i]|] == chain[i]
            && line[|line| - 2] == ' '
            && (Last(line) == RightArrow <==> i == |chain| - 1)
            && (Last(line) == DownArrow <==> i < |chain| - 1)
  {
    DiagramPrefixShape(chain, |chain|);
    IndentShape(i);
    var line := DiagramLines(chain)[i];
    assert line == Indent(i) + chain[i] + " " + [if i < |chain| - 1 then DownArrow else RightArrow];
    assert forall k :: 0 <= k < 2 * i ==> line[k] == Indent(i)[k];
  }

  // ------------------------------------- the loop of lines 54-58 as written

  /**
   * The source's `while True` walk, run for at most `steps` iterations and
   * with no bound on the chain: None means it is still looping.
   */
  function SourceWalk(dns: DnsData, chain: seq<string>, steps: nat): Option<Walk>
    requires |chain| >= 1
    decreases steps
  {
    var outcome := dns(Last(chain), CNAME);
    if outcome.NoAnswer? then Some(Complete(chain))
    else if !HasRecord(outcome) then Some(Broken(chain, RaisedText(outcome)))
    else if steps == 0 then None
    else SourceWalk(dns, chain + [Target(outcome)], steps - 1)
  }

  /** DNS data with a CNAME cycle: every name, loop.example included, is an alias of loop.example. */
  function CnameLoop(name: string, rtype: RecordType): DnsOutcome {
    if rtype == CNAME then Answers(["loop.example."]) else NoAnswer
  }

  /** As written, the walk never ends on a CNAME cycle, however many iterations it is given. */
  lemma {:induction false} SourceWalkNeverEndsOnCycle(chain: seq<string>, steps: nat)
    requires |chain| >= 1
    ensures SourceWalk(CnameLoop, chain, steps) == None
    decreases steps
  {
    var outcome := CnameLoop(Last(chain), CNAME);
    assert HasRecord(outcome);
    if steps > 0 {
      SourceWalkNeverEndsOnCycle(chain + [Target(outcome)], steps - 1);
    }
  }

  /** The bounded walk stops on the same cycle, with the "alias chain too long" error line. */
  lemma BoundedWalkStopsOnCycle(w: World, fqdn: string)
    requires w.dns == CnameLoop
    ensures AliasWalk(w.dns, fqdn).TooLong? && |AliasWalk(w.dns, fqdn).chain| == MaxChainLength
    ensures AliasReport(w, fqdn) == [AliasHeader, AliasErrorLine(ChainTooLongText)]
  {
    WalkFromShape(CnameLoop, [fqdn]);
    var walk := AliasWalk(CnameLoop, fqdn);
    assert !CnameLoop(Last(walk.chain), CNAME).NoAnswer?;
    assert HasRecord(CnameLoop(Last(walk.chain), CNAME));
  }

  /** The bound changes nothing when the source's loop ends before the chain exceeds it. */
  lemma {:induction false} BoundAgreesWithSource(dns: DnsData, chain: seq<string>, steps: nat)
    requires 1 <= |chain| && |chain| + steps <= MaxChainLength
    requires SourceWalk(dns, chain, steps).Some?
    ensures WalkFrom(dns, chain) == SourceWalk(dns, chain, steps).value
    decreases steps
  {
    var outcome := dns(Last(chain), CNAME);
    if !outcome.NoAnswer? && HasRecord(outcome) {
      BoundAgreesWithSource(dns, chain + [Target(outcome)], steps - 1);
    }
  }
}
