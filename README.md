# TraceNetPath diagnostic: a verified model

`diag.py` is an interactive network diagnostic. It reads a host name and a
TCP port and resolves the name. It then prints the DNS records of the name,
walks its CNAME (alias) chain, and finds the local network adapter that
carries traffic to the resolved address. Next it runs a route trace, except when the target
address is in the Shared Address Space 100.64.0.0/10 (section 7 of RFC
6598), the local address was found on one of the interfaces, and that
local address is in the same range; such a route goes through a ZTNA
(zero-trust network access) tunnel. A local address that no interface
carries yields the "adapter name not found" label, from which no address
is extracted, so the trace runs. Last, it tries a TCP
connection. Every message goes both to the console and to a log file.

This project models that decision logic in Dafny and proves what the
program guarantees about it.

- `Wrappers`: `Option` and `Result`.
- `Decimal`: decimal digit strings, `str(n)` and `int(s)` on ASCII digits.
- `Text`: `str.split`, a join, `rstrip`/`lstrip`/`strip` of one character,
  and the lemmas relating them.
- `PathClassifier`: the IPv4 parser of `ipaddress`, `is_cgnat` and the /10
  test. It also holds the extraction of the local address from the adapter
  label (`diag.py:151`) and the skip decision (`diag.py:153`).
- `Effects`: the outside world.
  - The datatype `World` gathers the answers of DNS, `gethostbyname`,
    `gethostbyaddr`, the UDP socket trick, `psutil.net_if_addrs`,
    `tracert` and the TCP connect.
  - The class `Network` holds a `World` and appends every external call to
    its `calls` log.
  - The class `Transcript` holds the lines written by `log`.
- `AdapterLocator`: `get_network_adapter_used`, a nested search loop over
  the interfaces.
- `NameResolver`: `show_all_dns_records`, `reverse_dns_lookup` and
  `show_dns_alias_chain_and_ptr`.
- `Orchestrator`: `run_tracert` and `main`.

Each state-changing method changes `Network.calls`, `Transcript.lines`
or both. Its postcondition equates the new state with the old state followed by a
specification function of the `World`. The lemmas then state the
program's promises about those functions. Examples: which record types
are queried, the shape of the alias diagram, when the trace is skipped,
and the order of the phases.

## Model

| member | source | states |
|---|---|---|
| Effects.Transcript.Log | diag.py:10-13 | a logged message is appended as one line after all earlier lines |
| Effects.Network.GetHostByName | diag.py:15-20 | the result is the world's answer for the name (None stands for `gaierror`), and exactly one lookup call is recorded |
| Effects.Network.Query | diag.py:27 | the outcome is the world's DNS outcome for the name and record type, and exactly one DNS query is recorded; the same call stands for the resolves at `diag.py:55` and `diag.py:71` |
| Effects.Network.GetHostByAddr | diag.py:42 | the result is the world's reverse-lookup answer, a host name or the failure text, and exactly one reverse-lookup call is recorded |
| Effects.Network.LocalAddressToward | diag.py:104-107 | the result is the local address the world picks for a UDP socket connected to the address (None when that raises), and exactly one UDP-connect call is recorded |
| Effects.Network.NetIfAddrs | diag.py:111 | the result is the world's interfaces in enumeration order, and exactly one enumeration call is recorded |
| Effects.Network.ConnectTcp | diag.py:78-85 | the result is whether the world lets a TCP connect to (address, port) succeed, and exactly one connect call is recorded |
| Effects.Network.RunTracert | diag.py:89-101 | the output is the world's stripped `tracert` lines for the address, and exactly one trace call is recorded |
| PathClassifier.ParseIPv4 | diag.py:121 | an accepted text always yields exactly four octets, each below 256 |
| PathClassifier.ParseFormat | diag.py:121 | every four-octet address, written in dotted-quad form, parses back to the same octets |
| PathClassifier.FormatParse | diag.py:121 | the parser accepts only canonical text: any accepted text equals the dotted-quad rendering of its octets, so leading zeros, signs and blanks are rejected |
| PathClassifier.CgnatRangeByOctets | diag.py:121 | membership in 100.64.0.0/10 holds exactly when the first octet is 100 and the second is between 64 and 127 |
| PathClassifier.IsCgnat | diag.py:119-123 | a text the IPv4 parser rejects is never CGNAT, which models the `ValueError` branch and the IPv6 version mismatch; the full range test is in IsCgnatByOctets |
| PathClassifier.IsCgnatByOctets | diag.py:119-123 | `is_cgnat` holds exactly when the text parses as IPv4 with first octet 100 and second octet in 64..127; every other text gives false |
| PathClassifier.CgnatTextClassified | diag.py:119-123 | the dotted-quad text of an address is classified CGNAT exactly when its first two octets are in the shared range |
| PathClassifier.ColonTextNotCgnat | diag.py:119-123 | text containing a colon, such as any IPv6 address, is never CGNAT |
| PathClassifier.EmptyNotCgnat | diag.py:119-123 | the empty text is not CGNAT |
| PathClassifier.ExtractLocalIp | diag.py:151 | a local address is extracted exactly when the label contains '(' |
| PathClassifier.SkipTrace | diag.py:153 | a skip needs a CGNAT target and a label containing '(' |
| PathClassifier.ExtractedAddressIsPlain | diag.py:151 | a label with '(' always yields a local address, and that address holds no '(' and does not end in ')' |
| PathClassifier.SplitKeeps | diag.py:121 | a character other than the separator ends up in some piece of the split |
| AdapterLocator.FindAdapter | diag.py:111-117 | the nested loop returns the label of the search: the first interface, in order, that carries the local address, else the not-found label |
| AdapterLocator.GetNetworkAdapterUsed | diag.py:103-117 | without a local address the label is "Could not determine local interface" and only the socket call happens; otherwise the interface enumeration follows and the label is the search result |
| AdapterLocator.SearchFindsFirstMatch | diag.py:111-117 | with no matching interface the label is the not-found label; otherwise it names the first interface holding the address, and none earlier holds it |
| AdapterLocator.SearchFindsSome | diag.py:111-115 | when some interface holds the address, the label names one such interface together with the address |
| AdapterLocator.LabelRoundTrip | diag.py:151 | the local address extracted from a found-adapter label (built at `diag.py:115`) is exactly the address put into it, if the address contains no parentheses |
| AdapterLocator.NotFoundLabelYieldsNothing | diag.py:117 | the not-found label has no '(' so it yields no local address, if the address has no '(' |
| AdapterLocator.NoInterfaceLabelYieldsNothing | diag.py:109 | the failure label yields no local address |
| NameResolver.RecordLinesStep | diag.py:25-38 | the loop's one-step unfolding, the helper that closes QueryEachType: the lines and queries from position i are those of type i, followed by nothing after NXDOMAIN and by the rest from i+1 otherwise |
| NameResolver.LogOutcome | diag.py:26-38 | one query outcome prints one line per answer, or one marker line: no answer, domain does not exist, no nameservers, or the error text |
| NameResolver.QueryEachType | diag.py:25-38 | the loop prints the record lines of the types and queries exactly the types up to and including the first NXDOMAIN |
| NameResolver.ShowAllDnsRecords | diag.py:22-38 | prints the header and then the record lines of the eight types A, AAAA, CNAME, MX, NS, TXT, SOA and SRV |
| NameResolver.AnswerLinesShape | diag.py:28-29 | an answer prints one line per record value, in order, each tagged with the record type |
| NameResolver.QueriedTypesStopAtNxDomain | diag.py:25-34 | the queried types are a prefix of the list; no queried type but the last got NXDOMAIN; a stop before the end happened on NXDOMAIN |
| NameResolver.NxDomainEndsQueries | diag.py:32-34 | when the first NXDOMAIN is at position k, exactly the types up to and including k are queried |
| NameResolver.NxDomainEndsRecords | diag.py:32-34 | when the first NXDOMAIN is at position k, the last printed line is the "Domain does not exist" line of type k |
| NameResolver.AllTypesQueriedWithoutNxDomain | diag.py:23-38 | when no type gets NXDOMAIN, all eight types are queried in order |
| Text.StripShape | diag.py:56 | `strip('.')` leaves a slice of the text that neither starts nor ends with '.', and everything cut off on either side is '.' |
| NameResolver.WalkFromShape | diag.py:54-63 | every step of the walk follows a CNAME record; a complete walk ends where CNAME has no answer; a broken one ends on a raised error with its text; a too-long one stops at the bound on a name that still has a CNAME |
| NameResolver.WalkAliasChain | diag.py:50-63 | the loop's result is the alias walk from the name, and it queries CNAME once for each name of the chain, in order |
| NameResolver.AliasChainShape | diag.py:50-63 | the chain starts at the name, has at most 20 names and follows CNAME records link by link; it is complete exactly when its last name has no CNAME answer |
| NameResolver.CnameQueriesShape | diag.py:54-55 | the i-th CNAME query is for the i-th name of the chain |
| NameResolver.WalkErrorIsContained | diag.py:61-63 | when the walk does not complete, the report is exactly the header and the error line with the raised text ("alias chain too long" at the bound), and the calls are exactly the chain's CNAME queries |
| NameResolver.LogDiagram | diag.py:65-68 | prints exactly the diagram lines of the chain |
| NameResolver.IndentShape | diag.py:66 | the indent of depth d is 2·d spaces |
| NameResolver.DiagramPrefixShape | diag.py:65-68 | the first n diagram lines are the lines for positions 0 to n-1 |
| NameResolver.DiagramShape | diag.py:65-68 | one line per name; line i is 2·i spaces, the name, a space and an arrow; the arrow is → exactly on the last line and ↓ on all the others |
| NameResolver.ReverseDnsLookup | diag.py:40-45 | one reverse lookup, then one line that gives the host name or the failure text |
| NameResolver.ShowFinalAddress | diag.py:70-76 | queries A for the last name; prints the first address and its reverse lookup, or the "could not resolve" line |
| NameResolver.ShowDnsAliasChainAndPtr | diag.py:47-76 | prints the alias report and makes exactly the alias calls of the world |
| NameResolver.FinalQueryOnce | diag.py:53-76 | the calls begin with the chain's CNAME queries; an A query happens only once, right after them, for the last name, and only for a complete walk; a reverse lookup happens exactly when the final A query returned a record |
| NameResolver.SourceWalkNeverEndsOnCycle | diag.py:54-58 | as written, the loop never ends on a CNAME cycle: with every step allowed, the walk never finishes |
| NameResolver.BoundedWalkStopsOnCycle | diag.py:54-63 | the bounded walk stops on the same cycle after 20 names and prints only the header and the error line |
| NameResolver.BoundAgreesWithSource | diag.py:54-58 | whenever the loop as written ends within the bound, the bounded walk gives the same result |
| Orchestrator.TraceRoute | diag.py:87-101 | prints the tracing notice and then every line of the trace output in order, and makes exactly one trace call |
| Orchestrator.TraceUnlessTunnelled | diag.py:153-157 | prints the ZTNA notice and the skip line, with no trace, exactly when the skip test holds; otherwise it runs the trace |
| Orchestrator.ClassifyAndTrace | diag.py:148-157 | finds the adapter, prints the adapter line, then traces or skips as the adapter label decides |
| Orchestrator.Diagnose | diag.py:143-164 | the transcript after resolution: the resolved line, the records, the alias report, the route section, the probe line and the results notice |
| Orchestrator.RunDiagnostic | diag.py:132-164 | the whole run prints the report of the world and makes exactly the run's calls |
| Orchestrator.ParsePort | diag.py:133 | an accepted port text is non-empty and all digits after its first character, and a negative port needs a leading '-' |
| Orchestrator.Resolved | diag.py:138-139 | the run continues exactly when `gethostbyname` returned a non-empty address, and then with that address |
| Orchestrator.ParsePortRoundTrip | diag.py:133 | the decimal text of any integer, signed or not, is read back as that integer |
| Orchestrator.ParsePortCanonical | diag.py:133 | a canonical digit string is read as its value and printed back unchanged, as in `diag.py:160` |
| Orchestrator.EarlyExits | diag.py:132-141 | a bad port prints only "Invalid port." and makes no call; an unresolved name prints only "Could not resolve hostname." after one lookup; resolution fails exactly when the lookup raises or returns the empty text |
| Orchestrator.RunOrder | diag.py:138-162 | a resolved run's calls go through the phases in order (lookups, adapter, trace, probe); it starts with the name lookup; the TCP connect is the last call and the only one; the trace runs exactly when the skip test fails |
| Orchestrator.SkipIffTunnelled | diag.py:148-157 | the trace is skipped exactly when the target is CGNAT, a local address was found, some interface carries it, and it is CGNAT; this holds for a local address without '(' that does not end in ')', as the dotted-quad text from `getsockname` always is |
| Orchestrator.TunnelledRoute | diag.py:149-155 | a skipped route prints exactly the adapter line, the ZTNA notice and the skip line |
| Orchestrator.FrameOf | diag.py:143-164 | the route section comes right before the probe line, and the results notice is the last line |
| Orchestrator.DiagnosticsFrame | diag.py:143-164 | a resolved run opens with the resolved line and closes with the probe result and the results notice |
| Orchestrator.ResolvedRun | diag.py:138-164 | once the port is read and the name resolved, the report is the diagnostics of that address and the calls are the name lookup followed by the diagnostic calls |

## Left out

- Console output and file writes: `log` is modelled as appending a line to the transcript. The duplication to stdout and to the log file is not modelled.
- The log file's truncation and its timestamped header (`diag.py:126-127`): clocks and files are not modelled.
- `input()` and its `.strip()` (`diag.py:129-130`): the name and the port text are parameters, already stripped.
- The real network, DNS, `psutil` and the `tracert` subprocess: the world is a set of oracle functions in `Effects.World`. The trace output arrives as lines with `.strip()` already applied (`diag.py:97`).
- The 3-second timeouts and the `lifetime` arguments: the world's answer already includes any timeout.
- Orchestrator.ParsePort: accepts an optional sign followed by ASCII digits. The other inputs Python's `int()` accepts are not modelled: underscores, non-ASCII digits, surrounding blanks. Blanks are already stripped by `diag.py:130`.
- Effects.Network.GetHostByName: exceptions other than `socket.gaierror`, which would end the program, are not modelled.
- NameResolver.RaisedText: the exception messages of dnspython are fixed phrases, not the library's exact wording. An empty `Answers` list stands for the `IndexError` of `answer[0]`.
- NameResolver.WalkAliasChain: follows at most 20 names (see Findings). A chain of more than 20 names, with or without a cycle, is reported with the one error line "alias chain too long". The program as written prints the full diagram and the final lookup for a finite chain of any length, and loops forever on a cycle.
- Effects.Network.RunTracert: cannot fail. In `diag.py:89-95` `subprocess.Popen` has no `try`, so a missing `tracert` raises `OSError` and ends `main` before the probe and the results notice; the model does not capture that path, and Orchestrator.RunOrder and Orchestrator.DiagnosticsFrame hold only for runs where the trace starts.
- NameResolver.ShowDnsAliasChainAndPtr: `dns.resolver.Resolver()` at `diag.py:49` is outside the `try` and raises when no resolver is configured, ending `main`; the model assumes a configured resolver.
- Effects.World: the DNS data is a function of name and record type, so the record loop (`diag.py:27`), the alias walk (`diag.py:55`) and the final A query (`diag.py:71`) always get the same answer for the same question. Answers that change between queries, such as a timeout followed by a reply, are not modelled.
- Records are printed by `to_text()` in the source; here each answer is already a text value.

## Findings

| source | as written | input that shows it | evidently intended | confidence | as-written member | corrected member |
|---|---|---|---|---|---|---|
| diag.py:54-58 | the CNAME walk has no bound, so a cycle of aliases keeps the loop running forever and nothing after it runs | DNS where every CNAME query answers `loop.example.` (`NameResolver.CnameLoop`) | the walk stops after a bounded number of names and reports an error | not executed | NameResolver.SourceWalkNeverEndsOnCycle | NameResolver.BoundedWalkStopsOnCycle |
