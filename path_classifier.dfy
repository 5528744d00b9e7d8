/**
 * PathClassifier: the IPv4 text parser of Python's `ipaddress` module, the
 * Shared Address Space test of `is_cgnat` (100.64.0.0/10, section 7 of
 * RFC 6598), the extraction of the local address from an adapter label, and
 * the decision to skip the route trace.
 */
module PathClassifier {
  import opened Wrappers
  import opened Decimal
  import opened Text

  /** One octet as `ipaddress` accepts it: 1 to 3 ASCII digits, no leading zero, at most 255. */
  function ParseOctet(p: string): Option<nat> {
    if p == [] || !AllDigits(p) || |p| > 3 then None
    else if p != "0" && p[0] == '0' then None
    else if Value(p) > 255 then None
    else Some(Value(p))
  }

  function ParseOctets(parts: seq<string>): (r: Option<seq<nat>>)
    ensures r.Some? ==> |r.value| == |parts| && forall i :: 0 <= i < |parts| ==> r.value[i] < 256
    decreases |parts|
  {
    if parts == [] then Some([])
    else match (ParseOctet(parts[0]), ParseOctets(parts[1..]))
      case (Some(o), Some(os)) => Some([o] + os)
      case _ => None
  }

  predicate ValidOctets(o: seq<nat>) {
    |o| == 4 && forall i :: 0 <= i < 4 ==> o[i] < 256
  }

  /**
   * `ipaddress.IPv4Address(s)`: exactly four dot-separated octets. Anything
   * else, IPv6 text included, yields None.
   */
  function ParseIPv4(s: string): (r: Option<seq<nat>>)
    ensures r.Some? ==> ValidOctets(r.value)
  {
    var parts := Split(s, '.');
    if |parts| != 4 then None else ParseOctets(parts)
  }

  /** The dotted-quad text of four octets. */
  function FormatIPv4(o: seq<nat>): string
    requires ValidOctets(o)
  {
    Join([NatText(o[0]), NatText(o[1]), NatText(o[2]), NatText(o[3])], '.')
  }

  /** The 32-bit value of an address, first octet most significant. */
  function Address(o: seq<nat>): nat
    requires ValidOctets(o)
  {
    ((o[0] * 256 + o[1]) * 256 + o[2]) * 256 + o[3]
  }

  /** 100.64.0.0, the network address of the Shared Address Space. */
  const CgnatNetwork: seq<nat> := [100, 64, 0, 0]

  /** 2^22: a /10 network leaves 22 host bits, so this many addresses share its prefix. */
  const CgnatBlockSize: nat := 4194304

  /**
   * Membership in 100.64.0.0/10. `ipaddress` masks the address with the
   * netmask 255.192.0.0 and compares with the network address; since that
   * address has its 22 low bits clear, this is equality of the quotients by 2^22.
   */
  predicate InCgnatRange(addr: nat)
  {
    assert ValidOctets(CgnatNetwork);
    addr / CgnatBlockSize == Address(CgnatNetwork) / CgnatBlockSize
  }

  /** `is_cgnat(ip)`: false whenever the text is not an IPv4 address. */
  predicate IsCgnat(s: string)
    ensures IsCgnat(s) ==> ParseIPv4(s).Some?
  {
    match ParseIPv4(s)
    case None => false
    case Some(o) => ValidOctets(o) && InCgnatRange(Address(o))
  }

  /** `adapter.split("(")[-1].rstrip(")") if "(" in adapter else None`. */
  function ExtractLocalIp(adapter: string): (r: Option<string>)
    ensures r.Some? <==> '(' in adapter
  {
    if '(' in adapter then Some(TrimRight(Last(Split(adapter, '(')), ')')) else None
  }

  /**
   * The route trace is skipped only when the resolved address and a
   * non-empty local address taken from the adapter label are both CGNAT.
   */
  predicate SkipTrace(ip: string, adapter: string)
    ensures SkipTrace(ip, adapter) ==> IsCgnat(ip) && '(' in adapter
  {
    && IsCgnat(ip)
    && var local := ExtractLocalIp(adapter);
    && local.Some? && local.value != [] && IsCgnat(local.value)
  }

  // ---------------------------------------------------------------- lemmas

  lemma {:induction false} ParseOctetsShape(parts: seq<string>)
    ensures ParseOctets(parts).Some? <==> forall i :: 0 <= i < |parts| ==> ParseOctet(parts[i]).Some?
    ensures ParseOctets(parts).Some? ==>
              |ParseOctets(parts).value| == |parts| &&
              forall i :: 0 <= i < |parts| ==> ParseOctets(parts).value[i] == ParseOctet(parts[i]).value
    decreases |parts|
  {
    if parts != [] {
      ParseOctetsShape(parts[1..]);
      assert forall i :: 1 <= i < |parts| ==> parts[i] == parts[1..][i - 1];
    }
  }

  /** Formatting four octets and parsing the text gives the octets back. */
  lemma ParseFormat(o: seq<nat>)
    requires ValidOctets(o)
    ensures ParseIPv4(FormatIPv4(o)) == Some(o)
  {
    var parts := [NatText(o[0]), NatText(o[1]), NatText(o[2]), NatText(o[3])];
    forall i | 0 <= i < 4
      ensures '.' !in parts[i] && ParseOctet(parts[i]) == Some(o[i])
    {
      NatTextLength(o[i]);
      ValueOfNatText(o[i]);
      assert NatText(o[i]) == parts[i];
      assert forall k :: 0 <= k < |parts[i]| ==> IsDigit(parts[i][k]);
      if o[i] == 0 {
        assert parts[i] == "0";
      }
    }
    SplitJoin(parts, '.');
    ParseOctetsShape(parts);
    assert Split(FormatIPv4(o), '.') == parts;
    var r := ParseOctets(parts);
    assert r.Some?;
    assert |r.value| == 4;
    assert forall i :: 0 <= i < 4 ==> r.value[i] == o[i];
    assert r.value == o;
  }

  /** Every accepted address text is the canonical text of its octets. */
  lemma FormatParse(s: string)
    requires ParseIPv4(s).Some?
    ensures ValidOctets(ParseIPv4(s).value)
    ensures FormatIPv4(ParseIPv4(s).value) == s
  {
    var parts := Split(s, '.');
    ParseOctetsShape(parts);
    var o := ParseIPv4(s).value;
    forall i | 0 <= i < 4
      ensures NatText(o[i]) == parts[i]
    {
      assert ParseOctet(parts[i]).Some?;
      NatTextOfValue(parts[i]);
    }
    assert [NatText(o[0]), NatText(o[1]), NatText(o[2]), NatText(o[3])] == parts;
    JoinSplit(s, '.');
  }

  lemma DivideByBlock(n: nat, q: nat, r: nat)
    requires r < CgnatBlockSize && n == q * CgnatBlockSize + r
    ensures n / CgnatBlockSize == q
  {
  }

  /** The range test is a test on the first two octets: 100 and 64..127. */
  lemma CgnatRangeByOctets(o: seq<nat>)
    requires ValidOctets(o)
    ensures InCgnatRange(Address(o)) <==> o[0] == 100 && 64 <= o[1] <= 127
  {
    var high := o[0] * 4 + o[1] / 64;
    var rest := (o[1] % 64) * 65536 + o[2] * 256 + o[3];
    assert o[1] == (o[1] / 64) * 64 + o[1] % 64;
    assert Address(o) == high * CgnatBlockSize + rest;
    DivideByBlock(Address(o), high, rest);
    assert Address(CgnatNetwork) == 401 * CgnatBlockSize;
    DivideByBlock(Address(CgnatNetwork), 401, 0);
    assert o[1] / 64 < 4;
  }

  /**
   * `is_cgnat(s)` holds exactly when `s` parses as an IPv4 address whose
   * first octet is 100 and whose second octet lies in 64..127.
   */
  lemma IsCgnatByOctets(s: string)
    ensures IsCgnat(s) <==>
              ParseIPv4(s).Some? && ParseIPv4(s).value[0] == 100 &&
              64 <= ParseIPv4(s).value[1] <= 127
  {
    if ParseIPv4(s).Some? {
      CgnatRangeByOctets(ParseIPv4(s).value);
    }
  }

  /** The same, read forwards: the canonical text of a CGNAT address is classified as CGNAT. */
  lemma CgnatTextClassified(o: seq<nat>)
    requires ValidOctets(o)
    ensures IsCgnat(FormatIPv4(o)) <==> o[0] == 100 && 64 <= o[1] <= 127
  {
    ParseFormat(o);
    CgnatRangeByOctets(o);
  }

  /** A character other than the separator lands in some piece of the split. */
  lemma {:induction false} SplitKeeps(s: string, sep: char, c: char)
    requires c in s && c != sep
    ensures exists i :: 0 <= i < |Split(s, sep)| && c in Split(s, sep)[i]
    decreases |s|
  {
    var parts := Split(s, sep);
    if s[0] == c {
      assert c in parts[0];
    } else {
      SplitKeeps(s[1..], sep, c);
      var rest := Split(s[1..], sep);
      var i :| 0 <= i < |rest| && c in rest[i];
      if s[0] == sep {
        assert parts[i + 1] == rest[i];
      } else if i == 0 {
        assert c in parts[0];
      } else {
        assert parts[i] == rest[i];
      }
    }
  }

  /** IPv6 text (any text with a colon) is never classified as CGNAT, and nothing is raised. */
  lemma ColonTextNotCgnat(s: string)
    requires ':' in s
    ensures !IsCgnat(s)
  {
    if ParseIPv4(s).Some? {
      var parts := Split(s, '.');
      SplitKeeps(s, '.', ':');
      var i :| 0 <= i < |parts| && ':' in parts[i];
      ParseOctetsShape(parts);
      assert false;
    }
  }

  /** The empty text is not an address. */
  lemma EmptyNotCgnat()
    ensures !IsCgnat("")
  {
    assert Split("", '.') == [[]];
  }

  /**
   * An extracted local address holds no '(' and does not end in ')': it is
   * the text after the label's last '(' with its closing parentheses cut off.
   */
  lemma ExtractedAddressIsPlain(adapter: string)
    requires '(' in adapter
    ensures ExtractLocalIp(adapter).Some?
    ensures var local := ExtractLocalIp(adapter).value;
            && '(' !in local
            && (local == [] || Last(local) != ')')
  {
    var parts := Split(adapter, '(');
    SplitPieces(adapter, '(');
    assert '(' !in parts[|parts| - 1];
    TrimRightShape(Last(parts), ')');
  }
}
