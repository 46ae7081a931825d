/** The static reputation gates of nfdump1.c: service, scanner, popular
    service, whitelist and blacklist. A builder reads a tab-separated file
    into a StrMap of string keys; a lookup formats a key and tests whether it
    is present; a `check_*_filter` writes a 2-bit source/destination mask onto
    the record and turns it into pass or drop.

    A StrMap is modelled as the set of its keys (the stored values are never
    read back). Two behaviours of the code are kept as written: the whitelist
    and blacklist builders compare a three-conversion `sscanf` with 5 and so
    never insert anything, and the whitelist and blacklist lookups search the
    scanner map, whose keys have three fields, for keys of two fields. */
module Reputation {
  import opened CArith
  import opened DecimalKeys
  import opened FlowTypes

  /** One line of a reputation file after `strtok(line, "\r\n")`. `text` is
      the token strtok returns (the empty string stands for NULL), `fields`
      the unsigned numbers `sscanf` converts from it, in order, up to the
      first directive that fails. */
  datatype Line = Line(text: string, fields: seq<UInt32>)

  /** Empty lines and lines starting with '#' are skipped before parsing. */
  predicate Skipped(l: Line) {
    |l.text| == 0 || l.text[0] == '#'
  }

  /** What `sscanf` returns for a format of `directives` `%u` directives. */
  function Conversions(l: Line, directives: nat): (n: nat)
    ensures n <= directives && n <= |l.fields|
    ensures n == directives <==> |l.fields| >= directives
  {
    if |l.fields| < directives then |l.fields| else directives
  }

  /** A builder inserts a line when it is not skipped and `sscanf` returns
      exactly the count the builder compares it with. */
  predicate Accepted(l: Line, expected: nat, directives: nat) {
    !Skipped(l) && Conversions(l, directives) == expected
  }

  /** Which converted fields a builder joins into its key. */
  datatype KeyLayout = Triple(i: nat, j: nat, k: nat) | Pair(i: nat, j: nat)

  predicate FitsIn(layout: KeyLayout, n: nat) {
    match layout
    case Triple(i, j, k) => i < n && j < n && k < n
    case Pair(i, j) => i < n && j < n
  }

  function KeyOf(layout: KeyLayout, fields: seq<nat>): string
    requires FitsIn(layout, |fields|)
  {
    match layout
    case Triple(i, j, k) => Key3(fields[i], fields[j], fields[k])
    case Pair(i, j) => Key2(fields[i], fields[j])
  }

  /** The keys a builder inserts for `lines`, read in order. */
  function KeySet(lines: seq<Line>, expected: nat, directives: nat, layout: KeyLayout): set<string>
    requires FitsIn(layout, expected)
  {
    if |lines| == 0 then {}
    else
      var l := lines[|lines| - 1];
      KeySet(lines[..|lines| - 1], expected, directives, layout)
        + (if Accepted(l, expected, directives) then {KeyOf(layout, l.fields)} else {})
  }

  /** A key is in the built set exactly when some accepted line produces it. */
  lemma {:induction false} KeySetMembers(lines: seq<Line>, expected: nat, directives: nat, layout: KeyLayout, key: string)
    requires FitsIn(layout, expected)
    ensures key in KeySet(lines, expected, directives, layout)
        <==> exists l :: l in lines && Accepted(l, expected, directives) && KeyOf(layout, l.fields) == key
  {
    if |lines| > 0 {
      var init := lines[..|lines| - 1];
      KeySetMembers(init, expected, directives, layout, key);
      assert lines == init + [lines[|lines| - 1]];
    }
  }

  /** The loop shared by the file-driven builders: every line is tested and
      the key of each accepted one is put into the map. */
  method BuildKeyMap(lines: seq<Line>, expected: nat, directives: nat, layout: KeyLayout)
    returns (m: set<string>)
    requires FitsIn(layout, expected)
    ensures m == KeySet(lines, expected, directives, layout)
  {
    m := {};
    var i := 0;
    while i < |lines|
      invariant 0 <= i <= |lines|
      invariant m == KeySet(lines[..i], expected, directives, layout)
    {
      var l := lines[i];
      assert lines[..i + 1][..i] == lines[..i];
      if !Skipped(l) && Conversions(l, directives) == expected {
        m := m + {KeyOf(layout, l.fields)};
      }
      i := i + 1;
    }
    assert lines[..|lines|] == lines;
  }

  // ---------------------------------------------------------------------
  // Service map: "ip \t proto \t port \t peers", key "ip:proto:port".

  const ServiceLayout: KeyLayout := Triple(0, 1, 2)

  /** The (ip, protocol, port) triples of the accepted service lines. */
  function ServiceEntries(lines: seq<Line>): set<(nat, nat, nat)> {
    set l | l in lines && Accepted(l, 4, 4) :: (l.fields[0], l.fields[1], l.fields[2])
  }

  function ServiceKeySet(lines: seq<Line>): set<string> {
    KeySet(lines, 4, 4, ServiceLayout)
  }

  /** `in_service_map` */
  predicate InServiceMap(serviceMap: set<string>, ip: UInt32, proto: UInt32, port: UInt32) {
    Key3(ip, proto, port) in serviceMap
  }

  /** After reading the service file, a triple is found exactly when some
      valid line of four unsigned fields carried it in its first three. */
  lemma ServiceLookupAfterBuild(lines: seq<Line>, ip: UInt32, proto: UInt32, port: UInt32)
    ensures InServiceMap(ServiceKeySet(lines), ip, proto, port) <==> (ip, proto, port) in ServiceEntries(lines)
  {
    KeySetMembers(lines, 4, 4, ServiceLayout, Key3(ip, proto, port));
    if InServiceMap(ServiceKeySet(lines), ip, proto, port) {
      var l :| l in lines && Accepted(l, 4, 4) && KeyOf(ServiceLayout, l.fields) == Key3(ip, proto, port);
      Key3Injective(l.fields[0], l.fields[1], l.fields[2], ip, proto, port);
    }
    if (ip, proto, port) in ServiceEntries(lines) {
      var l :| l in lines && Accepted(l, 4, 4) && (l.fields[0], l.fields[1], l.fields[2]) == (ip, proto, port);
      assert KeyOf(ServiceLayout, l.fields) == Key3(ip, proto, port);
    }
  }

  /** `build_service_map` */
  method BuildServiceMap(lines: seq<Line>) returns (serviceMap: set<string>)
    ensures serviceMap == ServiceKeySet(lines)
    ensures forall ip: UInt32, proto: UInt32, port: UInt32 :: InServiceMap(serviceMap, ip, proto, port) <==> (ip, proto, port) in ServiceEntries(lines)
  {
    serviceMap := BuildKeyMap(lines, 4, 4, ServiceLayout);
    forall ip: UInt32, proto: UInt32, port: UInt32
      ensures InServiceMap(serviceMap, ip, proto, port) <==> (ip, proto, port) in ServiceEntries(lines)
    {
      ServiceLookupAfterBuild(lines, ip, proto, port);
    }
  }

  /** The line "167772160\t6\t80\t5" makes (167772160, 6, 80) a service and
      nothing else. */
  lemma ServiceMapSingleLine(ip: UInt32, proto: UInt32, port: UInt32)
    ensures var lines := [Line("167772160\t6\t80\t5", [167772160, 6, 80, 5])];
      InServiceMap(ServiceKeySet(lines), ip, proto, port) <==> (ip, proto, port) == (167772160, 6, 80)
  {
    var lines := [Line("167772160\t6\t80\t5", [167772160, 6, 80, 5])];
    ServiceLookupAfterBuild(lines, ip, proto, port);
    assert Accepted(lines[0], 4, 4);
    if (ip, proto, port) in ServiceEntries(lines) {
      var l :| l in lines && Accepted(l, 4, 4) && (l.fields[0], l.fields[1], l.fields[2]) == (ip, proto, port);
      assert l == lines[0];
    }
  }

  // ---------------------------------------------------------------------
  // Scanner map: "t \t ip \t proto \t peerport \t peers", key "ip:proto:peerport".

  const ScannerLayout: KeyLayout := Triple(1, 2, 3)

  /** The (ip, protocol, peer port) triples of the accepted scanner lines. */
  function ScannerEntries(lines: seq<Line>): set<(nat, nat, nat)> {
    set l | l in lines && Accepted(l, 5, 5) :: (l.fields[1], l.fields[2], l.fields[3])
  }

  function ScannerKeySet(lines: seq<Line>): set<string> {
    KeySet(lines, 5, 5, ScannerLayout)
  }

  /** `in_scanner_map` */
  predicate InScannerMap(scannerMap: set<string>, ip: UInt32, proto: UInt32, peerport: UInt32) {
    Key3(ip, proto, peerport) in scannerMap
  }

  lemma ScannerLookupAfterBuild(lines: seq<Line>, ip: UInt32, proto: UInt32, peerport: UInt32)
    ensures InScannerMap(ScannerKeySet(lines), ip, proto, peerport) <==> (ip, proto, peerport) in ScannerEntries(lines)
  {
    KeySetMembers(lines, 5, 5, ScannerLayout, Key3(ip, proto, peerport));
    if InScannerMap(ScannerKeySet(lines), ip, proto, peerport) {
      var l :| l in lines && Accepted(l, 5, 5) && KeyOf(ScannerLayout, l.fields) == Key3(ip, proto, peerport);
      Key3Injective(l.fields[1], l.fields[2], l.fields[3], ip, proto, peerport);
    }
    if (ip, proto, peerport) in ScannerEntries(lines) {
      var l :| l in lines && Accepted(l, 5, 5) && (l.fields[1], l.fields[2], l.fields[3]) == (ip, proto, peerport);
      assert KeyOf(ScannerLayout, l.fields) == Key3(ip, proto, peerport);
    }
  }

  /** `build_scanner_map` */
  method BuildScannerMap(lines: seq<Line>) returns (scannerMap: set<string>)
    ensures scannerMap == ScannerKeySet(lines)
    ensures forall ip: UInt32, proto: UInt32, peerport: UInt32 :: InScannerMap(scannerMap, ip, proto, peerport) <==> (ip, proto, peerport) in ScannerEntries(lines)
  {
    scannerMap := BuildKeyMap(lines, 5, 5, ScannerLayout);
    forall ip: UInt32, proto: UInt32, peerport: UInt32
      ensures InScannerMap(scannerMap, ip, proto, peerport) <==> (ip, proto, peerport) in ScannerEntries(lines)
    {
      ScannerLookupAfterBuild(lines, ip, proto, peerport);
    }
  }

  // ---------------------------------------------------------------------
  // Whitelist and blacklist: "t \t ip \t port", meant to give key "ip:port".

  const ListLayout: KeyLayout := Pair(1, 2)

  /** A format of three `%u` directives can never convert five fields. */
  lemma {:induction false} ThreeDirectivesNeverGiveFive(lines: seq<Line>)
    ensures KeySet(lines, 5, 3, ListLayout) == {}
  {
    if |lines| > 0 {
      ThreeDirectivesNeverGiveFive(lines[..|lines| - 1]);
      assert Conversions(lines[|lines| - 1], 3) <= 3;
    }
  }

  /** `build_whitelist_map`: every line reaches the `5 != sscanf(...)` test
      and is dropped, so the map stays empty. */
  method BuildWhitelistMap(lines: seq<Line>) returns (whitelistMap: set<string>)
    ensures whitelistMap == KeySet(lines, 5, 3, ListLayout)
    ensures whitelistMap == {}
  {
    whitelistMap := BuildKeyMap(lines, 5, 3, ListLayout);
    ThreeDirectivesNeverGiveFive(lines);
  }

  /** `build_blacklist_map`: the same test as the whitelist builder, with
      the same empty result. */
  method BuildBlacklistMap(lines: seq<Line>) returns (blacklistMap: set<string>)
    ensures blacklistMap == KeySet(lines, 5, 3, ListLayout)
    ensures blacklistMap == {}
  {
    blacklistMap := BuildKeyMap(lines, 5, 3, ListLayout);
    ThreeDirectivesNeverGiveFive(lines);
  }

  /** `in_whitelist_map`: tries "ip:port", then "0:port", then "ip:0",
      each in the map it is given, which in the source is the scanner map.
      An entry with address 0 stands for every address on its port, one with
      port 0 for every port of its address; only a two-field key can match. */
  predicate InWhitelistMap(scannerMap: set<string>, ip: UInt32, port: UInt32)
    ensures Key2(ip, port) in scannerMap ==> InWhitelistMap(scannerMap, ip, port)
    ensures Key2(0, port) in scannerMap ==> InWhitelistMap(scannerMap, ip, port)
    ensures Key2(ip, 0) in scannerMap ==> InWhitelistMap(scannerMap, ip, port)
    ensures InWhitelistMap(scannerMap, ip, port) ==> exists a: nat, b: nat :: Key2(a, b) in scannerMap
  {
    if Key2(ip, port) in scannerMap then true
    else if Key2(0, port) in scannerMap then true
    else Key2(ip, 0) in scannerMap
  }

  /** `in_blacklist_map`: the same three probes, also in the scanner map. */
  predicate InBlacklistMap(scannerMap: set<string>, ip: UInt32, port: UInt32) {
    InWhitelistMap(scannerMap, ip, port)
  }

  /** A scanner map holds only three-field keys, so none of the two-field
      probes of the whitelist and blacklist lookups can succeed on it. */
  lemma ListLookupsMissScannerMap(lines: seq<Line>, ip: UInt32, port: UInt32)
    ensures !InWhitelistMap(ScannerKeySet(lines), ip, port)
    ensures !InBlacklistMap(ScannerKeySet(lines), ip, port)
  {
    forall a: nat, b: nat | Key2(a, b) in ScannerKeySet(lines)
      ensures false
    {
      KeySetMembers(lines, 5, 5, ScannerLayout, Key2(a, b));
      var l :| l in lines && Accepted(l, 5, 5) && KeyOf(ScannerLayout, l.fields) == Key2(a, b);
      Key2IsNeverKey3(a, b, l.fields[1], l.fields[2], l.fields[3]);
    }
  }

  // ---------------------------------------------------------------------
  // Popular-service map: "ip \t name", keyed by the first token.

  predicate IsDelimiter(c: char) {
    c == '\t' || c == '\r' || c == '\n'
  }

  /** strtok's first step: skip the leading delimiters. What is left is no
      longer than `s` and does not start with a delimiter; SkipDelimitersSuffix
      states what was skipped. */
  function SkipDelimiters(s: string): (r: string)
    ensures |r| <= |s|
    ensures |r| > 0 ==> !IsDelimiter(r[0])
  {
    if |s| > 0 && IsDelimiter(s[0]) then SkipDelimiters(s[1..]) else s
  }

  /** What SkipDelimiters leaves is a suffix of `s`, and everything before it
      is a delimiter. */
  lemma {:induction false} SkipDelimitersSuffix(s: string)
    ensures var r := SkipDelimiters(s);
      && r == s[|s| - |r|..]
      && forall i :: 0 <= i < |s| - |r| ==> IsDelimiter(s[i])
  {
    if |s| > 0 && IsDelimiter(s[0]) {
      SkipDelimitersSuffix(s[1..]);
      var r := SkipDelimiters(s);
      assert r == SkipDelimiters(s[1..]);
      assert s[1..][|s| - 1 - |r|..] == s[|s| - |r|..];
      forall i | 0 <= i < |s| - |r|
        ensures IsDelimiter(s[i])
      {
        if i > 0 {
          assert s[i] == s[1..][i - 1];
        }
      }
    }
  }

  /** strtok's second step: the longest prefix free of delimiters;
      TakeTokenPrefix states where it stops. */
  function TakeToken(s: string): (r: string)
    ensures |r| <= |s|
    ensures forall i :: 0 <= i < |r| ==> !IsDelimiter(r[i])
  {
    if |s| == 0 || IsDelimiter(s[0]) then [] else [s[0]] + TakeToken(s[1..])
  }

  /** The token is a prefix of `s` that ends at the end of `s` or just
      before a delimiter. */
  lemma {:induction false} TakeTokenPrefix(s: string)
    ensures var r := TakeToken(s);
      && r == s[..|r|]
      && (|r| < |s| ==> IsDelimiter(s[|r|]))
  {
    if !(|s| == 0 || IsDelimiter(s[0])) {
      TakeTokenPrefix(s[1..]);
      var r := TakeToken(s);
      var r1 := TakeToken(s[1..]);
      assert r == [s[0]] + r1;
      assert s[..|r|] == [s[0]] + s[1..][..|r1|];
      if |r| < |s| {
        assert s[|r|] == s[1..][|r1|];
      }
    }
  }

  /** `strtok(s, "\t\r\n")`: the first run of non-delimiters; empty for NULL.
      The builder calls `strtok(s, ...)` twice on the same `s`, so the second
      call returns this same token and the stored name equals the key. */
  function FirstToken(s: string): string {
    TakeToken(SkipDelimiters(s))
  }

  /** The first token starts right after the leading delimiters, holds no
      delimiter and ends at a delimiter or at the end of the line; it is
      empty exactly when the line holds nothing but delimiters. */
  lemma FirstTokenIsStrtok(s: string)
    ensures var r, k := FirstToken(s), |s| - |SkipDelimiters(s)|;
      && (forall i :: 0 <= i < |r| ==> !IsDelimiter(r[i]))
      && (forall j :: 0 <= j < k ==> IsDelimiter(s[j]))
      && k + |r| <= |s| && r == s[k..k + |r|]
      && (k + |r| < |s| ==> IsDelimiter(s[k + |r|]))
    ensures FirstToken(s) == [] <==> forall i :: 0 <= i < |s| ==> IsDelimiter(s[i])
  {
    var rest := SkipDelimiters(s);
    var k := |s| - |rest|;
    var r := TakeToken(rest);
    SkipDelimitersSuffix(s);
    TakeTokenPrefix(rest);
    assert rest == s[k..];
    assert r == rest[..|r|];
    assert r == s[k..k + |r|];
    if k + |r| < |s| {
      assert rest[|r|] == s[k + |r|];
    }
    if rest != [] {
      assert rest[0] == s[k];
      if r == [] {
        assert false;
      }
    }
  }

  /** The keys `build_popular_service_map` inserts (a NULL token inserts nothing). */
  function PopularKeySet(lines: seq<Line>): set<string> {
    if |lines| == 0 then {}
    else
      var l := lines[|lines| - 1];
      PopularKeySet(lines[..|lines| - 1])
        + (if !Skipped(l) && FirstToken(l.text) != [] then {FirstToken(l.text)} else {})
  }

  lemma {:induction false} PopularKeySetMembers(lines: seq<Line>, key: string)
    ensures key in PopularKeySet(lines)
        <==> exists l :: l in lines && !Skipped(l) && key != [] && FirstToken(l.text) == key
  {
    if |lines| > 0 {
      var init := lines[..|lines| - 1];
      PopularKeySetMembers(init, key);
      assert lines == init + [lines[|lines| - 1]];
    }
  }

  /** `build_popular_service_map` */
  method BuildPopularServiceMap(lines: seq<Line>) returns (popularMap: set<string>)
    ensures popularMap == PopularKeySet(lines)
    ensures forall key :: (key in popularMap
      <==> exists l :: l in lines && !Skipped(l) && key != [] && FirstToken(l.text) == key)
  {
    popularMap := {};
    var i := 0;
    while i < |lines|
      invariant 0 <= i <= |lines|
      invariant popularMap == PopularKeySet(lines[..i])
    {
      assert lines[..i + 1][..i] == lines[..i];
      var l := lines[i];
      if !Skipped(l) {
        var ip := FirstToken(l.text);
        if ip != [] {
          popularMap := popularMap + {ip};
        }
      }
      i := i + 1;
    }
    assert lines[..|lines|] == lines;
    forall key
      ensures key in popularMap <==> exists l :: l in lines && !Skipped(l) && key != [] && FirstToken(l.text) == key
    {
      PopularKeySetMembers(lines, key);
    }
  }

  /** `in_popular_service_map` */
  predicate InPopularServiceMap(popularMap: set<string>, ipstr: string) {
    ipstr in popularMap
  }

  // ---------------------------------------------------------------------
  // The check_*_filter functions.

  /** The `-S exclude_*` and `-S *_only` switches of one gate. */
  datatype GateFlags = GateFlags(exclude: bool, only: bool)

  /** `(srcHit ? 1 : 0) | (dstHit ? 2 : 0)` */
  function EndpointMask(srcHit: bool, dstHit: bool): (mask: nat)
    ensures mask < 4
    ensures mask % 2 == 1 <==> srcHit
    ensures mask / 2 == 1 <==> dstHit
    ensures mask == 0 <==> !srcHit && !dstHit
  {
    (if srcHit then 1 else 0) + (if dstHit then 2 else 0)
  }

  /** The common tail of every gate: exclude mode passes an unmatched record,
      include-only mode passes a matched one, neither passes everything;
      exclude takes precedence when both switches are on. */
  function GateDecision(mask: nat, flags: GateFlags): (pass: bool)
    requires mask < 4
    ensures pass == Verdict(mask % 2 == 1, mask / 2 == 1, flags)
  {
    if flags.exclude then mask == 0
    else if flags.only then mask != 0
    else true
  }

  /** The record with its mask written, and the gate's verdict. */
  datatype Checked = Checked(record: MasterRecord, pass: bool)

  /** The verdict of a gate in terms of the two endpoint matches. */
  predicate Verdict(srcHit: bool, dstHit: bool, flags: GateFlags) {
    if flags.exclude then !srcHit && !dstHit
    else if flags.only then srcHit || dstHit
    else true
  }

  /** `check_service_filter`: source key (sip, prot, srcport), destination
      key (dip, prot, dstport). */
  function CheckServiceFilter(serviceMap: set<string>, flags: GateFlags, r: MasterRecord): (c: Checked)
    ensures c.record == r.(service := c.record.service)
    ensures c.record.service < 4
    ensures c.record.service % 2 == 1 <==> InServiceMap(serviceMap, Low32(r.srcaddr), r.prot, r.srcport)
    ensures c.record.service / 2 == 1 <==> InServiceMap(serviceMap, Low32(r.dstaddr), r.prot, r.dstport)
    ensures c.pass == Verdict(InServiceMap(serviceMap, Low32(r.srcaddr), r.prot, r.srcport),
                              InServiceMap(serviceMap, Low32(r.dstaddr), r.prot, r.dstport), flags)
  {
    var sip, dip := Low32(r.srcaddr), Low32(r.dstaddr);
    var mask := EndpointMask(InServiceMap(serviceMap, sip, r.prot, r.srcport),
                             InServiceMap(serviceMap, dip, r.prot, r.dstport));
    Checked(r.(service := mask), GateDecision(mask, flags))
  }

  /** `check_scanner_filter`: the ports are crossed, source key
      (sip, prot, dstport), destination key (dip, prot, srcport). */
  function CheckScannerFilter(scannerMap: set<string>, flags: GateFlags, r: MasterRecord): (c: Checked)
    ensures c.record == r.(scanner := c.record.scanner)
    ensures c.record.scanner < 4
    ensures c.record.scanner % 2 == 1 <==> InScannerMap(scannerMap, Low32(r.srcaddr), r.prot, r.dstport)
    ensures c.record.scanner / 2 == 1 <==> InScannerMap(scannerMap, Low32(r.dstaddr), r.prot, r.srcport)
    ensures c.pass == Verdict(InScannerMap(scannerMap, Low32(r.srcaddr), r.prot, r.dstport),
                              InScannerMap(scannerMap, Low32(r.dstaddr), r.prot, r.srcport), flags)
  {
    var sip, dip := Low32(r.srcaddr), Low32(r.dstaddr);
    var mask := EndpointMask(InScannerMap(scannerMap, sip, r.prot, r.dstport),
                             InScannerMap(scannerMap, dip, r.prot, r.srcport));
    Checked(r.(scanner := mask), GateDecision(mask, flags))
  }

  /** `check_popular_service_filter`: each address, written as a dotted quad,
      is looked up as a key. */
  function CheckPopularServiceFilter(popularMap: set<string>, flags: GateFlags, r: MasterRecord): (c: Checked)
    ensures c.record == r.(popularService := c.record.popularService)
    ensures c.record.popularService < 4
    ensures c.record.popularService % 2 == 1 <==> DottedQuad(Low32(r.srcaddr)) in popularMap
    ensures c.record.popularService / 2 == 1 <==> DottedQuad(Low32(r.dstaddr)) in popularMap
    ensures c.pass == Verdict(DottedQuad(Low32(r.srcaddr)) in popularMap,
                              DottedQuad(Low32(r.dstaddr)) in popularMap, flags)
  {
    var sipstr, dipstr := DottedQuad(Low32(r.srcaddr)), DottedQuad(Low32(r.dstaddr));
    var mask := EndpointMask(InPopularServiceMap(popularMap, sipstr), InPopularServiceMap(popularMap, dipstr));
    Checked(r.(popularService := mask), GateDecision(mask, flags))
  }

  /** `check_whitelist_filter`: source probe (sip, dstport), destination
      probe (dip, srcport), both through `in_whitelist_map`. */
  function CheckWhitelistFilter(scannerMap: set<string>, flags: GateFlags, r: MasterRecord): (c: Checked)
    ensures c.record == r.(whitelist := c.record.whitelist)
    ensures c.record.whitelist < 4
    ensures c.record.whitelist % 2 == 1 <==> InWhitelistMap(scannerMap, Low32(r.srcaddr), r.dstport)
    ensures c.record.whitelist / 2 == 1 <==> InWhitelistMap(scannerMap, Low32(r.dstaddr), r.srcport)
    ensures c.pass == Verdict(InWhitelistMap(scannerMap, Low32(r.srcaddr), r.dstport),
                              InWhitelistMap(scannerMap, Low32(r.dstaddr), r.srcport), flags)
  {
    var sip, dip := Low32(r.srcaddr), Low32(r.dstaddr);
    var mask := EndpointMask(InWhitelistMap(scannerMap, sip, r.dstport), InWhitelistMap(scannerMap, dip, r.srcport));
    Checked(r.(whitelist := mask), GateDecision(mask, flags))
  }

  /** `check_blacklist_filter`: the same probes through `in_blacklist_map`. */
  function CheckBlacklistFilter(scannerMap: set<string>, flags: GateFlags, r: MasterRecord): (c: Checked)
    ensures c.record == r.(blacklist := c.record.blacklist)
    ensures c.record.blacklist < 4
    ensures c.record.blacklist % 2 == 1 <==> InBlacklistMap(scannerMap, Low32(r.srcaddr), r.dstport)
    ensures c.record.blacklist / 2 == 1 <==> InBlacklistMap(scannerMap, Low32(r.dstaddr), r.srcport)
    ensures c.pass == Verdict(InBlacklistMap(scannerMap, Low32(r.srcaddr), r.dstport),
                              InBlacklistMap(scannerMap, Low32(r.dstaddr), r.srcport), flags)
  {
    var sip, dip := Low32(r.srcaddr), Low32(r.dstaddr);
    var mask := EndpointMask(InBlacklistMap(scannerMap, sip, r.dstport), InBlacklistMap(scannerMap, dip, r.srcport));
    Checked(r.(blacklist := mask), GateDecision(mask, flags))
  }

  /** With the scanner map the program builds, the whitelist and blacklist
      gates never match: their masks are 0, exclude mode passes every record
      and include-only mode drops every record. */
  lemma ListGatesAreInert(lines: seq<Line>, flags: GateFlags, r: MasterRecord)
    ensures CheckWhitelistFilter(ScannerKeySet(lines), flags, r).record.whitelist == 0
    ensures CheckBlacklistFilter(ScannerKeySet(lines), flags, r).record.blacklist == 0
    ensures CheckWhitelistFilter(ScannerKeySet(lines), flags, r).pass == (flags.exclude || !flags.only)
    ensures CheckBlacklistFilter(ScannerKeySet(lines), flags, r).pass == (flags.exclude || !flags.only)
  {
    ListLookupsMissScannerMap(lines, Low32(r.srcaddr), r.dstport);
    ListLookupsMissScannerMap(lines, Low32(r.dstaddr), r.srcport);
  }
}
