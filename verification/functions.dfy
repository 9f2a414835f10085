/**
 * functions.go: path joining, input sanitising, the controller
 * dispatcher, the JSON envelopes, and the IPv4 helpers behind the
 * remote-address lookup.
 */
module Functions {
  import opened Wrappers
  import opened GoText
  import opened GoNet
  import opened GoHttp
  import opened Controllers

  // ---------------------------------------------------------------------
  // singleJoiningSlash
  // ---------------------------------------------------------------------

  /** `a` without one trailing '/', if it has one. */
  function DropTrailingSlash(a: string): string
  {
    if |a| > 0 && a[|a| - 1] == '/' then a[..|a| - 1] else a
  }

  /** `b` without one leading '/', if it has one. */
  function DropLeadingSlash(b: string): string
  {
    if |b| > 0 && b[0] == '/' then b[1..] else b
  }

  /** Join two paths so that exactly one '/' sits at the junction: one
      slash of a doubled pair is dropped, a missing one is inserted. */
  function SingleJoiningSlash(a: string, b: string): (r: string)
    ensures r == DropTrailingSlash(a) + "/" + DropLeadingSlash(b)
  {
    var aslash := |a| > 0 && a[|a| - 1] == '/';
    var bslash := |b| > 0 && b[0] == '/';
    if aslash && bslash then a + b[1..]
    else if !aslash && !bslash then a + "/" + b
    else
      assert aslash ==> a == a[..|a| - 1] + "/";
      assert bslash ==> b == "/" + b[1..];
      a + b
  }

  /** The two proxy examples: a base path with or without its trailing
      slash gives the same joined path. */
  lemma SingleJoiningSlashExamples()
    ensures SingleJoiningSlash("/api/", "/v1/x") == "/api/v1/x"
    ensures SingleJoiningSlash("/api", "/v1/x") == "/api/v1/x"
  {
  }

  /** For every pair of paths: one slash added at the end of the base
      path, or at the start of the request path, does not change the
      joined path. */
  lemma SingleJoiningSlashIgnoresEdgeSlash(a: string, b: string)
    ensures !(|a| > 0 && a[|a| - 1] == '/') ==> SingleJoiningSlash(a + "/", b) == SingleJoiningSlash(a, b)
    ensures !(|b| > 0 && b[0] == '/') ==> SingleJoiningSlash(a, "/" + b) == SingleJoiningSlash(a, b)
  {
    assert (a + "/")[..|a + "/"| - 1] == a;
    assert ("/" + b)[1..] == b;
  }

  // ---------------------------------------------------------------------
  // Sanitize
  // ---------------------------------------------------------------------

  /** The eleven characters `Sanitize` deletes: double and single quote,
      '<', '>', CR, backspace, tab, backslash, NUL, LF and Ctrl-Z. */
  predicate IsStripped(c: char)
  {
    c == '"' || c == '\'' || c == '<' || c == '>' || c == '\r' || c == '\U{8}'
    || c == '\t' || c == '\\' || c == '\0' || c == '\n' || c == '\U{1A}'
  }

  /** The replacer pass: each stripped character becomes "". */
  function Strip(s: string): (r: string)
    ensures |r| <= |s|
    ensures forall i :: 0 <= i < |r| ==> !IsStripped(r[i])
    ensures (forall i :: 0 <= i < |s| ==> !IsStripped(s[i])) ==> r == s
  {
    if s == [] then []
    else (if IsStripped(s[0]) then [] else [s[0]]) + Strip(s[1..])
  }

  /** `Sanitize`: the empty string is returned as is; anything else goes
      through the replacer. */
  function Sanitize(s: string): (r: string)
    ensures s == [] ==> r == []
    ensures forall i :: 0 <= i < |r| ==> !IsStripped(r[i])
  {
    if s == [] then [] else Strip(s)
  }

  /** The replacer pass works character by character across a
      concatenation. */
  lemma {:induction false} StripConcat(a: string, b: string)
    ensures Strip(a + b) == Strip(a) + Strip(b)
  {
    if a == [] {
      assert a + b == b;
    } else {
      var head := if IsStripped(a[0]) then [] else [a[0]];
      assert (a + b)[0] == a[0];
      assert (a + b)[1..] == a[1..] + b;
      assert Strip(a + b) == head + Strip(a[1..] + b);
      StripConcat(a[1..], b);
      assert head + (Strip(a[1..]) + Strip(b)) == (head + Strip(a[1..])) + Strip(b);
    }
  }

  /** Sanitising works character by character: the result for `a + b` is
      the result for `a` followed by the result for `b`. */
  lemma SanitizeConcat(a: string, b: string)
    ensures Sanitize(a + b) == Sanitize(a) + Sanitize(b)
  {
    StripConcat(a, b);
    if a == [] {
      assert a + b == b;
    } else if b == [] {
      assert a + b == a;
    }
  }

  /** On one character: deleted when it is one of the eleven, kept
      otherwise. With SanitizeConcat this fixes the result on every input. */
  lemma SanitizeChar(c: char)
    ensures Sanitize([c]) == if IsStripped(c) then [] else [c]
  {
    assert [c][1..] == [];
  }

  /** Sanitising twice is sanitising once. */
  lemma SanitizeIdempotent(s: string)
    ensures Sanitize(Sanitize(s)) == Sanitize(s)
  {
    var r := Sanitize(s);
    if r != [] {
      assert Strip(r) == r;
    }
  }

  // ---------------------------------------------------------------------
  // IP2Long / Long2IP / IsIPInPrivateSubnet
  // ---------------------------------------------------------------------

  predicate IsInt64(x: int)
  {
    -0x8000_0000_0000_0000 <= x < 0x8000_0000_0000_0000
  }

  /** Four octets as dotted-quad text, each written by `strconv.FormatInt`
      and joined by dots. */
  function QuadText(a: byte, b: byte, c: byte, d: byte): string
  {
    Join([DecimalText(a), DecimalText(b), DecimalText(c), DecimalText(d)], '.')
  }

  lemma DecimalTextHasNoDot(n: nat)
    ensures '.' !in DecimalText(n)
  {
    var t := DecimalText(n);
    assert forall i :: 0 <= i < |t| ==> IsDigit(t[i]);
  }

  lemma DecimalTextIsOctet(n: byte)
    ensures IsOctetText(DecimalText(n)) && DecimalValue(DecimalText(n)) == n
  {
    DecimalTextValue(n);
  }

  /** The text of four octets splits back into the four decimal fields and
      is read by `net.ParseIP` as those octets. */
  lemma QuadTextParses(a: byte, b: byte, c: byte, d: byte)
    ensures Split(QuadText(a, b, c, d), '.') == [DecimalText(a), DecimalText(b), DecimalText(c), DecimalText(d)]
    ensures IsDottedQuad(QuadText(a, b, c, d))
    ensures ParseIPv4(QuadText(a, b, c, d)) == Some(IPv4(a, b, c, d))
  {
    var f := [DecimalText(a), DecimalText(b), DecimalText(c), DecimalText(d)];
    DecimalTextHasNoDot(a);
    DecimalTextHasNoDot(b);
    DecimalTextHasNoDot(c);
    DecimalTextHasNoDot(d);
    JoinSplit(f, '.');
    DecimalTextIsOctet(a);
    DecimalTextIsOctet(b);
    DecimalTextIsOctet(c);
    DecimalTextIsOctet(d);
  }

  /** `Long2IP`: bits 31-24, 23-16, 15-8 and 7-0 of the int64 as four
      decimal octets. (`>>` on int64 is floor division; `& 0xff` keeps the
      non-negative remainder modulo 256.) */
  function Long2IP(ip: int): (r: string)
    requires IsInt64(ip)
    ensures IsDottedQuad(r)
    ensures ParseIPv4(r) == Some(IPv4((ip / 0x100_0000) % 0x100, (ip / 0x1_0000) % 0x100, (ip / 0x100) % 0x100, ip % 0x100))
  {
    QuadTextParses((ip / 0x100_0000) % 0x100, (ip / 0x1_0000) % 0x100, (ip / 0x100) % 0x100, ip % 0x100);
    QuadText((ip / 0x100_0000) % 0x100, (ip / 0x1_0000) % 0x100, (ip / 0x100) % 0x100, ip % 0x100)
  }

  /** `IP2Long`: bytes 12..15 of the 16-byte form, big-endian. Go panics
      when `net.ParseIP` yields nil, so the text must parse. */
  function IP2Long(ip: string, parseIPv6: string -> Option<IP16>): (r: nat)
    requires ParseIP(ip, parseIPv6).Some?
    ensures r < 0x1_0000_0000
  {
    var b := ParseIP(ip, parseIPv6).value;
    (b[12] as int) * 0x100_0000 + (b[13] as int) * 0x1_0000 + (b[14] as int) * 0x100 + b[15]
  }

  /** Division with remainder by 2^16, 2^24 and 2^32 is unique. */
  lemma DivMod16(y: int, q: int, rem: int)
    requires y == 0x1_0000 * q + rem && 0 <= rem < 0x1_0000
    ensures y / 0x1_0000 == q && y % 0x1_0000 == rem
  {
  }

  lemma DivMod24(y: int, q: int, rem: int)
    requires y == 0x100_0000 * q + rem && 0 <= rem < 0x100_0000
    ensures y / 0x100_0000 == q && y % 0x100_0000 == rem
  {
  }

  lemma DivMod32(y: int, q: int, rem: int)
    requires y == 0x1_0000_0000 * q + rem && 0 <= rem < 0x1_0000_0000
    ensures y / 0x1_0000_0000 == q && y % 0x1_0000_0000 == rem
  {
  }

  /** Reassembling the four octets of `x` gives `x` modulo 2^32. */
  lemma OctetsRecombine(x: int)
    ensures ((x / 0x100_0000) % 0x100) * 0x100_0000 + ((x / 0x1_0000) % 0x100) * 0x1_0000
          + ((x / 0x100) % 0x100) * 0x100 + x % 0x100 == x % 0x1_0000_0000
  {
    var y1, o0 := x / 0x100, x % 0x100;
    var y2, o1 := y1 / 0x100, y1 % 0x100;
    var y3, o2 := y2 / 0x100, y2 % 0x100;
    var y4, o3 := y3 / 0x100, y3 % 0x100;
    assert x == 0x1_0000 * y2 + (0x100 * o1 + o0);
    DivMod16(x, y2, 0x100 * o1 + o0);
    assert x == 0x100_0000 * y3 + (0x1_0000 * o2 + 0x100 * o1 + o0);
    DivMod24(x, y3, 0x1_0000 * o2 + 0x100 * o1 + o0);
    assert x == 0x1_0000_0000 * y4 + (0x100_0000 * o3 + 0x1_0000 * o2 + 0x100 * o1 + o0);
    DivMod32(x, y4, 0x100_0000 * o3 + 0x1_0000 * o2 + 0x100 * o1 + o0);
  }

  /** The octets of a number assembled from four octets are those octets. */
  lemma OctetsOfNumber(a: byte, b: byte, c: byte, d: byte)
    ensures var v := a * 0x100_0000 + b * 0x1_0000 + c * 0x100 + d;
      (v / 0x100_0000) % 0x100 == a && (v / 0x1_0000) % 0x100 == b
      && (v / 0x100) % 0x100 == c && v % 0x100 == d
  {
  }

  /** Round trip from the number: formatting any int64 and reading it
      back gives its low 32 bits. */
  lemma IP2LongOfLong2IP(x: int, parseIPv6: string -> Option<IP16>)
    requires IsInt64(x)
    ensures ParseIP(Long2IP(x), parseIPv6).Some?
    ensures IP2Long(Long2IP(x), parseIPv6) == x % 0x1_0000_0000
  {
    DottedQuadParses(Long2IP(x), parseIPv6);
    OctetsRecombine(x);
  }

  /** Round trip from the text: a dotted quad read as a number and
      formatted again is the same text. */
  lemma Long2IPOfIP2Long(s: string, parseIPv6: string -> Option<IP16>)
    requires IsDottedQuad(s)
    ensures ParseIP(s, parseIPv6) == ParseIPv4(s) && ParseIPv4(s).Some?
    ensures Long2IP(IP2Long(s, parseIPv6)) == s
  {
    DottedQuadParses(s, parseIPv6);
    var f := Split(s, '.');
    var a: byte, b: byte, c: byte, d: byte := DecimalValue(f[0]), DecimalValue(f[1]), DecimalValue(f[2]), DecimalValue(f[3]);
    assert ParseIPv4(s).value == IPv4(a, b, c, d);
    var v := IP2Long(s, parseIPv6);
    assert v == a * 0x100_0000 + b * 0x1_0000 + c * 0x100 + d;
    OctetsOfNumber(a, b, c, d);
    DecimalTextOfValue(f[0]);
    DecimalTextOfValue(f[1]);
    DecimalTextOfValue(f[2]);
    DecimalTextOfValue(f[3]);
    assert f == [DecimalText(a), DecimalText(b), DecimalText(c), DecimalText(d)];
    SplitJoin(s, '.');
  }

  /** An IPv4 block: network address and prefix length. */
  datatype Block = Block(a: byte, b: byte, c: byte, d: byte, prefixLen: nat)

  function Pow2(n: nat): (p: nat)
    ensures p >= 1
  {
    if n == 0 then 1 else 2 * Pow2(n - 1)
  }

  function BlockBase(blk: Block): nat
  {
    blk.a * 0x100_0000 + blk.b * 0x1_0000 + blk.c * 0x100 + blk.d
  }

  /** `v` shares the block's first `prefixLen` bits. */
  predicate InBlock(v: nat, blk: Block)
    requires blk.prefixLen <= 32
  {
    v / Pow2(32 - blk.prefixLen) == BlockBase(blk) / Pow2(32 - blk.prefixLen)
  }

  /** The six blocks `IsIPInPrivateSubnet` tests: 10/8, 172.16/12 and
      192.168/16 (the private blocks of RFC 1918, section 3), 100.64/10
      (shared address space), 192.0.0/24 (IETF protocol assignments) and
      198.18/15 (benchmarking), all listed in RFC 6890, section 2.2.2. */
  const ReservedBlocks: seq<Block> := [
    Block(10, 0, 0, 0, 8), Block(100, 64, 0, 0, 10), Block(172, 16, 0, 0, 12),
    Block(192, 0, 0, 0, 24), Block(192, 168, 0, 0, 16), Block(198, 18, 0, 0, 15)]

  predicate InReservedBlock(v: nat)
  {
    exists i :: 0 <= i < |ReservedBlocks| && InBlock(v, ReservedBlocks[i])
  }

  /** Membership in the list is membership in one of its six entries. */
  lemma ReservedBlocksUnfold(v: nat)
    ensures InReservedBlock(v) <==>
      InBlock(v, ReservedBlocks[0]) || InBlock(v, ReservedBlocks[1]) || InBlock(v, ReservedBlocks[2])
      || InBlock(v, ReservedBlocks[3]) || InBlock(v, ReservedBlocks[4]) || InBlock(v, ReservedBlocks[5])
  {
    if InReservedBlock(v) {
      var i :| 0 <= i < |ReservedBlocks| && InBlock(v, ReservedBlocks[i]);
      assert i == 0 || i == 1 || i == 2 || i == 3 || i == 4 || i == 5;
    }
  }

  lemma MulLe(a: int, b: int, d: nat)
    requires a <= b
    ensures a * d <= b * d
  {
    assert b * d - a * d == (b - a) * d;
  }

  /** The numbers whose quotient by `d` is `k` form the interval
      [k * d, k * d + d). */
  lemma DivInterval(v: nat, d: nat, k: nat)
    requires d > 0
    ensures v / d == k <==> k * d <= v < k * d + d
  {
    var q, rem := v / d, v % d;
    assert v == q * d + rem && 0 <= rem < d;
    if k * d <= v < k * d + d {
      if q < k {
        assert (q + 1) * d == q * d + d;
        MulLe(q + 1, k, d);
      } else if q > k {
        assert (k + 1) * d == k * d + d;
        MulLe(k + 1, q, d);
      }
    }
  }

  /** A block with `size` addresses starting at the `k`-th multiple of the
      size is that interval. */
  lemma BlockInterval(v: nat, blk: Block, size: nat, k: nat)
    requires blk.prefixLen <= 32 && Pow2(32 - blk.prefixLen) == size
    requires BlockBase(blk) == k * size
    ensures InBlock(v, blk) <==> BlockBase(blk) <= v < BlockBase(blk) + size
  {
    DivInterval(v, size, k);
    DivInterval(BlockBase(blk), size, k);
  }

  /** The block sizes the six prefixes give. */
  lemma Pow2Values()
    ensures Pow2(8) == 0x100 && Pow2(16) == 0x1_0000 && Pow2(17) == 0x2_0000
    ensures Pow2(20) == 0x10_0000 && Pow2(22) == 0x40_0000 && Pow2(24) == 0x100_0000
  {
    assert Pow2(8) == 0x100;
    assert Pow2(16) == 0x1_0000;
    assert Pow2(17) == 0x2_0000;
    assert Pow2(20) == 0x10_0000;
    assert Pow2(22) == 0x40_0000;
    assert Pow2(24) == 0x100_0000;
  }

  /** The numeric ranges written in the source are exactly the blocks. */
  lemma ReservedRanges(v: nat)
    ensures InReservedBlock(v) <==>
      (167772160 <= v <= 184549375) || (1681915904 <= v <= 1686110207)
      || (2886729728 <= v <= 2887778303) || (3221225472 <= v <= 3221225727)
      || (3232235520 <= v <= 3232301055) || (3323068416 <= v <= 3323199487)
  {
    ReservedBlocksUnfold(v);
    Pow2Values();
    BlockInterval(v, ReservedBlocks[0], 0x100_0000, 10);
    BlockInterval(v, ReservedBlocks[1], 0x40_0000, 401);
    BlockInterval(v, ReservedBlocks[2], 0x10_0000, 2753);
    BlockInterval(v, ReservedBlocks[3], 0x100, 12582912);
    BlockInterval(v, ReservedBlocks[4], 0x1_0000, 49320);
    BlockInterval(v, ReservedBlocks[5], 0x2_0000, 25353);
  }

  /** `IsIPInPrivateSubnet`: the address lies in one of the six blocks. */
  function IsIPInPrivateSubnet(ip: string, parseIPv6: string -> Option<IP16>): (r: bool)
    requires ParseIP(ip, parseIPv6).Some?
    ensures r <==> InReservedBlock(IP2Long(ip, parseIPv6))
  {
    var ipLong := IP2Long(ip, parseIPv6);
    ReservedRanges(ipLong);
    (ipLong >= 167772160 && ipLong <= 184549375) || (ipLong >= 1681915904 && ipLong <= 1686110207)
    || (ipLong >= 2886729728 && ipLong <= 2887778303) || (ipLong >= 3221225472 && ipLong <= 3221225727)
    || (ipLong >= 3232235520 && ipLong <= 3232301055) || (ipLong >= 3323068416 && ipLong <= 3323199487)
  }

  // ---------------------------------------------------------------------
  // GetRemoteAddress
  // ---------------------------------------------------------------------

  /** An entry the lookup accepts: it parses, is global unicast, and is in
      none of the six blocks (the block test runs only on parsed text). */
  predicate IsPublicAddress(ip: string, net: NetLib)
  {
    var parsed := ParseIP(ip, net.parseIPv6);
    parsed.Some? && IsGlobalUnicast(parsed.value) && !IsIPInPrivateSubnet(ip, net.parseIPv6)
  }

  /** `IsPublicAddress` as a test on text, for the scans below. */
  function PublicTest(net: NetLib): string -> bool
  {
    ip => IsPublicAddress(ip, net)
  }

  /** The index of the last of the first `n` entries whose trimmed text
      passes `accept`; every entry after it, below `n`, fails it. */
  function LastAcceptedBelow(entries: seq<string>, n: nat, accept: string -> bool): (r: Option<nat>)
    requires n <= |entries|
    ensures r.Some? ==> r.value < n && accept(TrimSpace(entries[r.value]))
    ensures forall j :: (if r.Some? then r.value + 1 else 0) <= j < n ==> !accept(TrimSpace(entries[j]))
  {
    if n == 0 then None
    else if accept(TrimSpace(entries[n - 1])) then Some(n - 1)
    else LastAcceptedBelow(entries, n - 1, accept)
  }

  /** The rightmost entry, trimmed, that is a public address. */
  function RightmostPublic(entries: seq<string>, net: NetLib): (r: Option<string>)
    ensures r.Some? ==> IsPublicAddress(r.value, net)
    ensures r.Some? ==> exists k :: (0 <= k < |entries| && r.value == TrimSpace(entries[k])
      && forall j :: k < j < |entries| ==> !IsPublicAddress(TrimSpace(entries[j]), net))
    ensures r.None? <==> forall j :: 0 <= j < |entries| ==> !IsPublicAddress(TrimSpace(entries[j]), net)
  {
    match LastAcceptedBelow(entries, |entries|, PublicTest(net))
    case Some(k) => Some(TrimSpace(entries[k]))
    case None => None
  }

  /** Some comma-separated entry of a header value is, once trimmed, a
      public address. */
  predicate HasPublicEntry(value: string, net: NetLib)
  {
    exists j :: 0 <= j < |Split(value, ',')| && IsPublicAddress(TrimSpace(Split(value, ',')[j]), net)
  }

  /** The address `GetRemoteAddress` reports, header by header: a public
      `X-Forwarded-For` entry wins, then a public `X-Real-Ip` entry, and
      only when neither header has one does the host of `RemoteAddr`
      (with the splitter's error) come back. */
  function RemoteAddress(header: Header, remoteAddr: string, net: NetLib): (r: (string, Option<string>))
    ensures HasPublicEntry(HeaderGet(header, "X-Forwarded-For"), net) ==>
      r.1 == None && IsPublicAddress(r.0, net)
      && r.0 == RightmostPublic(Split(HeaderGet(header, "X-Forwarded-For"), ','), net).value
    ensures !HasPublicEntry(HeaderGet(header, "X-Forwarded-For"), net) && HasPublicEntry(HeaderGet(header, "X-Real-Ip"), net) ==>
      r.1 == None && IsPublicAddress(r.0, net)
      && r.0 == RightmostPublic(Split(HeaderGet(header, "X-Real-Ip"), ','), net).value
    ensures !HasPublicEntry(HeaderGet(header, "X-Forwarded-For"), net) && !HasPublicEntry(HeaderGet(header, "X-Real-Ip"), net) ==>
      r == (net.splitHostPort(remoteAddr).0, net.splitHostPort(remoteAddr).2)
  {
    var xff := HeaderGet(header, "X-Forwarded-For");
    var fromXff := if xff != "" then RightmostPublic(Split(xff, ','), net) else None;
    if fromXff.Some? then (fromXff.value, None)
    else
      var xri := HeaderGet(header, "X-Real-Ip");
      var fromXri := if xri != "" then RightmostPublic(Split(xri, ','), net) else None;
      if fromXri.Some? then (fromXri.value, None)
      else
        var (host, _, err) := net.splitHostPort(remoteAddr);
        (host, err)
  }

  /** The descending scan over one comma-separated header value: the
      last entry, trimmed, that `accept` takes. */
  method ScanRightToLeft(addresses: seq<string>, accept: string -> bool) returns (found: Option<string>)
    ensures found.Some? <==> LastAcceptedBelow(addresses, |addresses|, accept).Some?
    ensures found.Some? ==> found.value == TrimSpace(addresses[LastAcceptedBelow(addresses, |addresses|, accept).value])
  {
    ghost var answer := LastAcceptedBelow(addresses, |addresses|, accept);
    var i := |addresses| - 1;
    while i >= 0
      invariant -1 <= i < |addresses|
      invariant answer == LastAcceptedBelow(addresses, i + 1, accept)
    {
      var ip := TrimSpace(addresses[i]);
      LastAcceptedStep(addresses, i + 1, accept);
      if accept(ip) {
        return Some(ip);
      }
      i := i - 1;
    }
    return None;
  }

  /** One step of the descending scan. */
  lemma LastAcceptedStep(entries: seq<string>, n: nat, accept: string -> bool)
    requires 0 < n <= |entries|
    ensures accept(TrimSpace(entries[n - 1])) ==> LastAcceptedBelow(entries, n, accept) == Some(n - 1)
    ensures !accept(TrimSpace(entries[n - 1])) ==> LastAcceptedBelow(entries, n, accept) == LastAcceptedBelow(entries, n - 1, accept)
  {
  }

  /** `GetRemoteAddress`: the rightmost public `X-Forwarded-For` entry,
      else the rightmost public `X-Real-Ip` entry, else the host part of
      `RemoteAddr`. */
  method GetRemoteAddress(r: Request, net: NetLib) returns (ip: string, err: Option<string>)
    ensures (ip, err) == RemoteAddress(r.header, r.remoteAddr, net)
  {
    var ips := HeaderGet(r.header, "X-Forwarded-For");
    if ips != "" {
      var found := ScanRightToLeft(Split(ips, ','), PublicTest(net));
      if found.Some? {
        return found.value, None;
      }
    }
    ips := HeaderGet(r.header, "X-Real-Ip");
    if ips != "" {
      var found := ScanRightToLeft(Split(ips, ','), PublicTest(net));
      if found.Some? {
        return found.value, None;
      }
    }
    var (host, _, e) := net.splitHostPort(r.remoteAddr);
    return host, e;
  }

  /** A forwarded chain is read from the right: the proxy nearest to the
      service appends last, so a public entry there wins over any entry a
      client could have put in front of it. */
  lemma ForwardedForWins(header: Header, remoteAddr: string, net: NetLib, ip: string, earlier: seq<string>)
    requires HeaderGet(header, "X-Forwarded-For") == Join(earlier + [ip], ',')
    requires ',' !in ip && IsPublicAddress(TrimSpace(ip), net)
    ensures RemoteAddress(header, remoteAddr, net) == (TrimSpace(ip), None)
  {
    SplitJoinedEntries(earlier, ip);
    assert TrimSpace(ip) != [];
  }

  lemma {:induction false} SplitJoinedEntries(earlier: seq<string>, ip: string)
    requires ',' !in ip
    ensures Split(Join(earlier + [ip], ','), ',')[|Split(Join(earlier + [ip], ','), ',')| - 1] == ip
    ensures |Join(earlier + [ip], ',')| >= |ip|
  {
    if earlier == [] {
      assert earlier + [ip] == [ip];
      SplitNoSep(ip, ',');
    } else {
      var rest := earlier[1..] + [ip];
      assert earlier + [ip] == [earlier[0]] + rest;
      assert Join(earlier + [ip], ',') == earlier[0] + [','] + Join(rest, ',');
      SplitConcat(earlier[0], Join(rest, ','), ',');
      SplitJoinedEntries(earlier[1..], ip);
    }
  }

  // ---------------------------------------------------------------------
  // JSON envelopes
  // ---------------------------------------------------------------------

  const ContentType := "Content-Type"
  const JsonMime := "application/json"

  /** The success body: the payload is inserted as is. */
  function SuccessEnvelope(str: string): string
  {
    "{\"code\":200,\"value\":" + str + "}"
  }

  /** The error body: the message is put between quotes, unescaped. */
  function ErrorEnvelope(msg: string): string
  {
    "{\"code\":500,\"value\":\"" + msg + "\"}"
  }

  /** Neither envelope escapes its argument: the payload can be cut back
      out of the body verbatim, and the two envelopes differ in their code. */
  lemma EnvelopePayloads(str: string, msg: string)
    ensures SuccessEnvelope(str)[20..|SuccessEnvelope(str)| - 1] == str
    ensures ErrorEnvelope(msg)[21..|ErrorEnvelope(msg)| - 2] == msg
    ensures SuccessEnvelope(str) != ErrorEnvelope(msg)
  {
    assert SuccessEnvelope(str)[8] == '2' && ErrorEnvelope(msg)[8] == '5';
  }

  /** `JSON(w, str)`. */
  method JSON(w: ResponseWriter, str: string)
    modifies w
    ensures w.header == HeaderSet(old(w.header), ContentType, JsonMime)
    ensures w.body == old(w.body) + SuccessEnvelope(str)
  {
    w.SetHeader(ContentType, JsonMime);
    w.WriteString("{\"code\":200,\"value\":" + str + "}");
  }

  /** `JSONError(w, err)`, with the error given by its message. */
  method JSONError(w: ResponseWriter, msg: string)
    modifies w
    ensures w.header == HeaderSet(old(w.header), ContentType, JsonMime)
    ensures w.body == old(w.body) + ErrorEnvelope(msg)
  {
    w.SetHeader(ContentType, JsonMime);
    w.WriteString("{\"code\":500,\"value\":\"" + msg + "\"}");
  }

  // ---------------------------------------------------------------------
  // invokeCtrlMethod
  // ---------------------------------------------------------------------

  /** What the dispatcher does with a request path. */
  datatype Plan =
    | InvalidParams                       // fewer than 4 elements: JSON error
    | IndexOutOfRange                     // exactly 4: urlElements[4] panics
    | MethodNotFound(name: string)        // no exported method of that name
    | NotArgsHandler(name: string)        // found, but not func([]string): the assertion panics
    | Dispatch(name: string, args: seq<string>)

  /** The decision `invokeCtrlMethod` takes for `path`, given the method
      table of the controller. */
  function PlanFor(path: string, methods: map<string, Signature>): (r: Plan)
    ensures (r.MethodNotFound? || r.NotArgsHandler? || r.Dispatch?) ==>
      |Split(path, '/')| >= 5 && r.name == Title(Split(path, '/')[4])
    ensures r.MethodNotFound? ==> r.name !in methods
    ensures r.NotArgsHandler? ==> r.name in methods && methods[r.name] != ArgsHandler
    ensures r.Dispatch? <==>
      |Split(path, '/')| >= 5 && Title(Split(path, '/')[4]) in methods
      && methods[Title(Split(path, '/')[4])] == ArgsHandler
    ensures r.Dispatch? ==> r.args == Split(path, '/')[5..]
  {
    var elems := Split(path, '/');
    if |elems| < 4 then InvalidParams
    else if |elems| == 4 then IndexOutOfRange
    else
      var name := Title(elems[4]);
      if name !in methods then MethodNotFound(name)
      else if methods[name] != ArgsHandler then NotArgsHandler(name)
      else Dispatch(name, elems[5..])
  }

  /** The parameter-count error happens exactly for paths with fewer than
      three slashes, and the out-of-range index exactly for three. */
  lemma PlanCountsSlashes(path: string, methods: map<string, Signature>)
    ensures PlanFor(path, methods) == InvalidParams <==> Count(path, '/') < 3
    ensures PlanFor(path, methods) == IndexOutOfRange <==> Count(path, '/') == 3
  {
    SplitLength(path, '/');
  }

  /** The request `/<group>/<ver>/<resource>/<method>/<a1>/.../<an>`
      calls the title-cased method with exactly the arguments a1..an, in
      order and verbatim (empty ones included). */
  lemma PlanForControllerPath(group: string, ver: string, resource: string, m: string,
                              args: seq<string>, methods: map<string, Signature>)
    requires '/' !in group && '/' !in ver && '/' !in resource && '/' !in m
    requires forall i :: 0 <= i < |args| ==> '/' !in args[i]
    requires Title(m) in methods && methods[Title(m)] == ArgsHandler
    ensures PlanFor("/" + group + "/" + ver + "/" + resource + "/" + Join([m] + args, '/'), methods)
         == Dispatch(Title(m), args)
  {
    var path := "/" + group + "/" + ver + "/" + resource + "/" + Join([m] + args, '/');
    ControllerPathElements(group, ver, resource, m, args);
    var head: seq<string> := [[], group, ver, resource, m];
    assert (head + args)[4] == m;
    assert (head + args)[5..] == args;
  }

  /** The elements a controller path splits into. */
  lemma ControllerPathElements(group: string, ver: string, resource: string, m: string, args: seq<string>)
    requires '/' !in group && '/' !in ver && '/' !in resource && '/' !in m
    requires forall i :: 0 <= i < |args| ==> '/' !in args[i]
    ensures Split("/" + group + "/" + ver + "/" + resource + "/" + Join([m] + args, '/'), '/')
         == [[], group, ver, resource, m] + args
  {
    var tail := Join([m] + args, '/');
    JoinSplit([m] + args, '/');
    var t3 := resource + "/" + tail;
    var t2 := ver + "/" + t3;
    var t1 := group + "/" + t2;
    SplitAfterSegment(resource, tail);
    SplitAfterSegment(ver, t3);
    SplitAfterSegment(group, t2);
    SplitAfterSegment([], t1);
    ControllerPathShape(group, ver, resource, tail);
    ConsFive([], group, ver, resource, m, args);
  }

  lemma ConsFive<T>(a: T, b: T, c: T, d: T, e: T, rest: seq<T>)
    ensures [a] + ([b] + ([c] + ([d] + ([e] + rest)))) == [a, b, c, d, e] + rest
  {
  }

  lemma ControllerPathShape(group: string, ver: string, resource: string, tail: string)
    ensures "/" + group + "/" + ver + "/" + resource + "/" + tail
         == [] + "/" + (group + "/" + (ver + "/" + (resource + "/" + tail)))
  {
  }

  /** A slash-free segment and a slash split into the segment, then the
      pieces of the rest. */
  lemma SplitAfterSegment(seg: string, rest: string)
    requires '/' !in seg
    ensures Split(seg + "/" + rest, '/') == [seg] + Split(rest, '/')
  {
    SplitConcat(seg, rest, '/');
    SplitNoSep(seg, '/');
  }

  /** `invokeCtrlMethod`: split the path, bind request and response,
      look the method up by its title-cased name and call it with the
      remaining elements. The response writer is stated only for the
      dispatcher's own writes: in the `Dispatch` case it stays unchanged
      because the called method's body is not part of this model (the
      call is only recorded), not because a controller method cannot
      write to it. */
  method InvokeCtrlMethod(ctrl: Controller, w: ResponseWriter, r: Request) returns (outcome: Outcome)
    modifies ctrl, w
    ensures ctrl.microServiceRootDir == old(ctrl.microServiceRootDir) && ctrl.templateDir == old(ctrl.templateDir)
    ensures PlanFor(r.url.path, ctrl.methods).InvalidParams? ==>
      && outcome == Returned
      && ctrl.request == old(ctrl.request) && ctrl.response == old(ctrl.response) && ctrl.calls == old(ctrl.calls)
      && w.header == HeaderSet(old(w.header), ContentType, JsonMime)
      && w.body == old(w.body) + ErrorEnvelope("invalid number of params")
    ensures PlanFor(r.url.path, ctrl.methods).IndexOutOfRange? ==>
      && outcome.Panicked?
      && ctrl.request == old(ctrl.request) && ctrl.response == old(ctrl.response) && ctrl.calls == old(ctrl.calls)
      && w.header == old(w.header) && w.body == old(w.body)
    ensures PlanFor(r.url.path, ctrl.methods).MethodNotFound? ==>
      && outcome == Returned
      && ctrl.request == r && ctrl.response == w && ctrl.calls == old(ctrl.calls)
      && w.header == HeaderSet(old(w.header), ContentType, JsonMime)
      && w.body == old(w.body) + ErrorEnvelope("method not found")
    ensures PlanFor(r.url.path, ctrl.methods).NotArgsHandler? ==>
      && outcome.Panicked?
      && ctrl.request == r && ctrl.response == w && ctrl.calls == old(ctrl.calls)
      && w.header == old(w.header) && w.body == old(w.body)
    ensures PlanFor(r.url.path, ctrl.methods).Dispatch? ==>
      && outcome == Returned
      && ctrl.request == r && ctrl.response == w
      && ctrl.calls == old(ctrl.calls) + [Call(PlanFor(r.url.path, ctrl.methods).name, PlanFor(r.url.path, ctrl.methods).args)]
      && w.header == old(w.header) && w.body == old(w.body)
  {
    var urlElements := Split(r.url.path, '/');
    var numElements := |urlElements|;
    var args: seq<string>;
    if numElements > 4 {
      args := urlElements[5..];
    } else if numElements == 4 {
      args := [];
    } else {
      JSONError(w, "invalid number of params");
      return Returned;
    }
    if numElements == 4 {
      return Panicked("runtime error: index out of range [4] with length 4");
    }
    var methodName := Title(urlElements[4]);
    ctrl.SetRequest(r);
    ctrl.SetResponse(w);
    if methodName !in ctrl.methods {
      JSONError(w, "method not found");
      return Returned;
    }
    if ctrl.methods[methodName] != ArgsHandler {
      return Panicked("interface conversion: method is not func([]string)");
    }
    ctrl.Invoke(methodName, args);
    return Returned;
  }
}
