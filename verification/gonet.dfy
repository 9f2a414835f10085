/**
 * Models of the parts of Go's `net` package the service calls:
 * `net.ParseIP` (its dotted-quad path exactly; IPv6 text is handed to a
 * parser given as a parameter), the classification methods behind
 * `IP.IsGlobalUnicast`, and `net.SplitHostPort` (a parameter).
 */
module GoNet {
  import opened Wrappers
  import opened GoText

  /** A `net.IP` in its 16-byte form. */
  type IP16 = b: seq<byte> | |b| == 16 witness [0, 0, 0, 0, 0, 0, 0, 0, 0, 0, 0, 0, 0, 0, 0, 0]

  /** The library calls left abstract: IPv6 text parsing and host:port
      splitting (which yields host, port and an error). */
  datatype NetLib = NetLib(
    parseIPv6: string -> Option<IP16>,
    splitHostPort: string -> (string, string, Option<string>))

  /** `net.IPv4(a, b, c, d)`: the IPv4-in-IPv6 form ::ffff:a.b.c.d. */
  function IPv4(a: byte, b: byte, c: byte, d: byte): IP16
  {
    [0, 0, 0, 0, 0, 0, 0, 0, 0, 0, 0xff, 0xff, a, b, c, d]
  }

  /** A dotted-quad field: decimal, at most 255, no leading zero. */
  predicate IsOctetText(s: string)
  {
    IsCanonicalDecimal(s) && DecimalValue(s) <= 255
  }

  /** Four octet fields separated by dots, and nothing else. */
  predicate IsDottedQuad(s: string)
  {
    var f := Split(s, '.');
    |f| == 4 && forall i :: 0 <= i < 4 ==> IsOctetText(f[i])
  }

  /** The IPv4 branch of `net.ParseIP`. */
  function ParseIPv4(s: string): (r: Option<IP16>)
    ensures r.Some? <==> IsDottedQuad(s)
  {
    var f := Split(s, '.');
    if IsDottedQuad(s) then
      Some(IPv4(DecimalValue(f[0]), DecimalValue(f[1]), DecimalValue(f[2]), DecimalValue(f[3])))
    else None
  }

  /** The first '.' or ':' in the text, which decides how `net.ParseIP`
      reads it. */
  function FirstSeparator(s: string): Option<char>
  {
    if s == [] then None
    else if s[0] == '.' || s[0] == ':' then Some(s[0])
    else FirstSeparator(s[1..])
  }

  /** `net.ParseIP`: nil (None) when the text is not an address. */
  function ParseIP(s: string, parseIPv6: string -> Option<IP16>): (r: Option<IP16>)
    ensures FirstSeparator(s) == None ==> r == None
    ensures FirstSeparator(s) == Some('.') ==> (r.Some? <==> IsDottedQuad(s)) && r == ParseIPv4(s)
    ensures FirstSeparator(s) == Some(':') ==> r == parseIPv6(s)
  {
    match FirstSeparator(s)
    case Some(c) => if c == '.' then ParseIPv4(s) else parseIPv6(s)
    case None => None
  }

  /** Digit text followed by a dot has '.' as its first separator. */
  lemma {:induction false} FirstSeparatorAfterDigits(digits: string, rest: string)
    requires AllDigits(digits)
    ensures FirstSeparator(digits + "." + rest) == Some('.')
  {
    if digits != [] {
      assert (digits + "." + rest)[1..] == digits[1..] + "." + rest;
      FirstSeparatorAfterDigits(digits[1..], rest);
    }
  }

  /** A dotted quad is always read by the IPv4 branch. */
  lemma DottedQuadParses(s: string, parseIPv6: string -> Option<IP16>)
    requires IsDottedQuad(s)
    ensures ParseIP(s, parseIPv6) == ParseIPv4(s)
  {
    var f := Split(s, '.');
    SplitJoin(s, '.');
    assert Join(f, '.') == f[0] + "." + Join(f[1..], '.');
    FirstSeparatorAfterDigits(f[0], Join(f[1..], '.'));
  }

  /** `IP.To4`: the four trailing bytes when the address is IPv4-mapped. */
  function To4(ip: IP16): Option<seq<byte>>
  {
    if ip[..10] == [0, 0, 0, 0, 0, 0, 0, 0, 0, 0] && ip[10] == 0xff && ip[11] == 0xff then Some(ip[12..]) else None
  }

  const IPv6Unspecified: IP16 := [0, 0, 0, 0, 0, 0, 0, 0, 0, 0, 0, 0, 0, 0, 0, 0]
  const IPv6Loopback: IP16 := [0, 0, 0, 0, 0, 0, 0, 0, 0, 0, 0, 0, 0, 0, 0, 1]

  predicate IsUnspecified(ip: IP16)
  {
    ip == IPv4(0, 0, 0, 0) || ip == IPv6Unspecified
  }

  predicate IsLoopback(ip: IP16)
  {
    match To4(ip)
    case Some(v4) => v4[0] == 127
    case None => ip == IPv6Loopback
  }

  predicate IsMulticast(ip: IP16)
  {
    match To4(ip)
    case Some(v4) => 0xe0 <= v4[0] <= 0xef
    case None => ip[0] == 0xff
  }

  predicate IsLinkLocalUnicast(ip: IP16)
  {
    match To4(ip)
    case Some(v4) => v4[0] == 169 && v4[1] == 254
    case None => ip[0] == 0xfe && 0x80 <= ip[1] <= 0xbf
  }

  /** `IP.IsGlobalUnicast` for a 16-byte address. */
  predicate IsGlobalUnicast(ip: IP16)
  {
    ip != IPv4(255, 255, 255, 255) && !IsUnspecified(ip) && !IsLoopback(ip)
    && !IsMulticast(ip) && !IsLinkLocalUnicast(ip)
  }

  /** For an IPv4 address a.b.c.d the classification reads: not the
      broadcast address, not 0.0.0.0, not 127/8, not 224/4 multicast and
      not 169.254/16 link-local. */
  lemma GlobalUnicastIPv4(a: byte, b: byte, c: byte, d: byte)
    ensures IsGlobalUnicast(IPv4(a, b, c, d)) <==>
      !(a == 255 && b == 255 && c == 255 && d == 255) && !(a == 0 && b == 0 && c == 0 && d == 0)
      && a != 127 && !(0xe0 <= a <= 0xef) && !(a == 169 && b == 254)
  {
    var ip := IPv4(a, b, c, d);
    assert ip[..10] == [0, 0, 0, 0, 0, 0, 0, 0, 0, 0] && ip[10] == 0xff && ip[11] == 0xff;
    assert To4(ip) == Some([a, b, c, d]);
    assert ip != IPv6Unspecified by { assert ip[10] != IPv6Unspecified[10]; }
    assert ip == IPv4(255, 255, 255, 255) <==> a == 255 && b == 255 && c == 255 && d == 255 by {
      if a == 255 && b == 255 && c == 255 && d == 255 {
        assert ip == IPv4(255, 255, 255, 255);
      }
      if ip == IPv4(255, 255, 255, 255) {
        assert ip[12] == 255 && ip[13] == 255 && ip[14] == 255 && ip[15] == 255;
      }
    }
    assert ip == IPv4(0, 0, 0, 0) <==> a == 0 && b == 0 && c == 0 && d == 0 by {
      if a == 0 && b == 0 && c == 0 && d == 0 {
        assert ip == IPv4(0, 0, 0, 0);
      }
      if ip == IPv4(0, 0, 0, 0) {
        assert ip[12] == 0 && ip[13] == 0 && ip[14] == 0 && ip[15] == 0;
      }
    }
  }
}
