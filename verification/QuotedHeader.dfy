// matchTimeExceeded: recognising one's own echo request in the part of it that
// an ICMP Time Exceeded message quotes.
module QuotedHeader {
  type Byte = b: int | 0 <= b < 0x100

  // Identifiers and sequence numbers are 16-bit.
  type Word = x: int | 0 <= x < 0x1_0000

  datatype Body = TimeExceeded(data: seq<Byte>) | OtherBody

  // binary.BigEndian.Uint16 of data[at:at+2].
  function Uint16(data: seq<Byte>, at: nat): Word
    requires at + 2 <= |data|
  {
    data[at] as int * 0x100 + data[at + 1]
  }

  function PutUint16(x: Word): (bs: seq<Byte>)
    ensures |bs| == 2 && Uint16(bs, 0) == x
  {
    [x / 0x100, x % 0x100]
  }

  // Length in bytes of the IPv4 header at the front, as its IHL field has it.
  function HeaderLength(data: seq<Byte>): nat
    requires |data| > 0
  {
    data[0] % 0x10 * 4
  }

  predicate Match(body: Body, id: Word, num: Word, isIPv6: bool) {
    && body.TimeExceeded? && |body.data| > 0
    && var data := body.data;
       if isIPv6 then
         && |data| >= 48
         && data[40] == 128
         && Uint16(data, 46) == num && (Uint16(data, 44) == id || Uint16(data, 44) == 0)
       else
         && |data| >= 28
         && var ihl := HeaderLength(data);
            && |data| >= ihl + 8
            && data[ihl] == 8
            && Uint16(data, ihl + 6) == num && (Uint16(data, ihl + 4) == id || Uint16(data, ihl + 4) == 0)
  }

  // ---- The other direction: what a router quotes -------------------------------

  // The eight bytes of an echo request header.
  datatype Echo = Echo(kind: Byte, code: Byte, checksum: Word, id: Word, num: Word)

  // In network byte order.
  function EncodeEcho(e: Echo): (bs: seq<Byte>)
    ensures |bs| == 8 && bs[0] == e.kind && bs[1] == e.code
    ensures bs[2] == e.checksum / 0x100 && bs[3] == e.checksum % 0x100
    ensures bs[4] == e.id / 0x100 && bs[5] == e.id % 0x100
    ensures bs[6] == e.num / 0x100 && bs[7] == e.num % 0x100
  {
    [e.kind, e.code] + PutUint16(e.checksum) + PutUint16(e.id) + PutUint16(e.num)
  }

  function DecodeEcho(bs: seq<Byte>): Echo
    requires |bs| == 8
  {
    Echo(bs[0], bs[1], Uint16(bs, 2), Uint16(bs, 4), Uint16(bs, 6))
  }

  lemma EchoRoundTrip(bs: seq<Byte>)
    requires |bs| == 8
    ensures EncodeEcho(DecodeEcho(bs)) == bs
  {
    var e := DecodeEcho(bs);
    assert e.checksum / 0x100 == bs[2] && e.id / 0x100 == bs[4] && e.num / 0x100 == bs[6];
  }

  // An IP header that a datagram can start with. For IPv4 its first byte has the
  // version in its upper half, which is not looked at, and in its lower half the
  // length in words: 5 to 15, options included (section 3.1 of RFC 791). For IPv6 it
  // has 40 bytes (section 3 of RFC 8200).
  predicate IsHeader(h: seq<Byte>, isIPv6: bool) {
    if isIPv6 then |h| == 40
    else exists version, words :: 0 <= version < 0x10 && 5 <= words <= 15 && IsVersion4(h, version, words)
  }

  predicate IsVersion4(h: seq<Byte>, version: int, words: int) {
    |h| == 4 * words && |h| > 0 && h[0] as int == 0x10 * version + words
  }

  // A Time Exceeded message for an echo request (RFC 792; section 3.3 of RFC 4443).
  function Quote(header: seq<Byte>, e: Echo, rest: seq<Byte>): Body {
    TimeExceeded(header + EncodeEcho(e) + rest)
  }

  // Where the fields of a quoted echo request lie.
  lemma QuoteLayout(h: seq<Byte>, e: Echo, rest: seq<Byte>)
    ensures var data := Quote(h, e, rest).data;
            && |data| == |h| + 8 + |rest|
            && data[..|h|] == h && data[|h|] == e.kind
            && data[|h| + 4] == e.id / 0x100 && data[|h| + 5] == e.id % 0x100
            && data[|h| + 6] == e.num / 0x100 && data[|h| + 7] == e.num % 0x100
            && Uint16(data, |h| + 4) == e.id && Uint16(data, |h| + 6) == e.num
            && (|h| > 0 ==> data[0] == h[0])
  {
    var data := Quote(h, e, rest).data;
    var bs := EncodeEcho(e);
    assert forall k :: 0 <= k < 8 ==> data[|h| + k] == bs[k];
  }

  // Matching undoes quoting: whatever the header length, the options, the code,
  // the checksum and the trailing bytes, the quoted echo request is recognised by
  // its sequence number and its identifier (or an identifier zeroed on the way),
  // and by nothing else.
  lemma MatchUndoesQuote(h: seq<Byte>, e: Echo, rest: seq<Byte>, id: Word, num: Word, isIPv6: bool)
    requires IsHeader(h, isIPv6)
    ensures Match(Quote(h, e, rest), id, num, isIPv6) <==>
              e.kind == (if isIPv6 then 128 else 8) && num == e.num && (id == e.id || e.id == 0)
  {
    QuoteLayout(h, e, rest);
  }

  // And the converse, for every byte string: what matches is a quoted echo
  // request, at the offset the header announces.
  lemma MatchedIsQuote(body: Body, id: Word, num: Word, isIPv6: bool) returns (h: seq<Byte>, e: Echo, rest: seq<Byte>)
    requires Match(body, id, num, isIPv6)
    ensures body == Quote(h, e, rest) && |h| == if isIPv6 then 40 else 4 * (body.data[0] % 0x10)
    ensures e.kind == (if isIPv6 then 128 else 8) && e.num == num && (e.id == id || e.id == 0)
    ensures isIPv6 || |h| >= 20 ==> IsHeader(h, isIPv6)
  {
    var data := body.data;
    var n := if isIPv6 then 40 else HeaderLength(data);
    h, e, rest := data[..n], DecodeEcho(data[n..n + 8]), data[n + 8..];
    EchoRoundTrip(data[n..n + 8]);
    assert data == data[..n] + data[n..n + 8] + data[n + 8..];
    if !isIPv6 && n >= 20 {
      assert IsVersion4(h, data[0] as int / 0x10, n / 4);
    }
  }

  // How much of the quoted datagram the answer depends on.
  function Needed(data: seq<Byte>, isIPv6: bool): nat
    requires |data| > 0
  {
    if isIPv6 then 48 else if data[0] % 0x10 < 5 then 28 else 4 * (data[0] % 0x10) + 8
  }

  // Once that much is present, further bytes do not matter; with less, there is
  // no match.
  lemma MatchDependsOnPrefix(data: seq<Byte>, id: Word, num: Word, isIPv6: bool)
    requires |data| > 0
    ensures if |data| < Needed(data, isIPv6) then !Match(TimeExceeded(data), id, num, isIPv6)
            else Match(TimeExceeded(data), id, num, isIPv6) ==
                 Match(TimeExceeded(data[..Needed(data, isIPv6)]), id, num, isIPv6)
  {
  }
}
