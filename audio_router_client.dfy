/** The audio router transport (AudioRouterClient/AudioRouterClient.js): the
    binary packet format (a JSON header line followed by little-endian int16
    samples), its two decoders, and the connection state that drives automatic
    reconnection. */
module AudioRouterClient {
  import opened Js

  type byte = x: int | 0 <= x < 256

  /** The separator between header and samples. */
  const NEWLINE: byte := 10
  /** Module-level `reconnectAttempts`. */
  const RECONNECT_ATTEMPTS: int := 5

  // ---------------------------------------------------------------------------
  // JSON header
  // ---------------------------------------------------------------------------

  function HexDigit(d: nat): (c: char)
    requires d < 16
  {
    "0123456789abcdef"[d]
  }

  /** The letter of the two-character escape `JSON.stringify` uses for `c`, if any. */
  function ShortEscape(c: char): Option<char>
  {
    if c == '"' then Some('"')
    else if c == '\\' then Some('\\')
    else if c as int == 8 then Some('b')
    else if c as int == 12 then Some('f')
    else if c == '\n' then Some('n')
    else if c == '\r' then Some('r')
    else if c == '\t' then Some('t')
    else None
  }

  /** The character a two-character escape stands for. */
  function ShortUnescape(x: char): Option<char>
  {
    if x == '"' then Some('"')
    else if x == '\\' then Some('\\')
    else if x == 'b' then Some(8 as char)
    else if x == 'f' then Some(12 as char)
    else if x == 'n' then Some('\n')
    else if x == 'r' then Some('\r')
    else if x == 't' then Some('\t')
    else None
  }

  /** How `JSON.stringify` writes one character inside a string literal. */
  function EscapeChar(c: char): (t: string)
    ensures |t| > 0
  {
    if ShortEscape(c).Some? then ['\\', ShortEscape(c).value]
    else if (c as int) < 0x20 then "\\u00" + [HexDigit(c as int / 16), HexDigit(c as int % 16)]
    else [c]
  }

  function Escape(s: string): string
  {
    if s == [] then "" else EscapeChar(s[0]) + Escape(s[1..])
  }

  /** `JSON.stringify` of a string. */
  function JsonString(s: string): string
  {
    "\"" + Escape(s) + "\""
  }

  function HexValue(c: char): Option<nat>
  {
    if '0' <= c <= '9' then Some(c as int - '0' as int)
    else if 'a' <= c <= 'f' then Some(c as int - 'a' as int + 10)
    else None
  }

  function Prepend(c: char, rest: Option<string>): Option<string>
  {
    if rest.Some? then Some([c] + rest.value) else None
  }

  /** Reading back the body of a JSON string literal, for the escapes above. */
  function Unescape(t: string): Option<string>
    decreases |t|
  {
    if t == [] then Some("")
    else if t[0] != '\\' then Prepend(t[0], Unescape(t[1..]))
    else if |t| < 2 then None
    else if ShortUnescape(t[1]).Some? then Prepend(ShortUnescape(t[1]).value, Unescape(t[2..]))
    else if |t| >= 6 && t[1..4] == "u00" && HexValue(t[4]).Some? && HexValue(t[5]).Some? then
      Prepend((HexValue(t[4]).value * 16 + HexValue(t[5]).value) as char, Unescape(t[6..]))
    else None
  }

  lemma ShortEscapeInverse(c: char)
    requires ShortEscape(c).Some?
    ensures ShortUnescape(ShortEscape(c).value) == Some(c)
  {
  }

  lemma HexRoundTrip(d: nat)
    requires d < 16
    ensures HexValue(HexDigit(d)) == Some(d)
  {
  }

  lemma UnescapeControl(c: char, rest: string)
    requires ShortEscape(c).None? && (c as int) < 0x20
    ensures Unescape(EscapeChar(c) + rest) == Prepend(c, Unescape(rest))
  {
    var t := EscapeChar(c) + rest;
    var hi, lo := c as int / 16, c as int % 16;
    assert t == "\\u00" + [HexDigit(hi), HexDigit(lo)] + rest;
    assert t[1..4] == "u00";
    assert t[6..] == rest;
    HexRoundTrip(hi);
    HexRoundTrip(lo);
    assert (hi * 16 + lo) as char == c;
  }

  lemma UnescapeChar(c: char, rest: string)
    ensures Unescape(EscapeChar(c) + rest) == Prepend(c, Unescape(rest))
  {
    var t := EscapeChar(c) + rest;
    if ShortEscape(c).Some? {
      ShortEscapeInverse(c);
      assert t[2..] == rest;
    } else if (c as int) < 0x20 {
      UnescapeControl(c, rest);
    } else {
      assert t[1..] == rest;
    }
  }

  /** The escaping `JSON.stringify` applies to the identifiers is undone by a JSON
      reader: the header carries every identifier exactly. */
  lemma {:induction false} EscapeRoundTrip(s: string)
    ensures Unescape(Escape(s)) == Some(s)
  {
    if s != [] {
      EscapeRoundTrip(s[1..]);
      UnescapeChar(s[0], Escape(s[1..]));
      assert [s[0]] + s[1..] == s;
    }
  }

  /** A member of a JSON object: a key and the text of its value. */
  datatype Member = Member(key: string, value: string)

  /** The members of a JSON object, comma-separated, in order. */
  function Members(ms: seq<Member>): string
  {
    if ms == [] then ""
    else JsonString(ms[0].key) + ":" + ms[0].value + (if |ms| == 1 then "" else "," + Members(ms[1..]))
  }

  /** `JSON.stringify` of an object whose members are `ms`. */
  function JsonObject(ms: seq<Member>): string
  {
    "{" + Members(ms) + "}"
  }

  /** `serializeAudioHeader`: the keys acnt, rm, ppt, cnt and rate, in that order. */
  function SerializeAudioHeader(account: string, room: string, participant: string, count: nat, rate: int): string
  {
    JsonObject([
      Member("acnt", JsonString(account)),
      Member("rm", JsonString(room)),
      Member("ppt", JsonString(participant)),
      Member("cnt", NatToString(count)),
      Member("rate", IntToString(rate))])
  }

  // ---------------------------------------------------------------------------
  // Packet bytes
  // ---------------------------------------------------------------------------

  /** The UTF-16 code units JavaScript holds for one character: the code itself
      below 0x10000, otherwise a surrogate pair that encodes it. */
  function CodeUnits(c: char): (u: seq<int>)
    ensures (c as int) < 0x10000 ==> u == [c as int]
    ensures (c as int) >= 0x10000 ==>
      && |u| == 2 && 0xD800 <= u[0] < 0xDC00 && 0xDC00 <= u[1] < 0xE000
      && 0x10000 + (u[0] - 0xD800) * 0x400 + (u[1] - 0xDC00) == c as int
  {
    if (c as int) < 0x10000 then [c as int]
    else
      var v := c as int - 0x10000;
      [0xD800 + v / 0x400, 0xDC00 + v % 0x400]
  }

  /** A string as JavaScript holds it: what `length` counts and `charCodeAt` reads. */
  function Utf16(s: string): (u: seq<int>)
    ensures |u| >= |s|
    decreases |s|
  {
    if s == [] then [] else CodeUnits(s[0]) + Utf16(s[1..])
  }

  lemma {:induction false} Utf16Append(s: string, t: string)
    ensures Utf16(s + t) == Utf16(s) + Utf16(t)
    decreases |s|
  {
    if s == [] {
      assert s + t == t;
    } else {
      assert (s + t)[0] == s[0];
      assert (s + t)[1..] == s[1..] + t;
      Utf16Append(s[1..], t);
      assert Utf16(s + t) == CodeUnits(s[0]) + (Utf16(s[1..]) + Utf16(t));
    }
  }

  /** Every character lies in the Basic Multilingual Plane. */
  predicate Bmp(s: string)
  {
    forall i :: 0 <= i < |s| ==> (s[i] as int) < 0x10000
  }

  /** Below 0x10000 there is one code unit per character, equal to its code. */
  lemma {:induction false} Utf16Bmp(s: string)
    requires Bmp(s)
    ensures |Utf16(s)| == |s|
    ensures forall i :: 0 <= i < |s| ==> Utf16(s)[i] == s[i] as int
    decreases |s|
  {
    if s != [] {
      Utf16Bmp(s[1..]);
      assert Utf16(s) == [s[0] as int] + Utf16(s[1..]);
    }
  }

  /** A character outside the Basic Multilingual Plane takes two code units, so
      `length` and the header loop count it twice. */
  lemma AstralTakesTwoUnits()
    ensures |"\U{1F600}"| == 1
    ensures Utf16("\U{1F600}") == [0xD83D, 0xDE00]
  {
    assert Utf16("\U{1F600}") == CodeUnits('\U{1F600}') + Utf16([]);
  }

  /** `setInt8(i, unit)` stores the code unit modulo 256. */
  function UnitByte(u: int): (b: byte)
    ensures 0 <= u < 256 ==> b == u
    ensures (b - u) % 256 == 0
  {
    u % 256
  }

  /** The header bytes: one `setInt8` per UTF-16 code unit of the text. */
  function HeaderBytes(t: string): (b: seq<byte>)
    ensures |b| == |Utf16(t)|
    ensures forall i :: 0 <= i < |b| ==> b[i] == UnitByte(Utf16(t)[i])
  {
    var u := Utf16(t);
    seq(|u|, i requires 0 <= i < |u| => UnitByte(u[i]))
  }

  lemma HeaderBytesAppend(t: string, u: string)
    ensures HeaderBytes(t + u) == HeaderBytes(t) + HeaderBytes(u)
  {
    Utf16Append(t, u);
  }

  /** No byte the text is stored as is the separator. */
  predicate NoNewlineByte(t: string)
  {
    forall i :: 0 <= i < |HeaderBytes(t)| ==> HeaderBytes(t)[i] != NEWLINE
  }

  /** Every character fits in one byte. */
  predicate Latin1(s: string)
  {
    forall i :: 0 <= i < |s| ==> (s[i] as int) < 256
  }

  /** Printable ASCII is never the separator. */
  predicate Printable(t: string)
  {
    forall i :: 0 <= i < |t| ==> 0x20 <= t[i] as int < 0x7f
  }

  lemma PrintableNoNewline(t: string)
    requires Printable(t)
    ensures NoNewlineByte(t)
  {
    Utf16Bmp(t);
  }

  lemma EscapeCharNoNewline(c: char)
    requires (c as int) < 256
    ensures NoNewlineByte(EscapeChar(c))
  {
    var t := EscapeChar(c);
    if ShortEscape(c).None? && (c as int) >= 0x20 {
      assert t == [c];
      Utf16Bmp(t);
    } else {
      PrintableNoNewline(t);
    }
  }

  lemma NoNewlineConcat(a: string, b: string)
    requires NoNewlineByte(a) && NoNewlineByte(b)
    ensures NoNewlineByte(a + b)
  {
    HeaderBytesAppend(a, b);
  }

  lemma {:induction false} EscapeNoNewline(s: string)
    requires Latin1(s)
    ensures NoNewlineByte(Escape(s))
  {
    if s != [] {
      EscapeCharNoNewline(s[0]);
      EscapeNoNewline(s[1..]);
      NoNewlineConcat(EscapeChar(s[0]), Escape(s[1..]));
    }
  }

  lemma JsonStringNoNewline(s: string)
    requires Latin1(s)
    ensures NoNewlineByte(JsonString(s))
  {
    EscapeNoNewline(s);
    NoNewlineConcat("\"", Escape(s));
    NoNewlineConcat("\"" + Escape(s), "\"");
  }

  lemma {:induction false} MembersNoNewline(ms: seq<Member>)
    requires forall m :: 0 <= m < |ms| ==> Latin1(ms[m].key) && NoNewlineByte(ms[m].value)
    ensures NoNewlineByte(Members(ms))
  {
    if ms != [] {
      JsonStringNoNewline(ms[0].key);
      NoNewlineConcat(JsonString(ms[0].key), ":");
      NoNewlineConcat(JsonString(ms[0].key) + ":", ms[0].value);
      var head := JsonString(ms[0].key) + ":" + ms[0].value;
      if |ms| > 1 {
        MembersNoNewline(ms[1..]);
        NoNewlineConcat(",", Members(ms[1..]));
        NoNewlineConcat(head, "," + Members(ms[1..]));
      } else {
        assert head + "" == head;
      }
    }
  }

  lemma HeaderKeysLatin1()
    ensures Latin1("acnt") && Latin1("rm") && Latin1("ppt") && Latin1("cnt") && Latin1("rate")
  {
  }

  lemma NumbersNoNewline(count: nat, rate: int)
    ensures NoNewlineByte(NatToString(count)) && NoNewlineByte(IntToString(rate))
  {
    PrintableNoNewline(NatToString(count));
    PrintableNoNewline(IntToString(rate));
  }

  /** With identifiers of one-byte characters, no header byte equals the separator:
      `JSON.stringify` escapes the only character whose code is 10. */
  lemma HeaderNoNewline(account: string, room: string, participant: string, count: nat, rate: int)
    requires Latin1(account) && Latin1(room) && Latin1(participant)
    ensures NoNewlineByte(SerializeAudioHeader(account, room, participant, count, rate))
  {
    JsonStringNoNewline(account);
    JsonStringNoNewline(room);
    JsonStringNoNewline(participant);
    HeaderKeysLatin1();
    NumbersNoNewline(count, rate);
    var ms := [
      Member("acnt", JsonString(account)),
      Member("rm", JsonString(room)),
      Member("ppt", JsonString(participant)),
      Member("cnt", NatToString(count)),
      Member("rate", IntToString(rate))];
    assert forall m :: 0 <= m < |ms| ==> Latin1(ms[m].key) && NoNewlineByte(ms[m].value);
    MembersNoNewline(ms);
    NoNewlineConcat("{", Members(ms));
    NoNewlineConcat("{" + Members(ms), "}");
  }

  /** `setInt16(2j, v, true)`: the low byte, then the high byte, of `v` modulo 2^16. */
  function LeBytes(samples: seq<int>): (b: seq<byte>)
    ensures |b| == 2 * |samples|
  {
    seq(2 * |samples|, i requires 0 <= i < 2 * |samples| =>
      if i % 2 == 0 then samples[i / 2] % 256 else (samples[i / 2] / 256) % 256)
  }

  /** `new Int16Array(buffer)`: pairs of bytes read back little-endian; an odd
      byte count throws a RangeError. */
  function Int16Array(bytes: seq<byte>): (r: Option<seq<int>>)
    ensures r.Some? <==> |bytes| % 2 == 0
    ensures r.Some? ==> |r.value| == |bytes| / 2 && forall k :: 0 <= k < |r.value| ==> IsInt16(r.value[k])
  {
    if |bytes| % 2 == 1 then None
    else
      var samples: seq<int> := seq(|bytes| / 2, k requires 0 <= k < |bytes| / 2 => ToInt16(bytes[2 * k] as int + 256 * (bytes[2 * k + 1] as int)));
      Some(samples)
  }

  lemma SampleBytes(v: int)
    ensures ToInt16(v % 256 + 256 * ((v / 256) % 256)) == ToInt16(v)
  {
    var q := v / 256;
    var p := q / 256;
    assert v == 256 * q + v % 256;
    assert q == 256 * p + q % 256;
    var w := v % 256 + 256 * (q % 256);
    assert w == v - 65536 * p;
    assert (w + 32768) % 65536 == (v + 32768) % 65536 by {
      var y := v + 32768;
      var m := y % 65536;
      assert y == 65536 * (y / 65536) + m;
      assert w + 32768 == 65536 * (y / 65536 - p) + m;
    }
  }

  lemma DecodedSample(samples: seq<int>, k: nat)
    requires k < |samples|
    ensures Int16Array(LeBytes(samples)).Some?
    ensures Int16Array(LeBytes(samples)).value[k] == ToInt16(samples[k])
  {
    var v := samples[k];
    var b := LeBytes(samples);
    assert b[2 * k] == v % 256;
    assert b[2 * k + 1] == (v / 256) % 256;
    SampleBytes(v);
  }

  lemma Int16Fixed(x: int)
    requires IsInt16(x)
    ensures ToInt16(x) == x
  {
    assert (x + 32768) % 65536 == x + 32768;
  }

  /** Decoding the sample bytes gives back each sample modulo 2^16; int16 samples
      come back unchanged. */
  lemma DecodeLeBytes(samples: seq<int>)
    ensures Int16Array(LeBytes(samples)).Some?
    ensures |Int16Array(LeBytes(samples)).value| == |samples|
    ensures forall k :: 0 <= k < |samples| ==> Int16Array(LeBytes(samples)).value[k] == ToInt16(samples[k])
    ensures (forall k :: 0 <= k < |samples| ==> IsInt16(samples[k])) ==> Int16Array(LeBytes(samples)) == Some(samples)
  {
    var d := Int16Array(LeBytes(samples)).value;
    forall k | 0 <= k < |samples|
      ensures d[k] == ToInt16(samples[k])
    {
      DecodedSample(samples, k);
    }
    if forall k :: 0 <= k < |samples| ==> IsInt16(samples[k]) {
      forall k | 0 <= k < |samples|
        ensures d[k] == samples[k]
      {
        Int16Fixed(samples[k]);
      }
      assert d == samples;
    }
  }

  /** The header loop of `createPacket`: one `setInt8` per code unit, for
      `i < audioHeader.length`. */
  method WriteHeader(packet: array<byte>, audioHeader: string)
    requires |Utf16(audioHeader)| <= packet.Length
    modifies packet
    ensures packet[..|Utf16(audioHeader)|] == HeaderBytes(audioHeader)
    ensures packet[|Utf16(audioHeader)|..] == old(packet[|Utf16(audioHeader)|..])
  {
    var units := Utf16(audioHeader);
    var i := 0;
    while i < |units|
      invariant 0 <= i <= |units|
      invariant forall k :: 0 <= k < i ==> packet[k] == UnitByte(units[k])
      invariant forall k :: |units| <= k < packet.Length ==> packet[k] == old(packet[k])
    {
      packet[i] := UnitByte(units[i]);
      i := i + 1;
    }
  }

  /** The sample loop of `createPacket`: one little-endian `setInt16` per sample,
      starting at `offset`. */
  method WriteSamples(packet: array<byte>, offset: nat, audioBuffer: seq<int>)
    requires offset + 2 * |audioBuffer| <= packet.Length
    modifies packet
    ensures packet[..offset] == old(packet[..offset])
    ensures packet[offset..offset + 2 * |audioBuffer|] == LeBytes(audioBuffer)
  {
    var j := 0;
    ghost var le := LeBytes(audioBuffer);
    while j < |audioBuffer|
      invariant 0 <= j <= |audioBuffer|
      invariant forall k :: 0 <= k < offset ==> packet[k] == old(packet[k])
      invariant forall k :: 0 <= k < 2 * j ==> packet[offset + k] == le[k]
    {
      var v := audioBuffer[j];
      packet[offset + 2 * j] := v % 256;
      packet[offset + 2 * j + 1] := (v / 256) % 256;
      j := j + 1;
    }
  }

  lemma PacketLayout(packet: seq<byte>, audioHeader: string, audioBuffer: seq<int>)
    requires |packet| == |Utf16(audioHeader)| + 2 * |audioBuffer|
    requires packet[..|Utf16(audioHeader)|] == HeaderBytes(audioHeader)
    requires packet[|Utf16(audioHeader)|..|Utf16(audioHeader)| + 2 * |audioBuffer|] == LeBytes(audioBuffer)
    ensures packet == HeaderBytes(audioHeader) + LeBytes(audioBuffer)
  {
    assert packet == packet[..|Utf16(audioHeader)|] + packet[|Utf16(audioHeader)|..];
  }

  // ---------------------------------------------------------------------------
  // Splitting a received packet
  // ---------------------------------------------------------------------------

  /** Position of the first separator at or after `from`. */
  function FirstNewlineFrom(b: seq<byte>, from: nat): (r: Option<nat>)
    requires from <= |b|
    ensures r.Some? ==> (from <= r.value < |b| && b[r.value] == NEWLINE
                         && forall k :: from <= k < r.value ==> b[k] != NEWLINE)
    ensures r.None? ==> forall k :: from <= k < |b| ==> b[k] != NEWLINE
    decreases |b| - from
  {
    if from == |b| then None
    else if b[from] == NEWLINE then Some(from)
    else FirstNewlineFrom(b, from + 1)
  }

  /** Position of the last separator before `upTo`. */
  function LastNewlineBefore(b: seq<byte>, upTo: nat): (r: Option<nat>)
    requires upTo <= |b|
    ensures r.Some? ==> (r.value < upTo && b[r.value] == NEWLINE
                         && forall k :: r.value < k < upTo ==> b[k] != NEWLINE)
    ensures r.None? ==> forall k :: 0 <= k < upTo ==> b[k] != NEWLINE
  {
    if upTo == 0 then None
    else if b[upTo - 1] == NEWLINE then Some(upTo - 1)
    else LastNewlineBefore(b, upTo - 1)
  }

  /** What the browser decoder returns: the bytes after the first separator, or
      nothing when there is none. */
  function BrowserPayload(b: seq<byte>): seq<byte>
  {
    var i := FirstNewlineFrom(b, 0);
    if i.Some? then b[i.value + 1..] else []
  }

  /** The bytes the Node decoder reads samples from: those after the last separator,
      or the whole buffer when there is none (`slice(undefined + 1)` is `slice(0)`). */
  function NodePayload(b: seq<byte>): seq<byte>
  {
    var i := LastNewlineBefore(b, |b|);
    if i.Some? then b[i.value + 1..] else b
  }

  /** `splitAudioPacketBrowser`. */
  method SplitAudioPacketBrowser(buffer: seq<byte>) returns (packetAudio: seq<byte>)
    ensures packetAudio == BrowserPayload(buffer)
  {
    packetAudio := [];
    var i := 0;
    while i < |buffer|
      invariant 0 <= i <= |buffer|
      invariant FirstNewlineFrom(buffer, 0) == FirstNewlineFrom(buffer, i)
    {
      if buffer[i] == NEWLINE {
        packetAudio := buffer[i + 1..];
        break;
      }
      i := i + 1;
    }
  }

  /** `splitAudioPacket` (Node): copy the buffer remembering the last separator, then
      read the rest as int16 samples. */
  method SplitAudioPacket(buffer: seq<byte>) returns (packetAudio: Option<seq<int>>)
    ensures packetAudio == Int16Array(NodePayload(buffer))
  {
    var packetOffset: Option<nat> := None;
    var aView := new byte[|buffer|];
    var j := 0;
    while j < |buffer|
      invariant 0 <= j <= |buffer|
      invariant aView[..j] == buffer[..j]
      invariant packetOffset == LastNewlineBefore(buffer, j)
    {
      aView[j] := buffer[j];
      if buffer[j] == NEWLINE {
        packetOffset := Some(j);
      }
      j := j + 1;
    }
    assert aView[..] == buffer;
    var aBuff := if packetOffset.Some? then aView[packetOffset.value + 1..] else aView[..];
    packetAudio := Int16Array(aBuff);
  }

  /** The browser decoder recovers exactly the sample bytes from any packet whose
      header has no separator byte. */
  lemma BrowserSplitRoundTrip(header: string, payload: seq<byte>)
    requires NoNewlineByte(header)
    ensures BrowserPayload(HeaderBytes(header) + [NEWLINE] + payload) == payload
  {
    var b := HeaderBytes(header) + [NEWLINE] + payload;
    var h := |HeaderBytes(header)|;
    forall k | 0 <= k < h
      ensures b[k] != NEWLINE
    {
      assert b[k] == HeaderBytes(header)[k];
    }
    assert b[h] == NEWLINE;
    assert b[h + 1..] == payload;
  }

  /** A header line without separator bytes followed by samples: the browser
      decoder yields the sample bytes, and decoding those yields the samples. */
  lemma HeaderLineRoundTrip(header: string, samples: seq<int>)
    requires NoNewlineByte(header)
    ensures BrowserPayload(HeaderBytes(header + "\n") + LeBytes(samples)) == LeBytes(samples)
    ensures (forall k :: 0 <= k < |samples| ==> IsInt16(samples[k])) ==>
              Int16Array(BrowserPayload(HeaderBytes(header + "\n") + LeBytes(samples))) == Some(samples)
  {
    BrowserSplitRoundTrip(header, LeBytes(samples));
    HeaderBytesAppend(header, "\n");
    assert HeaderBytes(header + "\n") + LeBytes(samples) == HeaderBytes(header) + [NEWLINE] + LeBytes(samples);
    DecodeLeBytes(samples);
  }

  /** The Node decoder agrees with the browser one exactly when the sample bytes
      contain no separator; otherwise it reads only what follows the last one. */
  lemma NodeSplitAgreesIff(header: string, payload: seq<byte>)
    requires NoNewlineByte(header)
    ensures NodePayload(HeaderBytes(header) + [NEWLINE] + payload) == payload <==> NEWLINE !in payload
    ensures NEWLINE in payload ==> |NodePayload(HeaderBytes(header) + [NEWLINE] + payload)| < |payload|
  {
    var b := HeaderBytes(header) + [NEWLINE] + payload;
    var h := |HeaderBytes(header)|;
    var r := LastNewlineBefore(b, |b|);
    assert b[h] == NEWLINE;
    assert r.Some? && r.value >= h;
    if NEWLINE in payload {
      var k :| 0 <= k < |payload| && payload[k] == NEWLINE;
      assert b[h + 1 + k] == NEWLINE;
      assert r.value >= h + 1 + k;
    } else {
      assert b[h + 1..] == payload;
    }
  }

  /** One sample equal to 10 is enough for the two decoders to disagree: the Node
      decoder is left with one byte and throws. */
  lemma NodeSplitLosesSample()
    ensures LeBytes([10]) == [10, 0]
    ensures NodePayload(HeaderBytes("{}") + [NEWLINE] + LeBytes([10])) == [0]
    ensures Int16Array(NodePayload(HeaderBytes("{}") + [NEWLINE] + LeBytes([10]))) == None
    ensures BrowserPayload(HeaderBytes("{}") + [NEWLINE] + LeBytes([10])) == [10, 0]
  {
    var b := HeaderBytes("{}") + [NEWLINE] + LeBytes([10]);
    Utf16Bmp("{}");
    assert HeaderBytes("{}") == [123, 125];
    assert LeBytes([10]) == [10, 0];
    assert b == [123, 125, 10, 10, 0];
    assert LastNewlineBefore(b, 5) == Some(3);
    assert FirstNewlineFrom(b, 2) == Some(2);
    assert FirstNewlineFrom(b, 0) == Some(2);
  }

  // ---------------------------------------------------------------------------
  // Construction
  // ---------------------------------------------------------------------------

  /** The options the client reads. */
  datatype Options = Options(
    wsUrlBinary: Option<string>, account: Option<string>, room: Option<string>,
    participant: Option<string>, rate: Option<int>, reconnect: Option<bool>,
    reconnectAttempts: Option<int>)

  /** The errors the constructor throws. */
  datatype OptionsError = NoOptions | NoWebSocketUrl | NoAccount | NoRoom | NoParticipant | NoRate

  /** The first check the constructor fails, in the order it makes them. */
  function OptionsCheck(options: Option<Options>): (r: Option<OptionsError>)
    ensures r.None? <==> (options.Some? && TruthyString(options.value.wsUrlBinary)
                          && TruthyString(options.value.account) && TruthyString(options.value.room)
                          && TruthyString(options.value.participant) && TruthyInt(options.value.rate))
    ensures r == Some(NoRate) ==> (options.Some? && TruthyString(options.value.wsUrlBinary)
                                   && TruthyString(options.value.account) && TruthyString(options.value.room)
                                   && TruthyString(options.value.participant))
    ensures r == Some(NoParticipant) ==> (options.Some? && TruthyString(options.value.wsUrlBinary)
                                          && TruthyString(options.value.account) && TruthyString(options.value.room))
  {
    if options.None? then Some(NoOptions)
    else if !TruthyString(options.value.wsUrlBinary) then Some(NoWebSocketUrl)
    else if !TruthyString(options.value.account) then Some(NoAccount)
    else if !TruthyString(options.value.room) then Some(NoRoom)
    else if !TruthyString(options.value.participant) then Some(NoParticipant)
    else if !TruthyInt(options.value.rate) then Some(NoRate)
    else None
  }

  // ---------------------------------------------------------------------------
  // Connection state
  // ---------------------------------------------------------------------------

  /** Events the client emits. */
  datatype Event = Connected | ReconnectError | Closed | AudioMessage(audio: seq<byte>)

  /** The fields the socket callbacks drive. `hasSocket` is whether `_ws` is set;
      `pendingReconnects` counts `setTimeout(connect)` calls not yet fired. */
  datatype Session = Session(
    connected: bool, reconnecting: bool, reconnectAttempts: int, reconnect: bool,
    hasSocket: bool, pendingReconnects: nat, events: seq<Event>)

  /** `_open`. */
  function Opened(s: Session): Session
  {
    s.(connected := true, reconnecting := false, reconnectAttempts := RECONNECT_ATTEMPTS,
       events := s.events + [Connected])
  }

  /** `_closed`. */
  function ClosedBy(s: Session): Session
  {
    var s1 := s.(connected := false);
    if !s1.reconnect then s1
    else if s1.reconnecting then
      if s1.reconnectAttempts > 0 then
        s1.(reconnectAttempts := s1.reconnectAttempts - 1, hasSocket := false,
            pendingReconnects := s1.pendingReconnects + 1)
      else s1.(events := s1.events + [ReconnectError])
    else s1.(reconnecting := true, hasSocket := false, pendingReconnects := s1.pendingReconnects + 1)
  }

  /** `_error`. */
  function Errored(s: Session): Session
  {
    s.(connected := false)
  }

  /** A pending reconnect fires and `connect` opens a new socket. */
  function Reconnected(s: Session): Session
    requires s.pendingReconnects > 0
  {
    s.(pendingReconnects := s.pendingReconnects - 1, hasSocket := true)
  }

  /** `close`: reconnection is switched off first; `_ws.close()` then throws when the
      socket was dropped by `_closed`, so `closed` is emitted only when it exists. */
  function ClosedByUser(s: Session): Result<Session, Session>
  {
    var s1 := s.(reconnect := false);
    if !s1.hasSocket then Err(s1) else Ok(s1.(events := s1.events + [Closed]))
  }

  function Repeat(e: Event, n: nat): (r: seq<Event>)
    ensures |r| == n
    ensures forall i :: 0 <= i < n ==> r[i] == e
  {
    if n == 0 then [] else [e] + Repeat(e, n - 1)
  }

  /** `k` close notifications in a row, with no open in between. */
  function CloseMany(s: Session, k: nat): Session
    decreases k
  {
    if k == 0 then s else CloseMany(ClosedBy(s), k - 1)
  }

  function Min(a: int, b: int): int { if a <= b then a else b }
  function Max(a: int, b: int): int { if a <= b then b else a }

  /** While reconnecting with `m` attempts left, each close spends one attempt and
      schedules one reconnect; once none are left, each close reports an error. */
  lemma {:induction false} ReconnectingCloses(s: Session, k: nat)
    requires s.reconnect && s.reconnecting && s.reconnectAttempts >= 0
    decreases k
    ensures var t := CloseMany(s, k);
      && t.reconnecting
      && t.reconnectAttempts == Max(0, s.reconnectAttempts - k)
      && t.pendingReconnects == s.pendingReconnects + Min(k, s.reconnectAttempts)
      && t.events == s.events + Repeat(ReconnectError, Max(0, k - s.reconnectAttempts))
      && (k > 0 ==> !t.connected)
  {
    if k > 0 {
      var s1 := ClosedBy(s);
      ReconnectingCloses(s1, k - 1);
      if s.reconnectAttempts == 0 {
        assert Repeat(ReconnectError, Max(0, k - s.reconnectAttempts))
          == [ReconnectError] + Repeat(ReconnectError, Max(0, k - 1 - s1.reconnectAttempts));
      }
    }
  }

  /** From a connected session with `n` attempts, `k` closes schedule `min(k, n + 1)`
      reconnects (the first close is free) and report `max(0, k - n - 1)` errors. */
  lemma ReconnectBudget(s: Session, k: nat)
    requires s.reconnect && !s.reconnecting && s.reconnectAttempts >= 0
    ensures var t := CloseMany(s, k);
      && t.pendingReconnects == s.pendingReconnects + Min(k, s.reconnectAttempts + 1)
      && t.events == s.events + Repeat(ReconnectError, Max(0, k - s.reconnectAttempts - 1))
  {
    if k > 0 {
      ReconnectingCloses(ClosedBy(s), k - 1);
    }
  }

  /** A successful open restores the whole budget, whatever happened before. */
  lemma OpenRestoresBudget(s: Session, k: nat)
    requires s.reconnect
    ensures CloseMany(Opened(s), k).pendingReconnects == s.pendingReconnects + Min(k, RECONNECT_ATTEMPTS + 1)
  {
    ReconnectBudget(Opened(s), k);
  }

  /** Without reconnection, closes only clear `connected`. */
  lemma {:induction false} ClosesWithoutReconnect(s: Session, k: nat)
    requires !s.reconnect
    ensures CloseMany(s, k) == if k == 0 then s else s.(connected := false)
    decreases k
  {
    if k > 0 {
      ClosesWithoutReconnect(ClosedBy(s), k - 1);
    }
  }

  class AudioRouterClient {
    const wsUrlBinary: string
    const account: string
    const room: string
    const participant: string
    const rate: int

    var connected: bool
    var reconnecting: bool
    var reconnectAttempts: int
    var reconnect: bool
    var hasSocket: bool
    var pendingReconnects: nat
    var events: seq<Event>
    /** Packets handed to the socket. */
    var sent: seq<seq<byte>>

    function State(): Session
      reads this
    {
      Session(connected, reconnecting, reconnectAttempts, reconnect, hasSocket, pendingReconnects, events)
    }

    /** The body of the constructor after validation, ending with `connect()`. */
    constructor (options: Options)
      requires OptionsCheck(Some(options)).None?
      ensures wsUrlBinary == options.wsUrlBinary.value && account == options.account.value
      ensures room == options.room.value && participant == options.participant.value
      ensures rate == options.rate.value
      ensures reconnect == TruthyBool(options.reconnect)
      ensures reconnectAttempts == if TruthyInt(options.reconnectAttempts) then options.reconnectAttempts.value else RECONNECT_ATTEMPTS
      ensures !connected && !reconnecting && hasSocket && pendingReconnects == 0
      ensures events == [] && sent == []
    {
      wsUrlBinary := options.wsUrlBinary.value;
      account := options.account.value;
      room := options.room.value;
      participant := options.participant.value;
      rate := options.rate.value;
      // the default set when `options.reconnect` is undefined is overwritten at once
      reconnect := TruthyBool(options.reconnect);
      reconnectAttempts := if TruthyInt(options.reconnectAttempts) then options.reconnectAttempts.value else RECONNECT_ATTEMPTS;
      connected := false;
      reconnecting := false;
      hasSocket := true;
      pendingReconnects := 0;
      events := [];
      sent := [];
    }

    /** `new AudioRouterClient(options)`: throws the first failed check, else builds
        the client and connects. */
    static method Create(options: Option<Options>) returns (r: Result<AudioRouterClient, OptionsError>)
      ensures r.Err? <==> OptionsCheck(options).Some?
      ensures r.Err? ==> r.error == OptionsCheck(options).value
      ensures r.Ok? ==> (fresh(r.value) && r.value.reconnect == TruthyBool(options.value.reconnect)
                         && r.value.reconnectAttempts == (if TruthyInt(options.value.reconnectAttempts)
                                                          then options.value.reconnectAttempts.value else RECONNECT_ATTEMPTS)
                         && r.value.wsUrlBinary == options.value.wsUrlBinary.value
                         && r.value.account == options.value.account.value && r.value.room == options.value.room.value
                         && r.value.participant == options.value.participant.value && r.value.rate == options.value.rate.value
                         && r.value.State() == Session(false, false, r.value.reconnectAttempts, r.value.reconnect, true, 0, [])
                         && r.value.sent == [])
    {
      var check := OptionsCheck(options);
      if check.Some? {
        return Err(check.value);
      }
      var client := new AudioRouterClient(options.value);
      return Ok(client);
    }

    /** `createPacket`: header text and a newline as bytes, then the samples. */
    method CreatePacket(audioBuffer: seq<int>) returns (packet: seq<byte>)
      ensures |packet| == |Utf16(SerializeAudioHeader(account, room, participant, |audioBuffer|, rate))| + 1 + 2 * |audioBuffer|
      ensures packet == Packet(audioBuffer)
    {
      var audioHeader := SerializeAudioHeader(account, room, participant, |audioBuffer|, rate);
      Utf16Append(audioHeader, "\n");
      audioHeader := audioHeader + "\n";
      var headerUnits := |Utf16(audioHeader)|;
      var buf := new byte[headerUnits + 2 * |audioBuffer|];
      WriteHeader(buf, audioHeader);
      WriteSamples(buf, headerUnits, audioBuffer);
      packet := buf[..];
      PacketLayout(packet, audioHeader, audioBuffer);
    }

    /** The bytes `createPacket` produces for `audioBuffer`. */
    function Packet(audioBuffer: seq<int>): seq<byte>
    {
      HeaderBytes(SerializeAudioHeader(account, room, participant, |audioBuffer|, rate) + "\n") + LeBytes(audioBuffer)
    }

    /** A packet from this client is decoded by the browser decoder to its sample
        bytes, and those to its samples, provided the identifiers use one-byte
        characters and the samples are int16. */
    lemma PacketRoundTrip(audioBuffer: seq<int>)
      requires Latin1(account) && Latin1(room) && Latin1(participant)
      ensures BrowserPayload(Packet(audioBuffer)) == LeBytes(audioBuffer)
      ensures (forall k :: 0 <= k < |audioBuffer| ==> IsInt16(audioBuffer[k])) ==>
                Int16Array(BrowserPayload(Packet(audioBuffer))) == Some(audioBuffer)
    {
      HeaderNoNewline(account, room, participant, |audioBuffer|, rate);
      HeaderLineRoundTrip(SerializeAudioHeader(account, room, participant, |audioBuffer|, rate), audioBuffer);
    }

    /** `sendAudio`: the packet goes out only while connected. */
    method SendAudio(audioBuffer: seq<int>)
      modifies this`sent
      ensures connected ==> sent == old(sent) + [Packet(audioBuffer)]
      ensures !connected ==> sent == old(sent)
    {
      var packet := CreatePacket(audioBuffer);
      if connected {
        sent := sent + [packet];
      }
    }

    /** The browser `onmessage` handler: strip the header and emit the sample bytes. */
    method OnMessage(data: seq<byte>)
      modifies this`events
      ensures events == old(events) + [AudioMessage(BrowserPayload(data))]
    {
      var audio := SplitAudioPacketBrowser(data);
      events := events + [AudioMessage(audio)];
    }

    method Open()
      modifies this`connected, this`reconnecting, this`reconnectAttempts, this`events
      ensures State() == Opened(old(State()))
    {
      connected := true;
      reconnecting := false;
      reconnectAttempts := RECONNECT_ATTEMPTS;
      events := events + [Connected];
    }

    method OnClosed()
      modifies this`connected, this`reconnecting, this`reconnectAttempts, this`hasSocket,
        this`pendingReconnects, this`events
      ensures State() == ClosedBy(old(State()))
    {
      connected := false;
      if reconnect {
        if reconnecting {
          if reconnectAttempts > 0 {
            reconnectAttempts := reconnectAttempts - 1;
            hasSocket := false;
            pendingReconnects := pendingReconnects + 1;
          } else {
            events := events + [ReconnectError];
          }
        } else {
          reconnecting := true;
          hasSocket := false;
          pendingReconnects := pendingReconnects + 1;
        }
      }
    }

    method OnError()
      modifies this`connected
      ensures State() == Errored(old(State()))
    {
      connected := false;
    }

    /** A scheduled reconnect fires. */
    method OnReconnectTimer()
      requires pendingReconnects > 0
      modifies this`pendingReconnects, this`hasSocket
      ensures State() == Reconnected(old(State()))
    {
      pendingReconnects := pendingReconnects - 1;
      hasSocket := true;
    }

    /** `close`; `threw` is whether `_ws.close()` threw. */
    method Close() returns (threw: bool)
      modifies this`reconnect, this`events
      ensures ClosedByUser(old(State())) == if threw then Err(State()) else Ok(State())
    {
      reconnect := false;
      if !hasSocket {
        return true;
      }
      events := events + [Closed];
      return false;
    }
  }
}
