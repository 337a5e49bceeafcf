/** The 28-byte header codec, frame reading and writing (codec.go). */
module Codec {
  import opened Common
  import opened Frames

  // ----- Network byte order -------------------------------------------------

  function Pow256(n: nat): (p: nat)
    ensures p >= 1
  {
    if n == 0 then 1 else 256 * Pow256(n - 1)
  }

  function PutBE(width: nat, v: nat): (s: seq<Byte>)
    ensures |s| == width
  {
    if width == 0 then [] else PutBE(width - 1, v / 256) + [v % 256]
  }

  function GetBE(s: seq<Byte>): (v: nat)
    ensures v < Pow256(|s|)
  {
    if |s| == 0 then 0 else GetBE(s[..|s| - 1]) * 256 + s[|s| - 1]
  }

  lemma PowValues()
    ensures Pow256(2) == 0x1_0000 && Pow256(4) == 0x1_0000_0000 && Pow256(8) == TWO64
  {
    assert Pow256(3) == 0x100_0000;
    assert Pow256(5) == 0x100_0000_0000;
    assert Pow256(6) == 0x1_0000_0000_0000;
  }

  lemma {:induction false} GetPut(width: nat, v: nat)
    requires v < Pow256(width)
    ensures GetBE(PutBE(width, v)) == v
  {
    if width > 0 {
      GetPut(width - 1, v / 256);
      DropLast(PutBE(width - 1, v / 256), v % 256);
    }
  }

  lemma {:induction false} PutGet(s: seq<Byte>)
    ensures PutBE(|s|, GetBE(s)) == s
  {
    hide Pow256;
    if |s| > 0 {
      var init, last := s[..|s| - 1], s[|s| - 1];
      PutGet(init);
      var g := GetBE(init);
      assert GetBE(s) == g * 256 + last;
      assert (g * 256 + last) / 256 == g && (g * 256 + last) % 256 == last;
      assert s == init + [last];
    }
  }

  lemma PowSteps(n: nat)
    ensures Pow256(0) == 1 && Pow256(n + 1) == 256 * Pow256(n)
  {
  }

  /** Network byte order: the first byte is the most significant one. */
  lemma {:induction false} FirstByteWeighsMost(s: seq<Byte>)
    requires |s| > 0
    ensures GetBE(s) == s[0] * Pow256(|s| - 1) + GetBE(s[1..])
    ensures Pow256(0) == 1 && Pow256(|s|) == 256 * Pow256(|s| - 1) && GetBE([]) == 0
  {
    hide Pow256, GetBE;
    var n := |s| - 1;
    var init := s[..n];
    PowSteps(n);
    GetStep(s);
    if n > 0 {
      PowSteps(n - 1);
      FirstByteWeighsMost(init);
      GetStep(s[1..]);
      assert init[1..] == s[1..][..n - 1];
      Shifted(s[0], Pow256(n - 1), Pow256(n));
    } else {
      assert init == [] && s[1..] == [];
    }
  }

  lemma GetStep(s: seq<Byte>)
    ensures GetBE([]) == 0 && (|s| > 0 ==> GetBE(s) == GetBE(s[..|s| - 1]) * 256 + s[|s| - 1])
  {
  }

  lemma Shifted(a: nat, p: nat, q: nat)
    requires q == 256 * p
    ensures a * p * 256 == a * q
  {
  }

  /** Fills `target[start..start + width]` with `v`, least significant byte last. */
  method PutUint(target: array<Byte>, start: nat, width: nat, v: nat)
    requires start + width <= target.Length
    modifies target
    ensures target[start..start + width] == PutBE(width, v)
    ensures target[..start] == old(target[..start])
    ensures target[start + width..] == old(target[start + width..])
  {
    if width > 0 {
      target[start + width - 1] := v % 256;
      PutUint(target, start, width - 1, v / 256);
      assert target[start + width - 1..][0] == v % 256;
      assert target[start..start + width] == target[start..start + width - 1] + [target[start + width - 1]];
      assert target[start + width..] == target[start + width - 1..][1..];
    }
  }

  // ----- Headers ------------------------------------------------------------

  function HeaderBytes(h: Header): (s: seq<Byte>)
    ensures |s| == HEADER_SIZE
  {
    PutBE(4, h.payloadLength) + PutBE(2, h.version) + PutBE(2, h.messageType)
    + PutBE(4, h.flags) + PutBE(8, h.correlationId) + PutBE(8, h.streamId)
  }

  function DecodeHeader(s: seq<Byte>): Header
    requires |s| == HEADER_SIZE
  {
    PowValues();
    Header(GetBE(s[0..4]), GetBE(s[4..6]), GetBE(s[6..8]), GetBE(s[8..12]), GetBE(s[12..20]), GetBE(s[20..28]))
  }

  method EncodeHeader(h: Header, target: array<Byte>)
    requires target.Length == HEADER_SIZE
    modifies target
    ensures target[..] == HeaderBytes(h)
  {
    hide PutBE;
    PutNext(target, 0, 4, h.payloadLength);
    assert target[..4] == PutBE(4, h.payloadLength);
    PutNext(target, 4, 2, h.version);
    PutNext(target, 6, 2, h.messageType);
    PutNext(target, 8, 4, h.flags);
    PutNext(target, 12, 8, h.correlationId);
    PutNext(target, 20, 8, h.streamId);
    assert target[..] == target[..28];
  }

  /** One field more behind those already written. */
  method PutNext(target: array<Byte>, start: nat, width: nat, v: nat)
    requires start + width <= target.Length
    modifies target
    ensures target[..start + width] == old(target[..start]) + PutBE(width, v)
  {
    hide PutBE;
    PutUint(target, start, width, v);
    assert target[..start + width] == target[..start] + target[start..start + width];
  }

  lemma HeaderFields(h: Header)
    ensures HeaderBytes(h)[0..4] == PutBE(4, h.payloadLength)
    ensures HeaderBytes(h)[4..6] == PutBE(2, h.version)
    ensures HeaderBytes(h)[6..8] == PutBE(2, h.messageType)
    ensures HeaderBytes(h)[8..12] == PutBE(4, h.flags)
    ensures HeaderBytes(h)[12..20] == PutBE(8, h.correlationId)
    ensures HeaderBytes(h)[20..28] == PutBE(8, h.streamId)
  {
  }

  lemma DecodeEncodeHeader(h: Header)
    ensures DecodeHeader(HeaderBytes(h)) == h
  {
    PowValues();
    HeaderFields(h);
    GetPut(4, h.payloadLength);
    GetPut(2, h.version);
    GetPut(2, h.messageType);
    GetPut(4, h.flags);
    GetPut(8, h.correlationId);
    GetPut(8, h.streamId);
  }

  lemma EncodeDecodeHeader(s: seq<Byte>)
    requires |s| == HEADER_SIZE
    ensures HeaderBytes(DecodeHeader(s)) == s
  {
    PutGet(s[0..4]);
    PutGet(s[4..6]);
    PutGet(s[6..8]);
    PutGet(s[8..12]);
    PutGet(s[12..20]);
    PutGet(s[20..28]);
    assert s == s[0..4] + s[4..6] + s[6..8] + s[8..12] + s[12..20] + s[20..28];
  }

  // ----- Frames on a byte stream ---------------------------------------------

  function Encode(f: Frame): (s: seq<Byte>)
    ensures |s| == HEADER_SIZE + |f.payload|
  {
    HeaderBytes(f.header) + f.payload
  }

  datatype ReadError = EndOfStream | UnexpectedEnd | Malformed(error: FrameError)
  datatype ReadResult = Got(frame: Frame, rest: seq<Byte>) | Failed(error: ReadError)

  /** One ReadFrame call on a stream that holds exactly `input` before it ends. */
  function ReadFrom(config: Config, input: seq<Byte>): ReadResult {
    if |input| == 0 then Failed(EndOfStream)
    else if |input| < HEADER_SIZE then Failed(UnexpectedEnd)
    else
      var h := DecodeHeader(input[..HEADER_SIZE]);
      var body := input[HEADER_SIZE..];
      match CheckHeader(h, WithDefaults(config))
      case Some(e) => Failed(Malformed(e))
      case None =>
        if |body| < h.payloadLength then Failed(UnexpectedEnd)
        else
          var f := Frame(h, body[..h.payloadLength]);
          match Check(f, config)
          case Some(e) => Failed(Malformed(e))
          case None => Got(f, body[h.payloadLength..])
  }

  lemma SizedIfAcceptable(f: Frame, config: Config)
    ensures Acceptable(f, config) ==> f.header.payloadLength == |f.payload|
    ensures Acceptable(f, config) ==> WellFormedHeader(f.header, WithDefaults(config))
  {
  }

  /** Reading is the exact inverse of writing: on accepted frames, on nothing else, and on every input. */
  lemma ReadInvertsEncode(config: Config, input: seq<Byte>, f: Frame, rest: seq<Byte>)
    ensures ReadFrom(config, input) == Got(f, rest) <==> Acceptable(f, config) && input == Encode(f) + rest
  {
    hide HeaderBytes, DecodeHeader, CheckHeader, Check, Acceptable, WellFormedHeader, WithDefaults;
    SizedIfAcceptable(f, config);
    if ReadFrom(config, input) == Got(f, rest) {
      AcceptedExactly(f, config);
      EncodeDecodeHeader(input[..HEADER_SIZE]);
      assert input == input[..HEADER_SIZE] + input[HEADER_SIZE..];
      assert input == Encode(f) + rest;
    }
    if Acceptable(f, config) && input == Encode(f) + rest {
      AcceptedExactly(f, config);
      HeaderAcceptedExactly(f.header, WithDefaults(config));
      assert input[..HEADER_SIZE] == HeaderBytes(f.header);
      DecodeEncodeHeader(f.header);
      assert input[HEADER_SIZE..] == f.payload + rest;
    }
  }

  /** Why ReadFrame fails: nothing left, cut short, or malformed, the header being judged before the payload is read. */
  lemma ReadFailsExactly(config: Config, input: seq<Byte>)
    ensures
      var r := ReadFrom(config, input);
      && (r == Failed(EndOfStream) <==> input == [])
      && (0 < |input| < 28 ==> r == Failed(UnexpectedEnd))
      && (|input| >= 28 ==>
            var h := DecodeHeader(input[..28]);
            var e := CheckHeader(h, WithDefaults(config));
            if e.Some? then r == Failed(Malformed(e.value))
            else if |input| < 28 + h.payloadLength then r == Failed(UnexpectedEnd)
            else
              var f := Frame(h, input[28..28 + h.payloadLength]);
              match Check(f, config)
              case Some(bad) => r == Failed(Malformed(bad))
              case None => r == Got(f, input[28 + h.payloadLength..]))
  {
    hide DecodeHeader, CheckHeader, Check;
    if |input| >= 28 && |input| >= 28 + DecodeHeader(input[..28]).payloadLength {
      var n := DecodeHeader(input[..28]).payloadLength;
      assert input[28..][..n] == input[28..28 + n] && input[28..][n..] == input[28 + n..];
    }
  }

  /** A stream cut anywhere inside an accepted frame reports an unexpected end, never a frame and never a clean end. */
  lemma CutFrameIsUnexpectedEnd(config: Config, f: Frame, n: nat)
    requires Acceptable(f, config) && 0 < n < |Encode(f)|
    ensures ReadFrom(config, Encode(f)[..n]) == Failed(UnexpectedEnd)
  {
    hide HeaderBytes, CheckHeader;
    if n >= HEADER_SIZE {
      HeaderAcceptedExactly(f.header, WithDefaults(config));
      assert Encode(f)[..n][..HEADER_SIZE] == HeaderBytes(f.header);
      DecodeEncodeHeader(f.header);
    }
  }

  /** A frame whose header states its payload's length. */
  predicate Sized(f: Frame) {
    f.header.payloadLength == |f.payload|
  }

  function EncodeAll(frames: seq<Frame>): seq<Byte> {
    if |frames| == 0 then [] else Encode(frames[0]) + EncodeAll(frames[1..])
  }

  lemma {:induction false} EncodeAllAppend(frames: seq<Frame>, f: Frame)
    ensures EncodeAll(frames + [f]) == EncodeAll(frames) + Encode(f)
  {
    if |frames| == 0 {
      assert frames + [f] == [f];
    } else {
      EncodeAllAppend(frames[1..], f);
      assert (frames + [f])[1..] == frames[1..] + [f];
      assert EncodeAll(frames + [f]) == Encode(frames[0]) + (EncodeAll(frames[1..]) + Encode(f));
    }
  }

  /** Two sized encodings that overlap on at least a header are the same frame. */
  lemma PrefixFree(f: Frame, g: Frame, a: seq<Byte>, b: seq<Byte>)
    requires Sized(f) && Sized(g)
    requires Encode(f) + a == Encode(g) + b
    ensures f == g && a == b
  {
    hide HeaderBytes;
    var s := Encode(f) + a;
    assert s[..HEADER_SIZE] == HeaderBytes(f.header) == HeaderBytes(g.header);
    DecodeEncodeHeader(f.header);
    DecodeEncodeHeader(g.header);
    assert s[HEADER_SIZE..] == f.payload + a == g.payload + b;
    assert f.payload == s[HEADER_SIZE..][..|f.payload|] == g.payload;
    assert a == s[HEADER_SIZE..][|f.payload|..] == b;
  }

  /**
   * Framing survives any split of the byte stream: frames read off a stream that carries the encodings of
   * `written` followed by some part of one more frame are a prefix of what was written, and never include
   * a frame whose bytes are not all there.
   */
  lemma {:induction false} ReadIsPrefixOfWritten(
      read: seq<Frame>, transit: seq<Byte>, written: seq<Frame>, current: Frame, n: nat)
    requires (forall f :: f in read ==> Sized(f)) && (forall f :: f in written ==> Sized(f)) && Sized(current)
    requires n <= |Encode(current)|
    requires EncodeAll(read) + transit == EncodeAll(written) + Encode(current)[..n]
    ensures read <= written + [current]
    ensures n < |Encode(current)| ==> read <= written
  {
    hide Encode;
    if |read| == 0 {
    } else if |written| == 0 {
      var p := Encode(current)[..n];
      assert EncodeAll(written) + p == p;
      assert p == Encode(read[0]) + (EncodeAll(read[1..]) + transit);
      assert Encode(current) == Encode(read[0]) + (EncodeAll(read[1..]) + transit + Encode(current)[n..]);
      assert Encode(current) + [] == Encode(current);
      PrefixFree(current, read[0], [], EncodeAll(read[1..]) + transit + Encode(current)[n..]);
      assert |EncodeAll(read[1..])| == 0;
      assert read[1..] == [];
      assert |p| >= |Encode(current)|;
      assert read == [current];
    } else {
      assert EncodeAll(read) + transit == Encode(read[0]) + (EncodeAll(read[1..]) + transit);
      assert EncodeAll(written) + Encode(current)[..n]
          == Encode(written[0]) + (EncodeAll(written[1..]) + Encode(current)[..n]);
      PrefixFree(read[0], written[0],
                 EncodeAll(read[1..]) + transit, EncodeAll(written[1..]) + Encode(current)[..n]);
      ReadIsPrefixOfWritten(read[1..], transit, written[1..], current, n);
      assert read == [read[0]] + read[1..];
      assert written + [current] == [written[0]] + (written[1..] + [current]);
    }
  }

  // ----- The reader and the writer -------------------------------------------

  /** A Decoder over a stream whose unread bytes are `unread`. */
  class Decoder {
    const config: Config
    var unread: seq<Byte>

    constructor (config: Config, bytes: seq<Byte>)
      ensures this.config == config && unread == bytes
    {
      this.config := config;
      unread := bytes;
    }

    /** io.ReadFull: all `n` bytes, or whatever was left together with the error. */
    method ReadFull(n: nat) returns (bytes: seq<Byte>, end: Option<ReadError>)
      modifies this
      ensures end.None? <==> n <= |old(unread)|
      ensures old(unread) == bytes + unread
      ensures end.None? ==> |bytes| == n
      ensures end.Some? ==> unread == [] && end.value == if bytes == [] then EndOfStream else UnexpectedEnd
    {
      if n <= |unread| {
        bytes, end := unread[..n], None;
        unread := unread[n..];
      } else {
        bytes, end := unread, Some(if unread == [] then EndOfStream else UnexpectedEnd);
        unread := [];
      }
    }

    method ReadFrame() returns (r: ReadResult)
      modifies this
      ensures r == ReadFrom(config, old(unread))
      ensures r.Got? ==> unread == r.rest
      ensures r.Failed? && !r.error.Malformed? ==> unread == []
      ensures exists k | 0 <= k <= |old(unread)| :: unread == old(unread)[k..]
    {
      ghost var input := unread;
      var head, end := ReadFull(HEADER_SIZE);
      assert unread == input[|head|..];
      if end.Some? {
        return Failed(end.value);
      }
      assert head == input[..HEADER_SIZE];
      var h := DecodeHeader(head);
      var bad := CheckHeader(h, WithDefaults(config));
      if bad.Some? {
        return Failed(Malformed(bad.value));
      }
      var payload;
      payload, end := ReadFull(h.payloadLength);
      assert unread == input[HEADER_SIZE + |payload|..];
      if end.Some? {
        return Failed(UnexpectedEnd);
      }
      var f := Frame(h, payload);
      assert payload == input[HEADER_SIZE..][..h.payloadLength];
      bad := Check(f, config);
      if bad.Some? {
        return Failed(Malformed(bad.value));
      }
      return Got(f, unread);
    }
  }

  /** A frame with its length field set from its payload, as WriteFrame sends it. */
  function Stamped(f: Frame): Frame {
    f.(header := f.header.(payloadLength := |f.payload| % 0x1_0000_0000))
  }

  /** Only the length field changes, and it is the payload's length whenever a 32-bit field can hold that. */
  lemma StampedExactly(f: Frame, config: Config)
    ensures Stamped(f).payload == f.payload
    ensures Stamped(f) == f.(header := f.header.(payloadLength := Stamped(f).header.payloadLength))
    ensures |f.payload| <= 0xFFFF_FFFF ==> Stamped(f).header.payloadLength == |f.payload|
    ensures |f.payload| > 0xFFFF_FFFF ==> !Acceptable(Stamped(f), config)
    ensures Acceptable(f, config) ==> Stamped(f) == f
  {
  }

  datatype WriteResult = Written | Refused(error: FrameError) | Broken

  /** An Encoder whose transport has taken exactly the bytes in `sent`. */
  class Encoder {
    const config: Config
    var sent: seq<Byte>

    constructor (config: Config)
      ensures this.config == config && sent == []
    {
      this.config := config;
      sent := [];
    }

    /** The transport: any count, valid or not, and any error; a valid count is what it took. */
    method Write(data: seq<Byte>) returns (n: int, failed: bool)
      modifies this
      ensures 0 <= n <= |data| ==> sent == old(sent) + data[..n]
      ensures old(sent) <= sent <= old(sent) + data
    {
      n, failed := *, *;
      if 0 <= n <= |data| {
        sent := sent + data[..n];
      } else {
        var k :| 0 <= k <= |data|;
        sent := sent + data[..k];
      }
    }

    /** Retries partial writes until all of `data` is out, an error is seen, or no progress is made. */
    method WriteFull(data: seq<Byte>) returns (ok: bool)
      modifies this
      ensures ok ==> sent == old(sent) + data
      ensures old(sent) <= sent <= old(sent) + data
    {
      var written := 0;
      while written < |data|
        invariant 0 <= written <= |data|
        invariant sent == old(sent) + data[..written]
      {
        var n, failed := Write(data[written..]);
        assert old(sent) + data[..written] + data[written..] == old(sent) + data;
        if n < 0 || n > |data| - written {
          return false;
        }
        assert data[..written + n] == data[..written] + data[written..][..n];
        written := written + n;
        if failed || n == 0 {
          return false;
        }
      }
      return true;
    }

    method WriteFrame(frame: Frame) returns (r: WriteResult)
      modifies this
      ensures
        var f := Stamped(frame);
        && (r.Refused? <==> !Acceptable(f, config))
        && (r.Refused? ==> sent == old(sent))
        && (r.Written? ==> sent == old(sent) + Encode(f))
        && old(sent) <= sent <= old(sent) + Encode(f)
    {
      var f := Stamped(frame);
      AcceptedExactly(f, config);
      var bad := Check(f, config);
      if bad.Some? {
        return Refused(bad.value);
      }
      var header := new Byte[HEADER_SIZE];
      EncodeHeader(f.header, header);
      ghost var before := sent;
      var ok := WriteFull(header[..]);
      assert before + Encode(f) == before + HeaderBytes(f.header) + f.payload;
      if !ok {
        return Broken;
      }
      ok := WriteFull(f.payload);
      return if ok then Written else Broken;
    }
  }
}
