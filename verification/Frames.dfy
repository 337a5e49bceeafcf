/** Frames and their validation (frame.go). */
module Frames {
  import opened Common

  const HEADER_SIZE := 28
  const DEFAULT_MAX_FRAME_BYTES := 4 * 1024 * 1024
  const FLAG_REQUEST: U32 := 1
  const FLAG_RESPONSE: U32 := 2
  const FLAG_EVENT: U32 := 4

  datatype Header = Header(
    payloadLength: U32,
    version: U16,
    messageType: U16,
    flags: U32,
    correlationId: U64,
    streamId: U64)

  datatype Frame = Frame(header: Header, payload: seq<Byte>)

  /** `accepts` stands for the application's Validate callback; a nil callback accepts everything. */
  datatype Config = Config(
    minVersion: U16,
    maxVersion: U16,
    maxFrameBytes: int,
    writeQueue: int,
    accepts: Frame -> bool)

  datatype FrameError =
    | FrameTooLarge
    | InvalidFrameLength
    | UnsupportedVersion
    | InvalidMessageType
    | InvalidFlags
    | InvalidCorrelation
    | RejectedByApplication

  predicate Complete(c: Config) {
    1 <= c.minVersion && 1 <= c.maxVersion && 1 <= c.maxFrameBytes && 0 <= c.writeQueue
  }

  /** Unset fields get a value and set ones keep theirs; without a maximum only the minimum version is spoken. */
  function WithDefaults(c: Config): (r: Config)
    ensures Complete(r) && (Complete(c) ==> r == c)
    ensures (c.minVersion != 0 ==> r.minVersion == c.minVersion) && (c.minVersion == 0 ==> r.minVersion == 1)
    ensures (c.maxVersion != 0 ==> r.maxVersion == c.maxVersion) && (c.maxVersion == 0 ==> r.maxVersion == r.minVersion)
    ensures (c.maxFrameBytes > 0 ==> r.maxFrameBytes == c.maxFrameBytes)
    ensures (c.maxFrameBytes <= 0 ==> r.maxFrameBytes == DEFAULT_MAX_FRAME_BYTES)
    ensures (c.writeQueue >= 0 ==> r.writeQueue == c.writeQueue) && (c.writeQueue < 0 ==> r.writeQueue == 0)
    ensures r.accepts == c.accepts
  {
    var min: U16 := if c.minVersion == 0 then 1 else c.minVersion;
    var max: U16 := if c.maxVersion == 0 then min else c.maxVersion;
    Config(min, max, if c.maxFrameBytes <= 0 then DEFAULT_MAX_FRAME_BYTES else c.maxFrameBytes,
           if c.writeQueue < 0 then 0 else c.writeQueue, c.accepts)
  }

  /** Whether the single-bit mask `bit` is set in `flags`. */
  predicate HasFlag(flags: U32, bit: U32)
    requires bit != 0
  {
    flags / bit % 2 == 1
  }

  function Bit(flags: U32, bit: U32): nat
    requires bit != 0
  {
    if HasFlag(flags, bit) then 1 else 0
  }

  /** How many of the three message kinds the flag word claims. */
  function KindCount(flags: U32): nat {
    Bit(flags, FLAG_REQUEST) + Bit(flags, FLAG_RESPONSE) + Bit(flags, FLAG_EVENT)
  }

  method ClassCount(flags: U32) returns (count: nat)
    ensures count == KindCount(flags)
  {
    var kinds: array<U32> := new U32[] [FLAG_REQUEST, FLAG_RESPONSE, FLAG_EVENT];
    count := 0;
    for i := 0 to kinds.Length
      invariant count == (if i > 0 then Bit(flags, FLAG_REQUEST) else 0)
                       + (if i > 1 then Bit(flags, FLAG_RESPONSE) else 0)
                       + (if i > 2 then Bit(flags, FLAG_EVENT) else 0)
    {
      if HasFlag(flags, kinds[i]) {
        count := count + 1;
      }
    }
  }

  /** The header checks, in the order the source makes them; `c` already carries its defaults. */
  function CheckHeader(h: Header, c: Config): Option<FrameError> {
    if h.payloadLength > c.maxFrameBytes then Some(FrameTooLarge)
    else if h.version < c.minVersion || h.version > c.maxVersion then Some(UnsupportedVersion)
    else if h.messageType == 0 then Some(InvalidMessageType)
    else if h.flags >= 8 || KindCount(h.flags) != 1 then Some(InvalidFlags)
    else if (HasFlag(h.flags, FLAG_REQUEST) || HasFlag(h.flags, FLAG_RESPONSE)) && h.correlationId == 0 then
      Some(InvalidCorrelation)
    else if h.flags == FLAG_EVENT && h.correlationId != 0 then Some(InvalidCorrelation)
    else None
  }

  function Check(f: Frame, config: Config): Option<FrameError> {
    var c := WithDefaults(config);
    if |f.payload| > c.maxFrameBytes || |f.payload| >= 0x1_0000_0000 then Some(FrameTooLarge)
    else if CheckHeader(f.header, c).Some? then CheckHeader(f.header, c)
    else if |f.payload| % 0x1_0000_0000 != f.header.payloadLength then Some(InvalidFrameLength)
    else if !c.accepts(f) then Some(RejectedByApplication)
    else None
  }

  /** What a well-formed header is, independently of the order of the checks. */
  ghost predicate WellFormedHeader(h: Header, c: Config) {
    && h.payloadLength <= c.maxFrameBytes
    && c.minVersion <= h.version <= c.maxVersion
    && h.messageType != 0
    && h.flags in {FLAG_REQUEST, FLAG_RESPONSE, FLAG_EVENT}
    && (h.flags == FLAG_EVENT <==> h.correlationId == 0)
  }

  ghost predicate Acceptable(f: Frame, config: Config) {
    var c := WithDefaults(config);
    && |f.payload| == f.header.payloadLength
    && WellFormedHeader(f.header, c)
    && c.accepts(f)
  }

  lemma OneKindExactly(flags: U32)
    ensures (flags < 8 && KindCount(flags) == 1) <==> flags in {FLAG_REQUEST, FLAG_RESPONSE, FLAG_EVENT}
  {
    if flags < 8 {
      assert flags in {0, 1, 2, 3, 4, 5, 6, 7};
    }
  }

  lemma HeaderAcceptedExactly(h: Header, c: Config)
    ensures CheckHeader(h, c) == None <==> WellFormedHeader(h, c)
  {
    OneKindExactly(h.flags);
  }

  /** The ordered checks accept a frame exactly when it is well formed. */
  lemma AcceptedExactly(f: Frame, config: Config)
    ensures Check(f, config) == None <==> Acceptable(f, config)
  {
    HeaderAcceptedExactly(f.header, WithDefaults(config));
  }

  /** Which error a malformed header gets: the first failing test in the order of the source. */
  lemma HeaderErrorExactly(h: Header, c: Config)
    ensures
      var e := CheckHeader(h, c);
      var large := h.payloadLength > c.maxFrameBytes;
      var spoken := c.minVersion <= h.version <= c.maxVersion;
      var single := h.flags in {1, 2, 4};
      var correlated := if h.flags == 4 then h.correlationId == 0 else h.correlationId != 0;
      && (e == Some(FrameTooLarge) <==> large)
      && (e == Some(UnsupportedVersion) <==> !large && !spoken)
      && (e == Some(InvalidMessageType) <==> !large && spoken && h.messageType == 0)
      && (e == Some(InvalidFlags) <==> !large && spoken && h.messageType != 0 && !single)
      && (e == Some(InvalidCorrelation) <==> !large && spoken && h.messageType != 0 && single && !correlated)
      && (e == None <==> !large && spoken && h.messageType != 0 && single && correlated)
  {
    OneKindExactly(h.flags);
  }

  /** And a malformed frame: its size, its header, its length field, the application, in this order. */
  lemma FrameErrorExactly(f: Frame, config: Config)
    ensures
      var c, e := WithDefaults(config), Check(f, config);
      var large := |f.payload| > c.maxFrameBytes || |f.payload| > 0xFFFF_FFFF;
      var header := CheckHeader(f.header, c);
      && (large ==> e == Some(FrameTooLarge))
      && (!large && header.Some? ==> e == header)
      && (!large && header == None && |f.payload| != f.header.payloadLength ==> e == Some(InvalidFrameLength))
      && (!large && header == None && |f.payload| == f.header.payloadLength ==>
            e == if config.accepts(f) then None else Some(RejectedByApplication))
  {
    hide CheckHeader;
  }
}
