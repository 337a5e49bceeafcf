/** The connection's single write loop and its first-error field (conn.go, writeLoop and setError). */
module Connection {
  import opened Common
  import opened Frames
  import opened Codec

  datatype ConnError = Canceled | WriteFailed(result: WriteResult)

  function StampedAll(frames: seq<Frame>): seq<Frame> {
    if |frames| == 0 then [] else StampedAll(frames[..|frames| - 1]) + [Stamped(frames[|frames| - 1])]
  }

  /** The bytes of these frames, in order. */
  function BytesOf(frames: seq<Frame>): seq<Byte> {
    EncodeAll(StampedAll(frames))
  }

  lemma BytesOfNext(frames: seq<Frame>, k: nat)
    requires k < |frames|
    ensures BytesOf(frames[..k + 1]) == BytesOf(frames[..k]) + Encode(Stamped(frames[k]))
  {
    hide EncodeAll, Encode;
    assert frames[..k + 1][..k] == frames[..k];
    EncodeAllAppend(StampedAll(frames[..k]), Stamped(frames[k]));
  }

  /** After `results` for the first frames of `writes`, the transport has taken these bytes and no others. */
  ghost predicate OnWire(before: seq<Byte>, sent: seq<Byte>, writes: seq<Frame>, results: seq<WriteResult>) {
    && |results| <= |writes|
    && (forall i :: 0 <= i < |results| - 1 ==> results[i] == Written)
    && var k := |results|;
       if k == 0 || results[k - 1] == Written then sent == before + BytesOf(writes[..k])
       else before + BytesOf(writes[..k - 1]) <= sent <= before + BytesOf(writes[..k])
  }

  class Conn {
    const encoder: Encoder
    var err: Option<ConnError>

    constructor (config: Config)
      ensures fresh(encoder) && encoder.config == config && encoder.sent == [] && err == None
    {
      encoder := new Encoder(config);
      err := None;
    }

    method SetError(e: ConnError)
      modifies this
      ensures err == if old(err).Some? then old(err) else Some(e)
    {
      if err.None? {
        err := Some(e);
      }
    }

    /**
     * The loop over the requests that arrive, until the context is canceled or a write fails. Every request but the
     * last is answered as written, the bytes are those frames in order, and a failed one leaves a prefix of itself.
     */
    method WriteLoop(writes: seq<Frame>) returns (results: seq<WriteResult>)
      modifies this, encoder
      ensures OnWire(old(encoder.sent), encoder.sent, writes, results)
      ensures old(err).Some? ==> err == old(err)
      ensures |results| < |writes| ==> err.Some?
      ensures |results| > 0 && results[|results| - 1] != Written ==> err.Some?
      ensures old(err).None? && err.Some? && err.value.WriteFailed? ==>
        |results| > 0 && err.value.result == results[|results| - 1] != Written
    {
      hide BytesOf, Encode, EncodeAll, Stamped, Acceptable, Check;
      results := [];
      NoBytesOf();
      ghost var before := encoder.sent;
      while |results| < |writes|
        invariant |results| <= |writes|
        invariant forall i :: 0 <= i < |results| ==> results[i] == Written
        invariant encoder.sent == before + BytesOf(writes[..|results|])
        invariant err == old(err)
        decreases |writes| - |results|
      {
        var canceled := *;
        if canceled {
          SetError(Canceled);
          return;
        }
        var k := |results|;
        var r := encoder.WriteFrame(writes[k]);
        results := results + [r];
        BytesOfNext(writes, k);
        assert before + (BytesOf(writes[..k]) + Encode(Stamped(writes[k])))
            == before + BytesOf(writes[..k]) + Encode(Stamped(writes[k]));
        if r != Written {
          SetError(WriteFailed(r));
          return;
        }
      }
    }
  }

  lemma NoBytesOf()
    ensures BytesOf([]) == []
  {
  }
}
