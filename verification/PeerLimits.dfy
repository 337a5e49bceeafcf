/** Peer limits and weights (peer.go, PeerConfig). */
module PeerLimits {

  datatype Limits = Limits(
    outboundQueueBytes: int,
    outboundQueueFrames: int,
    perStreamQueueBytes: int,
    perStreamQueueFrames: int,
    backpressure: bool,
    maxActiveStreams: int,
    maxCanceledRequests: int,
    controlWeight: int,
    interactiveWeight: int,
    bulkWeight: int)
  {
    /** What NewPeer demands of a configuration once its zero fields hold their defaults. */
    predicate Ok() {
      && 0 < perStreamQueueBytes <= outboundQueueBytes
      && 0 < perStreamQueueFrames <= outboundQueueFrames
      && 0 < maxActiveStreams
      && 0 < maxCanceledRequests
      && 0 < controlWeight && 0 < interactiveWeight && 0 < bulkWeight
    }
  }
}
