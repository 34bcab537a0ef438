/** The streams of an RTSP session, as a PLAY request sees them (src/rtsp/NtRtspServer.cpp). */
module StreamStates {
  import opened Options
  import opened Decimal

  /** A stream: its subsession, if set up, and that one's track name, the numbers of its
      RTP sink, if it has one, and its play time. */
  datatype Stream = Stream(subsession: Option<nat>, trackId: string, sink: Option<Numbers>, npt: real)
  datatype Numbers = Numbers(seqNo: uint16, timestamp: uint32)

  /** The streams a request is for: all that are set up, or those of one subsession. */
  predicate Selected(s: Stream, target: Option<nat>) {
    s.subsession.Some? && (target == None || target == s.subsession)
  }
}
