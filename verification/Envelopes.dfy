/** What the delivery engine reads off a `message.new` frame. */
module Envelopes {
  import opened Wrappers

  /** The payload as the extraction helpers see it (_realtime.py:2043-2061):
      an absent or ill-typed field is None, and so is an empty message id. */
  datatype Body = Body(id: Option<string>, conv: Option<string>, number: Option<nat>)

  /** One frame object. `tag` is its identity: None for frames and fill rows,
      a number of its own for each envelope the offline drain creates. */
  datatype Envelope = Envelope(body: Body, tag: Option<nat>)

  /** A frame together with its eligibility for an ack after dispatch. */
  datatype Pending = Pending(env: Envelope, wsAck: bool)

  function SeqOf(p: Pending): nat { p.env.body.number.GetOr(0) }

  function SeqsOf(ps: seq<Pending>): seq<nat> {
    seq(|ps|, i requires 0 <= i < |ps| => SeqOf(ps[i]))
  }

  datatype GapReason = GapFilled | GapFillFailed | GapFillUnavailable | BufferOverflow | ConnectionClosed

  datatype GapNotice = GapNotice(expected: nat, buffered: Option<nat>, recovered: bool, reason: GapReason)
}
