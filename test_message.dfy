/**
 * POST /test-message: a development endpoint that broadcasts a synthetic
 * message built from optional request fields and never replies to Messenger.
 */
module TestMessage {
  import opened Wrappers
  import opened Decimal
  import opened Messages
  import opened Http

  const DefaultSender := "test_user"
  const DefaultText := "Test message"
  const TestIdPrefix := "test"
  const SentNotice := "Test message sent"

  /** The request body `{message?, senderId?}`; None stands for an absent field. */
  datatype TestRequest = TestRequest(message: Option<string>, senderId: Option<string>)

  /** JavaScript `given || fallback` on a string field: an absent or empty value falls back. */
  function OrDefault(given: Option<string>, fallback: string): (r: string)
    ensures given.Some? && given.value != "" ==> r == given.value
    ensures given.None? || given.value == "" ==> r == fallback
    ensures fallback != "" ==> r != ""
  {
    match given
    case Some(v) => if v != "" then v else fallback
    case None => fallback
  }

  /**
   * The handler. `clockMs` is the Date.now() reading used in the id and
   * `now` the time the timestamp is taken, both in epoch milliseconds.
   */
  function PostTestMessage(req: TestRequest, clockMs: nat, now: nat): (out: Outcome)
    ensures out.response == Response(200, Ack(true, SentNotice))
    ensures |out.broadcasts| == 1 && out.replies == []
    ensures out.broadcasts[0].platform == Test && out.broadcasts[0].timestamp == now
    ensures SplitMessageId(out.broadcasts[0].id) == Some((TestIdPrefix, clockMs))
    ensures req.senderId.Some? && req.senderId.value != "" ==>
      out.broadcasts[0].senderId == req.senderId.value
    ensures req.senderId.None? || req.senderId.value == "" ==>
      out.broadcasts[0].senderId == DefaultSender
    ensures req.message.Some? && req.message.value != "" ==>
      out.broadcasts[0].message == req.message.value
    ensures req.message.None? || req.message.value == "" ==>
      out.broadcasts[0].message == DefaultText
  {
    MessageIdRoundTrip(TestIdPrefix, clockMs);
    var m := NormalizedMessage(
      MessageId(TestIdPrefix, clockMs),
      OrDefault(req.senderId, DefaultSender),
      OrDefault(req.message, DefaultText),
      now,
      Test);
    Outcome(Response(200, Ack(true, SentNotice)), [m], [])
  }

  /** Whatever the request, the broadcast message has a non-empty sender and text. */
  lemma TestMessageNeverBlank(req: TestRequest, clockMs: nat, now: nat)
    ensures PostTestMessage(req, clockMs, now).broadcasts[0].senderId != ""
    ensures PostTestMessage(req, clockMs, now).broadcasts[0].message != ""
  {
  }

  /** An empty request body yields the default sender and text, and an id "test_<clock>". */
  lemma EmptyBodyUsesDefaults(clockMs: nat, now: nat)
    ensures PostTestMessage(TestRequest(None, None), clockMs, now).broadcasts ==
      [NormalizedMessage("test_" + FromNat(clockMs), DefaultSender, DefaultText, now, Test)]
  {
    assert TestIdPrefix + "_" + FromNat(clockMs) == "test_" + FromNat(clockMs);
  }
}
