/**
 * The Messenger webhook: the GET verification handshake and the POST
 * handler that turns page events into broadcasts and echo replies.
 */
module Webhook {
  import opened Wrappers
  import opened Decimal
  import opened Messages
  import opened Http

  const SubscribeMode := "subscribe"
  const PageObject := "page"
  const EventReceived := "EVENT_RECEIVED"

  /**
   * One element of an entry's `messaging` array. `message` is the `text` of
   * the event's `message` object, None when the event carries no `message`.
   */
  datatype MessagingEvent = MessagingEvent(senderId: string, message: Option<string>, timestamp: nat)

  datatype Entry = Entry(messaging: seq<MessagingEvent>)

  /** The POST body: `objectType` is its `object` field (a keyword in Dafny). */
  datatype WebhookBody = WebhookBody(objectType: string, entry: seq<Entry>)

  /**
   * GET /webhook. `mode`, `token` and `challenge` are the `hub.*` query
   * parameters (None when absent); `verifyToken` is the configured token.
   * An absent challenge is sent as an empty body.
   */
  function Verify(mode: Option<string>, token: Option<string>, challenge: Option<string>,
                  verifyToken: string): (r: Response)
    ensures r.status == 200 <==> mode == Some(SubscribeMode) && token == Some(verifyToken)
    ensures r.status == 200 ==> r.body == Text(if challenge.Some? then challenge.value else "")
    ensures r.status != 200 ==> r == Response(403, Text("Forbidden"))
  {
    if mode == Some(SubscribeMode) && token == Some(verifyToken) then
      Response(200, Text(match challenge case Some(c) => c case None => ""))
    else
      Response(403, Text("Forbidden"))
  }

  /** Every entry has a first messaging event (otherwise the handler throws). */
  predicate HasFirstEvents(entries: seq<Entry>) {
    forall i :: 0 <= i < |entries| ==> |entries[i].messaging| > 0
  }

  /** The bodies the POST handler answers without throwing. */
  predicate WellFormed(body: WebhookBody) {
    body.objectType == PageObject ==> HasFirstEvents(body.entry)
  }

  /** The `messageData` handleMessage builds from an event that carries a message. */
  function Normalize(ev: MessagingEvent): NormalizedMessage
    requires ev.message.Some?
  {
    NormalizedMessage(MessageId(ev.senderId, ev.timestamp), ev.senderId, ev.message.value,
                      ev.timestamp, Messenger)
  }

  /**
   * A webhook message copies the event's sender and text, is tagged
   * "messenger", and its id names the sender and timestamp recoverably.
   */
  lemma NormalizeFields(ev: MessagingEvent)
    requires ev.message.Some?
    ensures Normalize(ev).senderId == ev.senderId && Normalize(ev).message == ev.message.value
    ensures Normalize(ev).timestamp == ev.timestamp && Normalize(ev).platform == Messenger
    ensures Normalize(ev).id == ev.senderId + "_" + FromNat(ev.timestamp)
    ensures SplitMessageId(Normalize(ev).id) == Some((ev.senderId, ev.timestamp))
  {
    MessageIdRoundTrip(ev.senderId, ev.timestamp);
  }

  /** The `new_message` emits and the reply payloads made while handling events, each in order. */
  datatype Relayed = Relayed(broadcasts: seq<NormalizedMessage>, replies: seq<OutboundReply>)

  function Concat(a: Relayed, b: Relayed): Relayed {
    Relayed(a.broadcasts + b.broadcasts, a.replies + b.replies)
  }

  /** handleMessage: one broadcast, then one echo reply to the sender. */
  function HandleMessage(ev: MessagingEvent): (r: Relayed)
    requires ev.message.Some?
    ensures |r.broadcasts| == 1 && r.replies == Echoes(r.broadcasts)
    ensures r.broadcasts[0].senderId == ev.senderId && r.broadcasts[0].message == ev.message.value
  {
    Relayed([Normalize(ev)], [SendMessengerReply(ev.senderId, "Echo: " + ev.message.value)])
  }

  /** The effects of the forEach over `body.entry`: only `messaging[0]` of each entry is looked at. */
  function Relay(entries: seq<Entry>): (r: Relayed)
    requires HasFirstEvents(entries)
    ensures r.replies == Echoes(r.broadcasts)
    decreases |entries|
  {
    if entries == [] then Relayed([], [])
    else
      var ev := entries[0].messaging[0];
      var rest := Relay(entries[1..]);
      if ev.message.Some? then
        var h := HandleMessage(ev);
        EchoesAppend(h.broadcasts, rest.broadcasts);
        Concat(h, rest)
      else rest
  }

  /** POST /webhook, as a function of the body. */
  function Receive(body: WebhookBody): (out: Outcome)
    requires WellFormed(body)
    ensures body.objectType != PageObject ==> out == Outcome(Response(404, Text("Not Found")), [], [])
    ensures body.objectType == PageObject ==> out.response == Response(200, Text(EventReceived))
    ensures out.replies == Echoes(out.broadcasts)
  {
    if body.objectType == PageObject then
      var r := Relay(body.entry);
      Outcome(Response(200, Text(EventReceived)), r.broadcasts, r.replies)
    else
      Outcome(Response(404, Text("Not Found")), [], [])
  }

  /** The handler's loop over the entries, emitting and replying as it goes. */
  method PostWebhook(body: WebhookBody) returns (out: Outcome)
    requires WellFormed(body)
    ensures out == Receive(body)
  {
    if body.objectType != PageObject {
      return Outcome(Response(404, Text("Not Found")), [], []);
    }
    var broadcasts: seq<NormalizedMessage> := [];
    var replies: seq<OutboundReply> := [];
    var i := 0;
    while i < |body.entry|
      invariant 0 <= i <= |body.entry|
      invariant Relayed(broadcasts, replies) == Relay(body.entry[..i])
    {
      var ev := body.entry[i].messaging[0];
      if ev.message.Some? {
        broadcasts := broadcasts + [Normalize(ev)];
        replies := replies + [SendMessengerReply(ev.senderId, "Echo: " + ev.message.value)];
      }
      RelayAppend(body.entry[..i], [body.entry[i]]);
      assert body.entry[..i + 1] == body.entry[..i] + [body.entry[i]];
      i := i + 1;
    }
    assert body.entry[..i] == body.entry;
    out := Outcome(Response(200, Text(EventReceived)), broadcasts, replies);
  }

  /** Entries are processed in order: relaying a concatenation concatenates the effects. */
  lemma {:induction false} RelayAppend(a: seq<Entry>, b: seq<Entry>)
    requires HasFirstEvents(a) && HasFirstEvents(b)
    ensures HasFirstEvents(a + b)
    ensures Relay(a + b) == Concat(Relay(a), Relay(b))
    decreases |a|
  {
    var ab := a + b;
    assert forall i :: 0 <= i < |ab| ==> ab[i] == if i < |a| then a[i] else b[i - |a|];
    if a == [] {
      assert ab == b;
    } else {
      assert ab[0] == a[0];
      assert ab[1..] == a[1..] + b;
      RelayAppend(a[1..], b);
      var ev := a[0].messaging[0];
      var tail, rb := Relay(a[1..]), Relay(b);
      if ev.message.Some? {
        var h := HandleMessage(ev);
        calc {
          Relay(ab);
          Concat(h, Relay(ab[1..]));
          Concat(h, Concat(tail, rb));
          { assert h.broadcasts + (tail.broadcasts + rb.broadcasts) == (h.broadcasts + tail.broadcasts) + rb.broadcasts;
            assert h.replies + (tail.replies + rb.replies) == (h.replies + tail.replies) + rb.replies; }
          Concat(Concat(h, tail), rb);
        }
      }
    }
  }

  /** The first messaging events that carry a message, in entry order. */
  function Carrying(entries: seq<Entry>): (evs: seq<MessagingEvent>)
    requires HasFirstEvents(entries)
    ensures |evs| <= |entries|
    ensures forall k :: 0 <= k < |evs| ==> evs[k].message.Some?
    ensures forall ev :: ev in evs <==>
      exists i :: 0 <= i < |entries| && entries[i].messaging[0] == ev && ev.message.Some?
    decreases |entries|
  {
    if entries == [] then []
    else
      var ev := entries[0].messaging[0];
      var rest := Carrying(entries[1..]);
      assert forall i :: 0 <= i < |entries| - 1 ==> entries[1..][i] == entries[i + 1];
      if ev.message.Some? then [ev] + rest else rest
  }

  /** A single entry contributes its first event exactly when that event carries a message. */
  lemma CarryingOne(e: Entry)
    requires |e.messaging| > 0
    ensures HasFirstEvents([e])
    ensures Carrying([e]) == if e.messaging[0].message.Some? then [e.messaging[0]] else []
  {
    assert [e][1..] == [];
  }

  /** Carried events keep entry order: those of earlier entries come first. */
  lemma {:induction false} CarryingAppend(a: seq<Entry>, b: seq<Entry>)
    requires HasFirstEvents(a) && HasFirstEvents(b)
    ensures HasFirstEvents(a + b)
    ensures Carrying(a + b) == Carrying(a) + Carrying(b)
    decreases |a|
  {
    var ab := a + b;
    assert forall i :: 0 <= i < |ab| ==> ab[i] == if i < |a| then a[i] else b[i - |a|];
    if a == [] {
      assert ab == b;
    } else {
      assert ab[0] == a[0];
      assert ab[1..] == a[1..] + b;
      CarryingAppend(a[1..], b);
      var ev := a[0].messaging[0];
      if ev.message.Some? {
        assert [ev] + (Carrying(a[1..]) + Carrying(b)) == ([ev] + Carrying(a[1..])) + Carrying(b);
      }
    }
  }

  /**
   * One broadcast per entry whose first event carries a message, in entry
   * order, and nothing else.
   */
  lemma {:induction false} RelayFollowsCarrying(entries: seq<Entry>)
    requires HasFirstEvents(entries)
    ensures |Relay(entries).broadcasts| == |Carrying(entries)|
    ensures forall k :: 0 <= k < |Carrying(entries)| ==>
      Relay(entries).broadcasts[k] == Normalize(Carrying(entries)[k])
    decreases |entries|
  {
    if entries != [] {
      RelayFollowsCarrying(entries[1..]);
    }
  }

  /** Events after `messaging[0]` never matter: bodies that agree on first events relay alike. */
  lemma {:induction false} LaterEventsIgnored(a: seq<Entry>, b: seq<Entry>)
    requires HasFirstEvents(a) && HasFirstEvents(b) && |a| == |b|
    requires forall i :: 0 <= i < |a| ==> a[i].messaging[0] == b[i].messaging[0]
    ensures Relay(a) == Relay(b)
    decreases |a|
  {
    if a != [] {
      LaterEventsIgnored(a[1..], b[1..]);
    }
  }

  /** An entry whose first event has no message contributes nothing. */
  lemma EntryWithoutMessageSkipped(before: seq<Entry>, e: Entry, after: seq<Entry>)
    requires HasFirstEvents(before) && HasFirstEvents(after) && |e.messaging| > 0
    requires e.messaging[0].message.None?
    ensures HasFirstEvents(before + after)
    ensures Relay(before + [e] + after) == Relay(before + after)
  {
    assert [e][1..] == [];
    RelayAppend(before, [e]);
    RelayAppend(before + [e], after);
    RelayAppend(before, after);
  }

  lemma ExampleId()
    ensures MessageId("U1", 1000) == "U1_1000"
  {
  }

  /** One entry, one event "hi" from U1 at 1000 ms: one broadcast "U1_1000", one reply "Echo: hi". */
  lemma SingleMessageExample()
    ensures Receive(WebhookBody(PageObject, [Entry([MessagingEvent("U1", Some("hi"), 1000)])])) ==
      Outcome(Response(200, Text(EventReceived)),
              [NormalizedMessage("U1_1000", "U1", "hi", 1000, Messenger)],
              [OutboundReply(Recipient("U1"), ReplyText("Echo: hi"))])
  {
    var ev := MessagingEvent("U1", Some("hi"), 1000);
    var entries := [Entry([ev])];
    ExampleId();
    assert entries[1..] == [];
    assert Relay(entries) == Concat(HandleMessage(ev), Relayed([], []));
    assert Normalize(ev) == NormalizedMessage("U1_1000", "U1", "hi", 1000, Messenger);
    assert "Echo: " + "hi" == "Echo: hi";
  }
}
