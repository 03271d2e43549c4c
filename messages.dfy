/**
 * The records the relay produces: the message pushed to every connected
 * client (`new_message`) and the reply payload posted back to Messenger.
 */
module Messages {
  import opened Wrappers
  import opened Decimal

  datatype Platform = Messenger | Test

  /**
   * The payload of a `new_message` emit. `timestamp` is kept as epoch
   * milliseconds; the Date object the server builds from it is not modelled.
   */
  datatype NormalizedMessage = NormalizedMessage(
    id: string,
    senderId: string,
    message: string,
    timestamp: nat,
    platform: Platform)

  /** The JSON body `{recipient: {id}, message: {text}}` of a Send API call. */
  datatype Recipient = Recipient(id: string)
  datatype ReplyText = ReplyText(text: string)
  datatype OutboundReply = OutboundReply(recipient: Recipient, message: ReplyText)

  /** The payload sendMessengerReply builds; the network call itself is not modelled. */
  function SendMessengerReply(recipientId: string, messageText: string): OutboundReply {
    OutboundReply(Recipient(recipientId), ReplyText(messageText))
  }

  /** The reply that answers a broadcast: back to its sender, echoing its text. */
  function EchoOf(m: NormalizedMessage): OutboundReply {
    SendMessengerReply(m.senderId, "Echo: " + m.message)
  }

  /** The echo of each broadcast, in broadcast order. */
  function Echoes(broadcasts: seq<NormalizedMessage>): (replies: seq<OutboundReply>)
    ensures |replies| == |broadcasts|
    decreases |broadcasts|
  {
    if broadcasts == [] then [] else [EchoOf(broadcasts[0])] + Echoes(broadcasts[1..])
  }

  /** The k-th reply answers the k-th broadcast: same sender, text prefixed by "Echo: ". */
  lemma {:induction false} EchoesAt(broadcasts: seq<NormalizedMessage>, k: nat)
    requires k < |broadcasts|
    ensures Echoes(broadcasts)[k] == EchoOf(broadcasts[k])
    ensures Echoes(broadcasts)[k].recipient.id == broadcasts[k].senderId
    ensures Echoes(broadcasts)[k].message.text == "Echo: " + broadcasts[k].message
    decreases k
  {
    if k > 0 {
      EchoesAt(broadcasts[1..], k - 1);
    }
  }

  /** Echoing a run of broadcasts followed by another is echoing each in turn. */
  lemma {:induction false} EchoesAppend(a: seq<NormalizedMessage>, b: seq<NormalizedMessage>)
    ensures Echoes(a + b) == Echoes(a) + Echoes(b)
    decreases |a|
  {
    if a == [] {
      assert a + b == b;
    } else {
      assert (a + b)[0] == a[0];
      assert (a + b)[1..] == a[1..] + b;
      EchoesAppend(a[1..], b);
    }
  }

  /** Index of the last occurrence of `c` in `s`. */
  function LastIndexOf(s: string, c: char): (r: Option<nat>)
    ensures r.Some? ==> r.value < |s| && s[r.value] == c
    ensures r.Some? ==> forall j :: r.value < j < |s| ==> s[j] != c
    ensures r.None? ==> forall j :: 0 <= j < |s| ==> s[j] != c
    decreases |s|
  {
    if s == [] then None
    else if s[|s| - 1] == c then Some(|s| - 1)
    else LastIndexOf(s[..|s| - 1], c)
  }

  /**
   * Splits an id of the form `<prefix>_<number>` at its last underscore.
   * None when there is no underscore or what follows it is not a numeral
   * as JavaScript prints one.
   */
  function SplitMessageId(id: string): (r: Option<(string, nat)>)
  {
    match LastIndexOf(id, '_')
    case None => None
    case Some(k) =>
      if IsCanonical(id[k + 1..]) then Some((id[..k], ToNat(id[k + 1..]))) else None
  }

  /**
   * The `${prefix}_${n}` id of a message: the sender (or "test") and a
   * millisecond count, joined by an underscore.
   */
  function MessageId(prefix: string, n: nat): string {
    prefix + "_" + FromNat(n)
  }

  /**
   * The prefix and the number can always be read back from an id, even
   * when the prefix itself contains underscores.
   */
  lemma MessageIdRoundTrip(prefix: string, n: nat)
    ensures SplitMessageId(MessageId(prefix, n)) == Some((prefix, n))
  {
    var digits := FromNat(n);
    var id := prefix + "_" + digits;
    assert id[|prefix|] == '_';
    assert forall j :: |prefix| < j < |id| ==> id[j] == digits[j - |prefix| - 1];
    var r := LastIndexOf(id, '_');
    assert r.value == |prefix|;
    assert id[..|prefix|] == prefix;
    assert id[|prefix| + 1..] == digits;
    ToNatFromNat(n);
  }

  /** Conversely, every id that splits was built by MessageId from its parts. */
  lemma SplitMessageIdSound(id: string)
    requires SplitMessageId(id).Some?
    ensures id == MessageId(SplitMessageId(id).value.0, SplitMessageId(id).value.1)
  {
    var k := LastIndexOf(id, '_').value;
    var digits := id[k + 1..];
    FromNatToNat(digits);
    assert id == id[..k] + "_" + digits;
  }

  /** Two messages built from different (prefix, number) pairs never share an id. */
  lemma MessageIdInjective(p1: string, n1: nat, p2: string, n2: nat)
    requires MessageId(p1, n1) == MessageId(p2, n2)
    ensures p1 == p2 && n1 == n2
  {
    MessageIdRoundTrip(p1, n1);
    MessageIdRoundTrip(p2, n2);
  }
}
