/**
 * The set of connected Socket.IO client ids: added on `connection`,
 * removed on `disconnect`, and counted by GET /health.
 */
module Registry {
  import opened Http

  const ConnectedNotice := "Connected to server"
  const HealthyStatus := "OK"

  datatype SocketEvent = Connected(id: string) | Disconnected(id: string)

  /** The effect of one socket event on the set of connected ids. */
  function Step(clients: set<string>, ev: SocketEvent): (next: set<string>)
    ensures ev.Connected? ==> ev.id in next
    ensures ev.Disconnected? ==> ev.id !in next
    ensures forall other :: other != ev.id ==> (other in next <==> other in clients)
  {
    match ev
    case Connected(id) => clients + {id}
    case Disconnected(id) => clients - {id}
  }

  /** The effect of a run of socket events, one atomic step at a time. */
  function Replay(clients: set<string>, events: seq<SocketEvent>): set<string>
    decreases |events|
  {
    if events == [] then clients else Replay(Step(clients, events[0]), events[1..])
  }

  /** Connecting or disconnecting the same id twice is the same as doing it once. */
  lemma StepIdempotent(clients: set<string>, ev: SocketEvent)
    ensures Step(Step(clients, ev), ev) == Step(clients, ev)
  {
  }

  /** A connect grows the set by one exactly when the id is new; a disconnect shrinks it by one exactly when present. */
  lemma StepSize(clients: set<string>, ev: SocketEvent)
    ensures ev.Connected? ==> |Step(clients, ev)| == if ev.id in clients then |clients| else |clients| + 1
    ensures ev.Disconnected? ==> |Step(clients, ev)| == if ev.id in clients then |clients| - 1 else |clients|
  {
    var next := Step(clients, ev);
    if ev.id in clients {
      if ev.Connected? {
        assert next == clients;
      } else {
        assert clients == next + {ev.id} && ev.id !in next;
      }
    } else {
      if ev.Connected? {
        assert next == clients + {ev.id};
      } else {
        assert next == clients;
      }
    }
  }

  predicate Distinct(ids: seq<string>) {
    forall i, j :: 0 <= i < j < |ids| ==> ids[i] != ids[j]
  }

  function Elements(ids: seq<string>): set<string> {
    set id | id in ids
  }

  lemma {:induction false} DistinctSize(ids: seq<string>)
    requires Distinct(ids)
    ensures |Elements(ids)| == |ids|
    decreases |ids|
  {
    if ids != [] {
      DistinctSize(ids[1..]);
      assert Elements(ids) == {ids[0]} + Elements(ids[1..]);
      assert ids[0] !in Elements(ids[1..]);
    }
  }

  function ConnectAll(ids: seq<string>): (events: seq<SocketEvent>)
    ensures |events| == |ids|
  {
    seq(|ids|, i requires 0 <= i < |ids| => Connected(ids[i]))
  }

  function DisconnectAll(ids: seq<string>): (events: seq<SocketEvent>)
    ensures |events| == |ids|
  {
    seq(|ids|, i requires 0 <= i < |ids| => Disconnected(ids[i]))
  }

  lemma {:induction false} ReplayAppend(clients: set<string>, a: seq<SocketEvent>, b: seq<SocketEvent>)
    ensures Replay(clients, a + b) == Replay(Replay(clients, a), b)
    decreases |a|
  {
    if a == [] {
      assert a + b == b;
    } else {
      assert (a + b)[0] == a[0];
      assert (a + b)[1..] == a[1..] + b;
      ReplayAppend(Step(clients, a[0]), a[1..], b);
    }
  }

  lemma {:induction false} ReplayConnects(clients: set<string>, ids: seq<string>)
    ensures Replay(clients, ConnectAll(ids)) == clients + Elements(ids)
    decreases |ids|
  {
    if ids != [] {
      assert ConnectAll(ids)[1..] == ConnectAll(ids[1..]);
      ReplayConnects(clients + {ids[0]}, ids[1..]);
      assert Elements(ids) == {ids[0]} + Elements(ids[1..]);
    }
  }

  lemma {:induction false} ReplayDisconnects(clients: set<string>, ids: seq<string>)
    ensures Replay(clients, DisconnectAll(ids)) == clients - Elements(ids)
    decreases |ids|
  {
    if ids != [] {
      assert DisconnectAll(ids)[1..] == DisconnectAll(ids[1..]);
      ReplayDisconnects(clients - {ids[0]}, ids[1..]);
      assert Elements(ids) == {ids[0]} + Elements(ids[1..]);
    }
  }

  /**
   * Starting from no clients, N distinct connects followed by disconnects
   * of M distinct ones among them leave N - M clients connected.
   */
  lemma SessionCount(ids: seq<string>, gone: seq<string>)
    requires Distinct(ids) && Distinct(gone)
    requires forall j :: 0 <= j < |gone| ==> gone[j] in ids
    ensures |gone| <= |ids|
    ensures |Replay({}, ConnectAll(ids) + DisconnectAll(gone))| == |ids| - |gone|
  {
    ReplayAppend({}, ConnectAll(ids), DisconnectAll(gone));
    ReplayConnects({}, ids);
    ReplayDisconnects({} + Elements(ids), gone);
    DistinctSize(ids);
    DistinctSize(gone);
    var live, left := Elements(ids), Elements(gone);
    assert {} + live == live;
    assert left <= live;
    assert live == (live - left) + left;
    assert |live| == |live - left| + |left|;
    assert |left| <= |live|;
  }

  /** The process-wide `connectedClients` Set. */
  class ConnectionRegistry {
    var clients: set<string>

    constructor ()
      ensures clients == {}
    {
      clients := {};
    }

    /** `connection`: record the socket id, then acknowledge to that client only. */
    method Connect(id: string) returns (ack: string)
      modifies this
      ensures clients == Step(old(clients), Connected(id))
      ensures ack == ConnectedNotice
    {
      clients := clients + {id};
      ack := ConnectedNotice;
    }

    /** `disconnect`: forget the socket id. */
    method Disconnect(id: string)
      modifies this
      ensures clients == Step(old(clients), Disconnected(id))
    {
      clients := clients - {id};
    }

    /** GET /health: status OK and the number of connected clients. */
    method Health(now: nat) returns (r: Response)
      ensures r.status == 200 && r.body.HealthReport?
      ensures r.body.status == HealthyStatus
      ensures r.body.connectedClients == |clients| && r.body.timestamp == now
    {
      r := Response(200, HealthReport(HealthyStatus, |clients|, now));
    }
  }
}
