/** The client side: what a transport sends over its connection, and what its callbacks make of the frames that arrive. */
module Transport {
  import opened EventFrame
  import opened Broker
  import opened BrokerDelivery

  // ---------- one transport ----------

  datatype Role = Publisher | Subscriber

  /** The socket's state, the frames sent over it, and what the handlers of the latest subscription were given. */
  datatype Client = Client(
    open: bool, role: Role, connecting: bool, connected: bool, sent: seq<Bytes>, messages: seq<Bytes>, acks: nat)

  /** Calls by the application and callbacks of the socket, as they run on the strand. */
  datatype Event =
    | Connect
    | Subscribe
    | Connected
    | Publish(payload: Bytes)
    | Receive(raw: Bytes)
    | Disconnect

  const IDLE_CLIENT: Client := Client(false, Publisher, false, false, [], [], 0)

  /** The receive loop runs on a connected subscription; it hands over whole messages of at least a frame header. */
  predicate Delivers(c: Client, raw: Bytes) {
    c.connected && c.role.Subscriber? && |raw| >= 3
  }

  function Next(topic: Topic, c: Client, e: Event): Client {
    match e
    case Connect => if c.open then c else c.(open := true, role := Publisher, connecting := true)
    case Subscribe => if c.open then c else c.(open := true, role := Subscriber, connecting := true, messages := [], acks := 0)
    case Connected =>
      if !c.connecting then c
      else c.(connecting := false, connected := true,
              sent := if c.role.Subscriber? then c.sent + [Encoded(Frame(topic, REGIST, []))] else c.sent)
    case Publish(payload) => if !c.connected then c else c.(sent := c.sent + [Encoded(Frame(topic, DATA, payload))])
    case Receive(raw) =>
      if !Delivers(c, raw) then c
      else if Parse(raw).kind == ACK then c.(acks := c.acks + 1)
      else if Parse(raw).kind == DATA then c.(messages := c.messages + [Parse(raw).payload])
      else c
    case Disconnect => if !c.open then c else c.(open := false, connecting := false, connected := false, sent := [])
  }

  function Reached(topic: Topic, events: seq<Event>): Client {
    if events == [] then IDLE_CLIENT else Next(topic, Reached(topic, events[..|events| - 1]), events[|events| - 1])
  }

  class TcpTransport {
    const topic: Topic
    var open: bool
    var role: Role
    var connecting: bool
    var connected: bool
    var sent: seq<Bytes>
    var messages: seq<Bytes>
    var acks: nat

    function View(): Client
      reads this
    {
      Client(open, role, connecting, connected, sent, messages, acks)
    }

    constructor (topic: Topic)
      ensures this.topic == topic && View() == IDLE_CLIENT
    {
      this.topic := topic;
      open, role, connecting, connected, sent, messages, acks := false, Publisher, false, false, [], [], 0;
    }

    /** `connect`: refused while there is a socket. */
    method StartConnect()
      modifies this
      ensures View() == Next(topic, old(View()), Connect)
    {
      if open { return; }
      open, role, connecting := true, Publisher, true;
    }

    /** `subscribe`: refused while there is a socket; the registration waits for the connection. */
    method StartSubscribe()
      modifies this
      ensures View() == Next(topic, old(View()), Subscribe)
    {
      if open { return; }
      open, role, connecting := true, Subscriber, true;
      messages, acks := [], 0;
    }

    /** The connect callback, which the socket calls once per connection attempt. */
    method OnConnected()
      modifies this
      ensures View() == Next(topic, old(View()), Connected)
    {
      if !connecting { return; }
      connecting, connected := false, true;
      if role.Subscriber? {
        var frame := Make(topic, REGIST, []);
        sent := sent + [frame];
      }
    }

    /** The task `publish` posts: nothing is sent before the connection stands. */
    method OnPublish(payload: Bytes)
      modifies this
      ensures View() == Next(topic, old(View()), Publish(payload))
    {
      if !connected { return; }
      var frame := Make(topic, DATA, payload);
      sent := sent + [frame];
    }

    /** The receive callback of `subscribe`. */
    method OnReceive(raw: Bytes)
      requires Delivers(View(), raw)
      modifies this
      ensures View() == Next(topic, old(View()), Receive(raw))
    {
      var frame := Parse(raw);
      if frame.kind == ACK {
        acks := acks + 1;
      } else if frame.kind == DATA {
        messages := messages + [frame.payload];
      }
    }

    /** The task `disconnect` posts. */
    method OnDisconnect()
      modifies this
      ensures View() == Next(topic, old(View()), Disconnect)
    {
      if !open { return; }
      open, connecting, connected := false, false, false;
      sent := [];
    }
  }

  // ---------- what every order of calls and callbacks keeps ----------

  /** The payloads among the DATA messages on a topic, in the order sent. */
  function PayloadsOn(sent: seq<Bytes>, topic: Topic): seq<Bytes> {
    if sent == [] then []
    else
      var n := |sent| - 1;
      PayloadsOn(sent[..n], topic) + (if IsDataOn(sent[n], topic) then [Parse(sent[n]).payload] else [])
  }

  /** How an event changes the payloads the application has published over the present connection. */
  function AcceptedNext(c: Client, e: Event, accepted: seq<Bytes>): seq<Bytes> {
    match e
    case Publish(payload) => if c.connected then accepted + [payload] else accepted
    case Disconnect => if c.open then [] else accepted
    case _ => accepted
  }

  /** The payloads the application has published over the present connection. */
  function Accepted(topic: Topic, events: seq<Event>): seq<Bytes> {
    if events == [] then []
    else
      var n := |events| - 1;
      AcceptedNext(Reached(topic, events[..n]), events[n], Accepted(topic, events[..n]))
  }

  /** Nothing is sent on a socket that is not connected, and a connected subscription has registered once, for its topic. */
  ghost predicate SentOk(topic: Topic, c: Client) {
    && (c.connected || c.connecting ==> c.open)
    && (!c.connected ==> c.sent == [])
    && !(c.connected && c.connecting)
    && Registrations(c.sent) == if c.connected && c.role.Subscriber? then [topic] else []
  }

  lemma SentMore(topic: Topic, sent: seq<Bytes>, kind: Byte, payload: Bytes)
    ensures var more := sent + [Encoded(Frame(topic, kind, payload))];
      && Registrations(more) == Registrations(sent) + (if kind == REGIST then [topic] else [])
      && PayloadsOn(more, topic) == PayloadsOn(sent, topic) + (if kind == DATA then [payload] else [])
  {
    hide Parse, Encoded;
    ParseEncoded(Frame(topic, kind, payload));
    EncodedLength(Frame(topic, kind, payload));
    assert (sent + [Encoded(Frame(topic, kind, payload))])[..|sent|] == sent;
  }

  lemma EncodedLength(f: Frame)
    ensures |Encoded(f)| == 3 + |f.payload|
  {
  }

  lemma SentStep(topic: Topic, c: Client, e: Event, accepted: seq<Bytes>)
    requires SentOk(topic, c) && PayloadsOn(c.sent, topic) == accepted
    ensures SentOk(topic, Next(topic, c, e))
    ensures PayloadsOn(Next(topic, c, e).sent, topic) == AcceptedNext(c, e, accepted)
  {
    hide Encoded, Parse;
    assert Registrations([]) == [] && PayloadsOn([], topic) == [];
    hide Registrations, PayloadsOn;
    if e.Publish? {
      SentMore(topic, c.sent, DATA, e.payload);
    } else if e.Connected? {
      SentMore(topic, c.sent, REGIST, []);
    }
  }

  /** After any calls and callbacks in any order: at most one registration, sent exactly when a subscription is connected, and the payloads sent are those published since. */
  lemma {:induction false} SentIsPublished(topic: Topic, events: seq<Event>)
    ensures SentOk(topic, Reached(topic, events))
    ensures PayloadsOn(Reached(topic, events).sent, topic) == Accepted(topic, events)
  {
    if events != [] {
      hide Next, SentOk, PayloadsOn, AcceptedNext;
      var n := |events| - 1;
      SentIsPublished(topic, events[..n]);
      SentStep(topic, Reached(topic, events[..n]), events[n], Accepted(topic, events[..n]));
    }
  }

  ghost predicate Whole(arrived: seq<Bytes>) {
    forall k :: 0 <= k < |arrived| ==> |arrived[k]| >= 3
  }

  function ArrivedNext(c: Client, e: Event, arrived: seq<Bytes>): (r: seq<Bytes>)
    ensures Whole(arrived) ==> Whole(r)
  {
    match e
    case Subscribe => if c.open then arrived else []
    case Receive(raw) => if Delivers(c, raw) then arrived + [raw] else arrived
    case _ => arrived
  }

  /** The messages that arrived on the present or latest subscription. */
  function Arrived(topic: Topic, events: seq<Event>): (r: seq<Bytes>)
    ensures Whole(r)
  {
    if events == [] then []
    else
      var n := |events| - 1;
      ArrivedNext(Reached(topic, events[..n]), events[n], Arrived(topic, events[..n]))
  }

  /** The payloads the message handler is called with, for messages arriving in this order: it dispatches on the frame type. */
  ghost function Handled(arrived: seq<Bytes>): seq<Bytes>
    requires Whole(arrived)
  {
    if arrived == [] then []
    else
      var n := |arrived| - 1;
      Handled(arrived[..n]) + (if Parse(arrived[n]).kind == DATA then [Parse(arrived[n]).payload] else [])
  }

  ghost function Acks(arrived: seq<Bytes>): nat
    requires Whole(arrived)
  {
    if arrived == [] then 0
    else Acks(arrived[..|arrived| - 1]) + (if Parse(arrived[|arrived| - 1]).kind == ACK then 1 else 0)
  }

  lemma ArrivedBack(arrived: seq<Bytes>, raw: Bytes)
    requires Whole(arrived) && |raw| >= 3
    ensures Whole(arrived + [raw])
    ensures Handled(arrived + [raw]) == Handled(arrived) + (if Parse(raw).kind == DATA then [Parse(raw).payload] else [])
    ensures Acks(arrived + [raw]) == Acks(arrived) + (if Parse(raw).kind == ACK then 1 else 0)
  {
    hide Parse;
    assert (arrived + [raw])[..|arrived|] == arrived;
  }

  lemma ArrivedStep(topic: Topic, c: Client, e: Event, arrived: seq<Bytes>)
    requires Whole(arrived) && c.messages == Handled(arrived) && c.acks == Acks(arrived)
    ensures Next(topic, c, e).messages == Handled(ArrivedNext(c, e, arrived))
    ensures Next(topic, c, e).acks == Acks(ArrivedNext(c, e, arrived))
  {
    hide Parse, Encoded;
    assert Handled([]) == [] && Acks([]) == 0;
    hide Handled, Acks;
    if e.Receive? && Delivers(c, e.raw) { ArrivedBack(arrived, e.raw); }
  }

  /** After any calls and callbacks the handlers of the subscription were given exactly what arrived on it, in order. */
  lemma {:induction false} HandlersGetArrived(topic: Topic, events: seq<Event>)
    ensures Reached(topic, events).messages == Handled(Arrived(topic, events))
    ensures Reached(topic, events).acks == Acks(Arrived(topic, events))
  {
    if events != [] {
      hide Next, Handled, Acks, ArrivedNext;
      var n := |events| - 1;
      HandlersGetArrived(topic, events[..n]);
      ArrivedStep(topic, Reached(topic, events[..n]), events[n], Arrived(topic, events[..n]));
    }
  }

  // ---------- from a publisher's application to a subscriber's handler ----------

  function Raws(outs: seq<Out>): (r: seq<Bytes>)
    ensures |r| == |outs| && forall k :: 0 <= k < |r| ==> r[k] == outs[k].raw
  {
    seq(|outs|, k requires 0 <= k < |outs| => outs[k].raw)
  }

  /** DATA frames come from publishers and only those do. */
  ghost predicate Sorted(outs: seq<Out>) {
    forall k :: 0 <= k < |outs| ==> |outs[k].raw| >= 3 && (Parse(outs[k].raw).kind == DATA <==> outs[k].origin.Published?)
  }

  /** The calls of the message handler for these frames: it dispatches on the frame type; with each payload, whose message it is. */
  ghost function Calls(outs: seq<Out>): seq<(nat, Bytes)>
    requires Sorted(outs)
  {
    if outs == [] then []
    else
      var n := |outs| - 1;
      Calls(outs[..n]) + (if Parse(outs[n].raw).kind == DATA then [(outs[n].origin.p, Parse(outs[n].raw).payload)] else [])
  }

  function Payloads(calls: seq<(nat, Bytes)>): seq<Bytes> {
    if calls == [] then [] else Payloads(calls[..|calls| - 1]) + [calls[|calls| - 1].1]
  }

  function CallsFrom(calls: seq<(nat, Bytes)>, p: nat): seq<Bytes> {
    if calls == [] then []
    else
      var n := |calls| - 1;
      CallsFrom(calls[..n], p) + (if calls[n].0 == p then [calls[n].1] else [])
  }

  lemma PayloadsBack(calls: seq<(nat, Bytes)>, call: (nat, Bytes))
    ensures Payloads(calls + [call]) == Payloads(calls) + [call.1]
  {
    assert (calls + [call])[..|calls|] == calls;
  }

  lemma CallsFromBack(calls: seq<(nat, Bytes)>, call: (nat, Bytes), p: nat)
    ensures CallsFrom(calls + [call], p) == CallsFrom(calls, p) + (if call.0 == p then [call.1] else [])
  {
    assert (calls + [call])[..|calls|] == calls;
  }

  /** The calls are all there is: their payloads are what the handler is given. */
  lemma {:induction false} CallsAreHandled(outs: seq<Out>)
    requires Sorted(outs)
    ensures Payloads(Calls(outs)) == Handled(Raws(outs))
  {
    hide Parse;
    if outs != [] {
      var n := |outs| - 1;
      CallsAreHandled(outs[..n]);
      assert Raws(outs)[..n] == Raws(outs[..n]);
      if Parse(outs[n].raw).kind == DATA {
        PayloadsBack(Calls(outs[..n]), (outs[n].origin.p, Parse(outs[n].raw).payload));
      } else {
        assert Calls(outs) == Calls(outs[..n]) + [] == Calls(outs[..n]);
      }
    }
  }

  function PayloadsAt(sent: seq<Bytes>, positions: seq<nat>): (r: seq<Bytes>)
    requires forall k :: 0 <= k < |positions| ==> positions[k] < |sent| && |sent[positions[k]]| >= 3
    ensures |r| == |positions| && forall k :: 0 <= k < |r| ==> r[k] == Parse(sent[positions[k]]).payload
  {
    seq(|positions|, k requires 0 <= k < |positions| => Parse(sent[positions[k]]).payload)
  }

  lemma PayloadsAtBack(sent: seq<Bytes>, positions: seq<nat>, last: nat)
    requires forall k :: 0 <= k < |positions| ==> positions[k] < |sent| && |sent[positions[k]]| >= 3
    requires last < |sent| && |sent[last]| >= 3
    ensures forall k :: 0 <= k < |positions + [last]| ==> (positions + [last])[k] < |sent| && |sent[(positions + [last])[k]]| >= 3
    ensures PayloadsAt(sent, positions + [last]) == PayloadsAt(sent, positions) + [Parse(sent[last]).payload]
  {
    hide Parse;
  }

  /** One more frame adds the same to the calls of p's messages and to the positions heard. */
  lemma NextFrame(outs: seq<Out>, p: nat)
    requires Sorted(outs) && outs != []
    ensures var n := |outs| - 1;
      var mine := outs[n].origin.Published? && outs[n].origin.p == p;
      && Sorted(outs[..n])
      && HeardOf(outs, p) == HeardOf(outs[..n], p) + (if mine then [outs[n].origin.i] else [])
      && CallsFrom(Calls(outs), p) == CallsFrom(Calls(outs[..n]), p) + (if mine then [Parse(outs[n].raw).payload] else [])
  {
    hide Parse, CallsFrom;
    var n := |outs| - 1;
    if outs[n].origin.Published? {
      CallsFromBack(Calls(outs[..n]), (outs[n].origin.p, Parse(outs[n].raw).payload), p);
    } else {
      assert Calls(outs) == Calls(outs[..n]) + [] == Calls(outs[..n]);
    }
  }

  /** The handler's payloads of p's messages are those at the positions heard. */
  lemma {:induction false} HandledIsPublished(outs: seq<Out>, p: nat, sent: seq<Bytes>)
    requires Sorted(outs)
    requires forall out :: out in outs && out.origin.Published? && out.origin.p == p ==>
      out.origin.i < |sent| && out.raw == sent[out.origin.i]
    ensures var positions := HeardOf(outs, p);
      && (forall k :: 0 <= k < |positions| ==> positions[k] < |sent| && |sent[positions[k]]| >= 3)
      && CallsFrom(Calls(outs), p) == PayloadsAt(sent, positions)
  {
    hide Parse;
    if outs != [] {
      hide HeardOf, Calls, CallsFrom, PayloadsAt;
      var n := |outs| - 1;
      assert outs[n] in outs;
      NextFrame(outs, p);
      HandledIsPublished(outs[..n], p, sent);
      if outs[n].origin.Published? && outs[n].origin.p == p {
        PayloadsAtBack(sent, HeardOf(outs[..n], p), outs[n].origin.i);
      } else {
        assert HeardOf(outs, p) == HeardOf(outs[..n], p);
      }
    }
  }

  lemma {:induction false} PayloadsOnAt(sent: seq<Bytes>, topic: Topic)
    ensures var positions := PublishedOn(sent, topic);
      && (forall k :: 0 <= k < |positions| ==> positions[k] < |sent| && |sent[positions[k]]| >= 3)
      && PayloadsOn(sent, topic) == PayloadsAt(sent, positions)
  {
    hide Parse;
    if sent != [] {
      var n := |sent| - 1;
      PayloadsOnAt(sent[..n], topic);
      assert PayloadsAt(sent, PublishedOn(sent[..n], topic)) == PayloadsAt(sent[..n], PublishedOn(sent[..n], topic));
      assert PayloadsAt(sent, PublishedOn(sent, topic)) ==
        PayloadsAt(sent, PublishedOn(sent[..n], topic)) + (if IsDataOn(sent[n], topic) then [Parse(sent[n]).payload] else []);
    }
  }

  ghost predicate IsPayloadBlock(heard: seq<Bytes>, published: seq<Bytes>, from: nat) {
    from + |heard| <= |published| && heard == published[from..from + |heard|]
  }

  lemma BlockOfPayloads(sent: seq<Bytes>, heard: seq<nat>, topic: Topic, from: nat)
    requires IsBlock(heard, PublishedOn(sent, topic), from)
    ensures forall k :: 0 <= k < |heard| ==> heard[k] < |sent| && |sent[heard[k]]| >= 3
    ensures IsPayloadBlock(PayloadsAt(sent, heard), PayloadsOn(sent, topic), from)
  {
    hide Parse, PublishedOn, PayloadsOn;
    PayloadsOnAt(sent, topic);
    var published := PublishedOn(sent, topic);
    forall k | 0 <= k < |heard|
      ensures heard[k] == published[from + k]
    {
    }
  }

  /**
   In every run, for a client that registers once, for one topic: the handler is called with exactly the payloads of
   the DATA frames received; those that come from any one publisher are, in order and byte for byte, a contiguous
   block of the payloads this publisher sent on the topic; and every DATA frame received is a message sent on it.
   */
  lemma HandlerHearsBlock(states: seq<State>, labels: seq<Label>, connections: nat, c: nat, p: nat, topic: Topic)
    requires Run(states, labels, connections) && c < connections && p < connections
    requires |states[|labels|].conns| == connections && Registrations(states[|labels|].conns[c].sent) <= [topic]
    ensures var last := states[|labels|];
      && WellFormed(last.conns[c]) && Sorted(Got(last.conns[c])) && HeardOnly(last, Got(last.conns[c]), topic)
      && Payloads(Calls(Got(last.conns[c]))) == Handled(Raws(Got(last.conns[c])))
      && exists from: nat :: IsPayloadBlock(CallsFrom(Calls(Got(last.conns[c])), p), PayloadsOn(last.conns[p].sent, topic), from)
  {
    hide Parse, Encoded, Step, Enabled, Registrations, HeardOf, PublishedOn, IsBlock, PayloadsOn, Calls, CallsFrom, Handled, IsPayloadBlock;
    SubscriberHearsBlock(states, labels, connections, c, p, topic);
    var last := states[|labels|];
    var outs := Got(last.conns[c]);
    forall k | 0 <= k < |outs|
      ensures |outs[k].raw| >= 3 && (Parse(outs[k].raw).kind == DATA <==> outs[k].origin.Published?)
    {
      assert outs[k] in outs;
    }
    CallsAreHandled(outs);
    HandledIsPublished(outs, p, last.conns[p].sent);
    var from: nat :| IsBlock(HeardOf(outs, p), PublishedOn(last.conns[p].sent, topic), from);
    BlockOfPayloads(last.conns[p].sent, HeardOf(outs, p), topic, from);
  }

  /**
   End to end: whatever calls and callbacks the subscribing and the publishing transport went through on their
   connections, and however broker and clients interleaved, what the subscriber's handler was given of this publisher
   is a contiguous block of what its application published over the connection.
   */
  lemma PublishedReachesHandler(
      states: seq<State>, labels: seq<Label>, connections: nat, c: nat, p: nat, topic: Topic,
      subscriber: seq<Event>, publisher: seq<Event>)
    requires Run(states, labels, connections) && c < connections && p < connections
    requires |states[|labels|].conns| == connections
    requires states[|labels|].conns[c].sent == Reached(topic, subscriber).sent
    requires states[|labels|].conns[p].sent == Reached(topic, publisher).sent
    requires states[|labels|].conns[c].got <= |states[|labels|].conns[c].outbox|
    requires Arrived(topic, subscriber) == Raws(Got(states[|labels|].conns[c]))
    ensures var last := states[|labels|];
      && Sorted(Got(last.conns[c])) && HeardOnly(last, Got(last.conns[c]), topic)
      && Reached(topic, subscriber).messages == Payloads(Calls(Got(last.conns[c])))
      && exists from: nat :: IsPayloadBlock(CallsFrom(Calls(Got(last.conns[c])), p), Accepted(topic, publisher), from)
  {
    hide Parse, Encoded, Step, Enabled, Registrations, PayloadsOn, Calls, CallsFrom, Handled, IsPayloadBlock, Reached, Accepted, Arrived;
    SentIsPublished(topic, subscriber);
    SentIsPublished(topic, publisher);
    HandlersGetArrived(topic, subscriber);
    HandlerHearsBlock(states, labels, connections, c, p, topic);
  }
}
