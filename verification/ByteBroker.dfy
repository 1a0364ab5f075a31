/**
 The broker and its clients over byte streams: what a thread writes arrives byte by byte, cut anywhere, and each end
 handles the whole messages that have arrived. Every such run is a run of the broker over whole messages.
 */
module ByteBroker {
  import opened EventFrame
  import opened Framing
  import opened TopicRegistry
  import opened Broker
  import opened BrokerDelivery
  import opened Transport

  /** How many bytes of each connection have arrived at the broker (`up`) and at the client (`down`). */
  datatype ByteState = ByteState(s: State, up: seq<nat>, down: seq<nat>)

  datatype ByteLabel =
    | UpArrives(c: nat, n: nat)
    | DownArrives(c: nat, n: nat)
    | BrokerReads(c: nat, raw: Bytes)
    | ClientReads(c: nat, raw: Bytes)
    | Other(l: Label)

  function UpWire(conn: Conn): Bytes {
    WireAll(conn.sent)
  }

  function DownWire(conn: Conn): Bytes {
    WireAll(Raws(conn.outbox))
  }

  /** Bytes only arrive that were written. */
  ghost predicate Fits(b: ByteState) {
    && |b.up| == |b.s.conns| == |b.down|
    && forall c :: 0 <= c < |b.s.conns| ==> b.up[c] <= |UpWire(b.s.conns[c])| && b.down[c] <= |DownWire(b.s.conns[c])|
  }

  ghost function UpBytes(b: ByteState, c: nat): Bytes
    requires Fits(b) && c < |b.s.conns|
  {
    UpWire(b.s.conns[c])[..b.up[c]]
  }

  ghost function DownBytes(b: ByteState, c: nat): Bytes
    requires Fits(b) && c < |b.s.conns|
  {
    DownWire(b.s.conns[c])[..b.down[c]]
  }

  /** The steps the byte streams replace. */
  predicate IsReceiving(l: Label) {
    l.BrokerReceive? || l.ClientReceive?
  }

  ghost predicate ByteEnabled(b: ByteState, l: ByteLabel)
    requires Fits(b) && Sane(b.s)
  {
    match l
    case UpArrives(c, n) => c < |b.s.conns| && b.up[c] + n <= |UpWire(b.s.conns[c])|
    case DownArrives(c, n) => c < |b.s.conns| && b.down[c] + n <= |DownWire(b.s.conns[c])|
    case BrokerReads(c, raw) =>
      && c < |b.s.conns| && b.s.conns[c].armed && b.s.conns[c].busy.Idle?
      && b.s.conns[c].received < |Messages(UpBytes(b, c))| && raw == Messages(UpBytes(b, c))[b.s.conns[c].received]
      && |raw| >= 3
    case ClientReads(c, raw) =>
      && c < |b.s.conns|
      && b.s.conns[c].got < |Messages(DownBytes(b, c))| && raw == Messages(DownBytes(b, c))[b.s.conns[c].got]
    case Other(l) => Enabled(b.s, l) && !IsReceiving(l) && (l.ClientSend? ==> |l.raw| < WORD)
  }

  /** The handlers work on the bytes that arrived. */
  ghost function ByteStep(b: ByteState, l: ByteLabel): ByteState
    requires Fits(b) && Sane(b.s) && ByteEnabled(b, l)
  {
    match l
    case UpArrives(c, n) => b.(up := b.up[c := b.up[c] + n])
    case DownArrives(c, n) => b.(down := b.down[c := b.down[c] + n])
    case BrokerReads(c, raw) =>
      b.(s := Update(b.s, c, b.s.conns[c].(received := b.s.conns[c].received + 1, busy := Dispatch(Parse(raw).kind))))
    case ClientReads(c, _) => b.(s := Update(b.s, c, b.s.conns[c].(got := b.s.conns[c].got + 1)))
    case Other(l) => b.(s := Step(b.s, l))
  }

  function ByteInit(connections: nat): ByteState {
    ByteState(Init(connections), seq(connections, _ => 0), seq(connections, _ => 0))
  }

  ghost predicate ByteRun(states: seq<ByteState>, labels: seq<ByteLabel>, connections: nat) {
    && |states| == |labels| + 1
    && states[0] == ByteInit(connections)
    && forall k :: 0 <= k < |labels| ==>
         Fits(states[k]) && Sane(states[k].s) && ByteEnabled(states[k], labels[k]) && states[k + 1] == ByteStep(states[k], labels[k])
  }

  // ---------- streams that grow ----------

  lemma {:induction false} WireAllAppend(a: seq<Bytes>, b: seq<Bytes>)
    ensures WireAll(a + b) == WireAll(a) + WireAll(b)
  {
    if a == [] {
      assert a + b == b;
    } else {
      assert (a + b)[0] == a[0] && (a + b)[1..] == a[1..] + b;
      WireAllAppend(a[1..], b);
    }
  }

  /** Writing more or receiving more only adds whole messages at the end. */
  lemma MoreArrived(before: seq<Bytes>, after: seq<Bytes>, m: nat, n: nat)
    requires before <= after && m <= |WireAll(before)| && m <= n
    requires n <= |WireAll(after)|
    ensures m <= |WireAll(after)|
    ensures Messages(WireAll(before)[..m]) <= Messages(WireAll(after)[..n])
  {
    hide WireAll, Messages;
    var rest := after[|before|..];
    assert after == before + rest;
    WireAllAppend(before, rest);
    var more := WireAll(after)[m..n];
    assert WireAll(after)[..n] == WireAll(before)[..m] + more;
    MessagesAppend(WireAll(before)[..m], more);
  }

  /** Whole messages that arrived are the first that were sent. */
  lemma ArrivedWereSent(sent: seq<Bytes>, n: nat, i: nat)
    requires Short(sent) && n <= |WireAll(sent)| && i < |Messages(WireAll(sent)[..n])|
    ensures i < |sent| && Messages(WireAll(sent)[..n])[i] == sent[i]
  {
    hide WireAll, Messages;
    TruncatedStream(sent, n);
  }

  // ---------- the invariant ----------

  /** What connection c has handled has arrived whole, and everything written on it is short enough for its header. */
  ghost predicate StreamOk(b: ByteState, c: nat)
    requires Fits(b) && c < |b.s.conns|
  {
    && Short(b.s.conns[c].sent)
    && Short(Raws(b.s.conns[c].outbox))
    && b.s.conns[c].received <= |Messages(UpBytes(b, c))|
    && b.s.conns[c].got <= |Messages(DownBytes(b, c))|
  }

  ghost predicate ByteOk(b: ByteState) {
    Basic(b.s) && Fits(b) && forall c :: 0 <= c < |b.s.conns| ==> StreamOk(b, c)
  }

  lemma RawsGrow(a: seq<Out>, b: seq<Out>)
    requires a <= b
    ensures Raws(a) <= Raws(b)
  {
  }

  /** All that the broker sends is short if all that clients send is. */
  lemma OutboxShort(s: State, c: nat)
    requires Basic(s) && c < |s.conns| && forall p :: 0 <= p < |s.conns| ==> Short(s.conns[p].sent)
    ensures Short(Raws(s.conns[c].outbox))
  {
    hide Parse;
    var outs := s.conns[c].outbox;
    forall k | 0 <= k < |Raws(outs)|
      ensures |Raws(outs)[k]| < WORD
    {
      assert AllGenuine(s, c) && Genuine(s, outs[k]);
      if outs[k].origin.Published? { assert Short(s.conns[outs[k].origin.p].sent); }
    }
  }

  /** The broker step a byte step stands for, if any. */
  function Projected(l: ByteLabel): seq<Label> {
    match l
    case UpArrives(_, _) => []
    case DownArrives(_, _) => []
    case BrokerReads(c, _) => [BrokerReceive(c)]
    case ClientReads(c, _) => [ClientReceive(c)]
    case Other(l) => [l]
  }

  /** A byte step is that broker step: the message parsed from the bytes is the one that was sent. */
  lemma ByteStepProjects(b: ByteState, l: ByteLabel)
    requires ByteOk(b) && ByteEnabled(b, l)
    ensures if Projected(l) == [] then ByteStep(b, l).s == b.s
            else Enabled(b.s, Projected(l)[0]) && ByteStep(b, l).s == Step(b.s, Projected(l)[0])
  {
    hide Parse, Messages, WireAll, Entries, Registered, Unregistered, Encoded;
    if l.BrokerReads? {
      assert StreamOk(b, l.c);
      ArrivedWereSent(b.s.conns[l.c].sent, b.up[l.c], b.s.conns[l.c].received);
    } else if l.ClientReads? {
      assert StreamOk(b, l.c);
      ArrivedWereSent(Raws(b.s.conns[l.c].outbox), b.down[l.c], b.s.conns[l.c].got);
    }
  }

  /** A broker step leaves what arrived in place and only a client's send adds a message to a stream up. */
  lemma StreamOkStep(b: ByteState, l: ByteLabel, c: nat)
    requires ByteOk(b) && ByteEnabled(b, l) && c < |b.s.conns|
    requires Sane(ByteStep(b, l).s) && |ByteStep(b, l).s.conns| == |b.s.conns| && Extends(b.s.conns[c], ByteStep(b, l).s.conns[c])
    requires Fits(ByteStep(b, l)) && Short(ByteStep(b, l).s.conns[c].sent) && Short(Raws(ByteStep(b, l).s.conns[c].outbox))
    requires ByteStep(b, l).s.conns[c].received == b.s.conns[c].received + (if l.BrokerReads? && l.c == c then 1 else 0)
    requires ByteStep(b, l).s.conns[c].got == b.s.conns[c].got + (if l.ClientReads? && l.c == c then 1 else 0)
    ensures StreamOk(ByteStep(b, l), c)
  {
    hide Parse, Messages, WireAll, Step, Enabled, Update;
    var b' := ByteStep(b, l);
    assert StreamOk(b, c);
    RawsGrow(b.s.conns[c].outbox, b'.s.conns[c].outbox);
    MoreArrived(b.s.conns[c].sent, b'.s.conns[c].sent, b.up[c], b'.up[c]);
    MoreArrived(Raws(b.s.conns[c].outbox), Raws(b'.s.conns[c].outbox), b.down[c], b'.down[c]);
  }

  lemma WireGrows(before: seq<Bytes>, after: seq<Bytes>)
    requires before <= after
    ensures |WireAll(before)| <= |WireAll(after)|
  {
    WireAllAppend(before, after[|before|..]);
    assert after == before + after[|before|..];
  }

  /** What one broker step does to a connection's counters and to what its client has sent. */
  lemma CountersStep(s: State, l: Label, c: nat)
    requires Sane(s) && Enabled(s, l) && c < |s.conns|
    ensures |Step(s, l).conns| == |s.conns|
    ensures Step(s, l).conns[c].received == s.conns[c].received + (if l == BrokerReceive(c) then 1 else 0)
    ensures Step(s, l).conns[c].got == s.conns[c].got + (if l == ClientReceive(c) then 1 else 0)
    ensures Step(s, l).conns[c].sent == if l.ClientSend? && l.c == c then s.conns[c].sent + [l.raw] else s.conns[c].sent
  {
    hide Parse, Encoded, Registered, Unregistered, Entries;
  }

  lemma ArrivalKeepsOk(b: ByteState, l: ByteLabel)
    requires ByteOk(b) && ByteEnabled(b, l) && (l.UpArrives? || l.DownArrives?)
    ensures ByteOk(ByteStep(b, l))
  {
    hide Parse, Messages, WireAll, Step, Enabled, Basic, Update;
    BasicIsSane(b.s);
    var b' := ByteStep(b, l);
    assert Fits(b');
    forall c | 0 <= c < |b.s.conns|
      ensures StreamOk(b', c)
    {
      assert StreamOk(b, c);
      StreamOkStep(b, l, c);
    }
  }

  lemma BrokerStepKeepsOk(b: ByteState, l: ByteLabel)
    requires ByteOk(b) && ByteEnabled(b, l) && Projected(l) != []
    ensures ByteOk(ByteStep(b, l))
  {
    hide Parse, Messages, WireAll, Step, Enabled, Basic, Update;
    BasicIsSane(b.s);
    ByteStepProjects(b, l);
    var b', pl := ByteStep(b, l), Projected(l)[0];
    BasicStep(b.s, pl);
    StepGrows(b.s, pl);
    assert b'.up == b.up && b'.down == b.down;
    forall c | 0 <= c < |b.s.conns|
      ensures b.up[c] <= |UpWire(b'.s.conns[c])| && b.down[c] <= |DownWire(b'.s.conns[c])| && Short(b'.s.conns[c].sent)
    {
      assert StreamOk(b, c) && Extends(b.s.conns[c], b'.s.conns[c]);
      CountersStep(b.s, pl, c);
      WireGrows(b.s.conns[c].sent, b'.s.conns[c].sent);
      RawsGrow(b.s.conns[c].outbox, b'.s.conns[c].outbox);
      WireGrows(Raws(b.s.conns[c].outbox), Raws(b'.s.conns[c].outbox));
    }
    assert Fits(b');
    forall c | 0 <= c < |b.s.conns|
      ensures StreamOk(b', c)
    {
      CountersStep(b.s, pl, c);
      OutboxShort(b'.s, c);
      StreamOkStep(b, l, c);
    }
  }

  lemma ByteOkStep(b: ByteState, l: ByteLabel)
    requires ByteOk(b) && ByteEnabled(b, l)
    ensures ByteOk(ByteStep(b, l))
  {
    hide ByteOk, ByteStep, ByteEnabled;
    if Projected(l) == [] { ArrivalKeepsOk(b, l); } else { BrokerStepKeepsOk(b, l); }
  }

  lemma InitIsOk(connections: nat)
    ensures ByteOk(ByteInit(connections))
  {
    hide Parse;
    var b := ByteInit(connections);
    assert Raws([]) == [];
    assert Basic(b.s);
  }

  lemma OkFits(b: ByteState)
    requires ByteOk(b)
    ensures Fits(b) && Sane(b.s)
  {
  }

  lemma {:induction false} ByteRunOk(states: seq<ByteState>, labels: seq<ByteLabel>, connections: nat, k: nat)
    requires ByteRun(states, labels, connections) && k < |states|
    ensures ByteOk(states[k])
  {
    hide ByteOk, ByteStep, ByteEnabled, Fits, Sane;
    if k == 0 {
      InitIsOk(connections);
    } else {
      ByteRunOk(states, labels, connections, k - 1);
      ByteOkStep(states[k - 1], labels[k - 1]);
    }
  }

  // ---------- runs over bytes are runs over messages ----------

  lemma RunSnoc(states: seq<State>, labels: seq<Label>, connections: nat, l: Label, s': State)
    requires Run(states, labels, connections)
    requires Sane(states[|labels|]) && Enabled(states[|labels|], l) && s' == Step(states[|labels|], l)
    ensures Run(states + [s'], labels + [l], connections)
  {
    hide Step, Enabled, Sane;
    var states', labels' := states + [s'], labels + [l];
    forall k | 0 <= k < |labels'|
      ensures Sane(states'[k]) && Enabled(states'[k], labels'[k]) && states'[k + 1] == Step(states'[k], labels'[k])
    {
      if k < |labels| { assert states'[k] == states[k] && labels'[k] == labels[k] && states'[k + 1] == states[k + 1]; }
    }
  }

  function Projection(labels: seq<ByteLabel>): seq<Label> {
    if labels == [] then [] else Projection(labels[..|labels| - 1]) + Projected(labels[|labels| - 1])
  }

  /** Every run over bytes is a run over whole messages that ends in the same state of broker and clients. */
  lemma {:induction false} ByteRunProjects(states: seq<ByteState>, labels: seq<ByteLabel>, connections: nat) returns (whole: seq<State>)
    requires ByteRun(states, labels, connections)
    ensures Run(whole, Projection(labels), connections) && whole[|Projection(labels)|] == states[|labels|].s
  {
    hide ByteOk, ByteStep, ByteEnabled, Fits, Sane, Step, Enabled, Projected;
    var n := |labels| - 1;
    if labels == [] {
      whole := [Init(connections)];
    } else {
      ByteRunOk(states, labels, connections, n);
      assert ByteRun(states[..n + 1], labels[..n], connections);
      whole := ByteRunProjects(states[..n + 1], labels[..n], connections);
      ByteStepProjects(states[n], labels[n]);
      OneOrNone(labels[n]);
      if Projected(labels[n]) == [] {
        assert Projection(labels) == Projection(labels[..n]) + [] == Projection(labels[..n]);
      } else {
        var l := Projected(labels[n])[0];
        RunSnoc(whole, Projection(labels[..n]), connections, l, states[n + 1].s);
        whole := whole + [states[n + 1].s];
      }
    }
  }

  lemma OneOrNone(l: ByteLabel)
    ensures Projected(l) == [] || Projected(l) == [Projected(l)[0]]
  {
  }

  /** What a client has handled are the first whole messages in the bytes that arrived. */
  lemma GotFromBytes(b: ByteState, c: nat)
    requires ByteOk(b) && c < |b.s.conns|
    ensures Fits(b) && b.s.conns[c].got <= |Messages(DownBytes(b, c))| && b.s.conns[c].got <= |b.s.conns[c].outbox|
    ensures Raws(Got(b.s.conns[c])) == Messages(DownBytes(b, c))[..b.s.conns[c].got]
  {
    hide Parse, Messages, WireAll;
    assert StreamOk(b, c) && WellFormed(b.s.conns[c]);
    forall i | 0 <= i < b.s.conns[c].got
      ensures Messages(DownBytes(b, c))[i] == Raws(Got(b.s.conns[c]))[i]
    {
      ArrivedWereSent(Raws(b.s.conns[c].outbox), b.down[c], i);
    }
  }

  /**
   End to end over bytes cut anywhere: whatever calls and callbacks both transports went through, however bytes
   arrived and broker and clients interleaved, the subscriber's handler, given the whole messages among the bytes that
   arrived, was given of this publisher a contiguous block of what its application published over the connection.
   */
  lemma PublishedReachesHandlerByBytes(
      states: seq<ByteState>, labels: seq<ByteLabel>, connections: nat, c: nat, p: nat, topic: Topic,
      subscriber: seq<Event>, publisher: seq<Event>)
    requires ByteRun(states, labels, connections) && c < connections && p < connections
    requires |states[|labels|].s.conns| == connections && Fits(states[|labels|])
    requires states[|labels|].s.conns[c].sent == Reached(topic, subscriber).sent
    requires states[|labels|].s.conns[p].sent == Reached(topic, publisher).sent
    requires states[|labels|].s.conns[c].got <= |Messages(DownBytes(states[|labels|], c))|
    requires Arrived(topic, subscriber) == Messages(DownBytes(states[|labels|], c))[..states[|labels|].s.conns[c].got]
    ensures var last := states[|labels|].s;
      && WellFormed(last.conns[c]) && Sorted(Got(last.conns[c])) && HeardOnly(last, Got(last.conns[c]), topic)
      && Reached(topic, subscriber).messages == Payloads(Calls(Got(last.conns[c])))
      && exists from: nat :: IsPayloadBlock(CallsFrom(Calls(Got(last.conns[c])), p), Accepted(topic, publisher), from)
  {
    hide Parse, Encoded, Messages, WireAll, Step, Enabled, Calls, CallsFrom, Reached, Accepted, Arrived, IsPayloadBlock, HeardOnly,
         ByteStep, ByteEnabled;
    var last := states[|labels|];
    ByteRunOk(states, labels, connections, |labels|);
    assert WellFormed(last.s.conns[c]);
    GotFromBytes(last, c);
    var whole := ByteRunProjects(states, labels, connections);
    PublishedReachesHandler(whole, Projection(labels), connections, c, p, topic, subscriber, publisher);
  }
}
