/**
 The broker, its connections and their clients as interleaved steps. Messages travel whole and in the order
 their writes were initiated, as the framing makes them. Each connection's callbacks run one after the other,
 because its receive is re-armed only when a callback has returned; different connections run in parallel.
 The shared lock of `route` is held from RouteBegin to RouteEnd; the exclusive sections of `regist` and
 `unregist` are single steps that need it free.
 */
module Broker {
  import opened EventFrame
  import opened TopicRegistry

  /** What the broker is doing for a connection; the message at work is the last one received from it. */
  datatype Busy = Idle | Registering | OweAck | Unregistering | RouteStart | Routing(pos: nat)

  /** Where a frame the broker sent comes from: message i of connection p, or the broker itself. */
  datatype Origin = Published(p: nat, i: nat) | Acknowledgement

  datatype Out = Out(raw: Bytes, origin: Origin)

  /** A client with its session: all it sent, how much of it the broker received, all the broker sent back, how much of that it received. */
  datatype Conn = Conn(sent: seq<Bytes>, received: nat, armed: bool, busy: Busy, outbox: seq<Out>, got: nat)

  datatype State = State(table: Table, conns: seq<Conn>)

  datatype Label =
    | ClientSend(c: nat, raw: Bytes)
    | BrokerReceive(c: nat)
    | ReceiveFails(c: nat)
    | DoRegist(c: nat)
    | SendAck(c: nat)
    | DoUnregist(c: nat)
    | RouteBegin(c: nat)
    | RouteSend(c: nat)
    | RouteEnd(c: nat)
    | ClientReceive(c: nat)

  function Init(connections: nat): State {
    State(map[], seq(connections, _ => Conn([], 0, true, Idle, [], 0)))
  }

  /** The message at work. */
  function Work(conn: Conn): Bytes
    requires 0 < conn.received <= |conn.sent|
  {
    conn.sent[conn.received - 1]
  }

  ghost predicate WellFormed(conn: Conn) {
    && conn.received <= |conn.sent| && conn.got <= |conn.outbox|
    && (forall i :: 0 <= i < |conn.sent| ==> |conn.sent[i]| >= 3)
    && (conn.busy.Registering? || conn.busy.OweAck? || conn.busy.RouteStart? || conn.busy.Routing? ==> conn.received > 0)
  }

  ghost predicate Sane(s: State) {
    forall c :: 0 <= c < |s.conns| ==> WellFormed(s.conns[c])
  }

  function TopicAtWork(conn: Conn): Topic
    requires WellFormed(conn) && conn.received > 0
  {
    Parse(Work(conn)).topic
  }

  /** No shared lock is held. */
  ghost predicate Unlocked(s: State) {
    forall c :: 0 <= c < |s.conns| ==> !s.conns[c].busy.Routing?
  }

  /** The session object is gone: its receive has failed and the failure handler has returned. */
  predicate Expired(conn: Conn) {
    !conn.armed && conn.busy.Idle?
  }

  /** The list a route in progress walks; the lock keeps it as it is. */
  function Targets(s: State, c: nat): seq<Session>
    requires c < |s.conns| && WellFormed(s.conns[c]) && s.conns[c].received > 0
  {
    Entries(s.table, TopicAtWork(s.conns[c]))
  }

  ghost predicate Enabled(s: State, l: Label)
    requires Sane(s)
  {
    && l.c < |s.conns|
    && var conn := s.conns[l.c];
    match l
    case ClientSend(_, raw) => |raw| >= 3
    case BrokerReceive(_) => conn.armed && conn.busy.Idle? && conn.received < |conn.sent|
    case ReceiveFails(_) => conn.armed && conn.busy.Idle?
    case DoRegist(_) => conn.busy.Registering? && Unlocked(s)
    case SendAck(_) => conn.busy.OweAck?
    case DoUnregist(_) => conn.busy.Unregistering? && Unlocked(s)
    case RouteBegin(_) => conn.busy.RouteStart?
    case RouteSend(_) =>
      && conn.busy.Routing? && conn.busy.pos < |Targets(s, l.c)|
      && Targets(s, l.c)[conn.busy.pos] < |s.conns|
    case RouteEnd(_) => conn.busy.Routing? && conn.busy.pos >= |Targets(s, l.c)|
    case ClientReceive(_) => conn.got < |conn.outbox|
  }

  /** The branch `onReceive` takes on a frame type. */
  function Dispatch(kind: Byte): Busy {
    if kind == REGIST then Registering
    else if kind == UNREGIST then Unregistering
    else if kind == DATA then RouteStart
    else Idle
  }

  /** The DATA frame `route` builds from the message at work. */
  function RoutedFrame(conn: Conn): Bytes
    requires WellFormed(conn) && conn.received > 0
  {
    Encoded(Frame(Parse(Work(conn)).topic, DATA, Parse(Work(conn)).payload))
  }

  function Update(s: State, c: nat, conn: Conn): State
    requires c < |s.conns|
  {
    s.(conns := s.conns[c := conn])
  }

  function Sent(conn: Conn, out: Out): Conn {
    conn.(outbox := conn.outbox + [out])
  }

  /** `session->send(bytesFrame)` for a session that still exists. */
  function Deliver(s: State, target: nat, out: Out): State
    requires target < |s.conns|
  {
    if Expired(s.conns[target]) then s else Update(s, target, Sent(s.conns[target], out))
  }

  function Finish(s: State, c: nat, busy: Busy): State
    requires c < |s.conns|
  {
    Update(s, c, s.conns[c].(busy := busy))
  }

  ghost function Step(s: State, l: Label): State
    requires Sane(s) && Enabled(s, l)
  {
    var conn := s.conns[l.c];
    match l
    case ClientSend(c, raw) => Update(s, c, conn.(sent := conn.sent + [raw]))
    case BrokerReceive(c) =>
      Update(s, c, conn.(received := conn.received + 1, busy := Dispatch(Parse(conn.sent[conn.received]).kind)))
    case ReceiveFails(c) => Update(s, c, conn.(armed := false, busy := Unregistering))
    case DoRegist(c) => Finish(s, c, OweAck).(table := Registered(s.table, TopicAtWork(conn), c))
    case SendAck(c) =>
      Finish(Update(s, c, Sent(conn, Out(Encoded(Frame(TopicAtWork(conn), ACK, [])), Acknowledgement))), c, Idle)
    case DoUnregist(c) => Finish(s, c, Idle).(table := Unregistered(s.table, c))
    case RouteBegin(c) => Finish(s, c, Routing(0))
    case RouteSend(c) =>
      Finish(Deliver(s, Targets(s, c)[conn.busy.pos], Out(RoutedFrame(conn), Published(c, conn.received - 1))),
             c, Routing(conn.busy.pos + 1))
    case RouteEnd(c) => Finish(s, c, Idle)
    case ClientReceive(c) => Update(s, c, conn.(got := conn.got + 1))
  }

  ghost predicate Run(states: seq<State>, labels: seq<Label>, connections: nat) {
    && |states| == |labels| + 1
    && states[0] == Init(connections)
    && forall k :: 0 <= k < |labels| ==>
         Sane(states[k]) && Enabled(states[k], labels[k]) && states[k + 1] == Step(states[k], labels[k])
  }

  // ---------- what every step keeps ----------

  /** The handler running fits the message at work. */
  ghost predicate BusyFits(conn: Conn)
    requires WellFormed(conn)
  {
    && (conn.busy.Registering? || conn.busy.OweAck? ==> Parse(Work(conn)).kind == REGIST)
    && (conn.busy.RouteStart? || conn.busy.Routing? ==> Parse(Work(conn)).kind == DATA)
    && (!conn.armed ==> conn.busy.Idle? || conn.busy.Unregistering?)
  }

  /** A frame sent on is byte for byte the DATA message it came from; what the broker sends of its own is an ACK. */
  ghost predicate Genuine(s: State, out: Out) {
    && |out.raw| >= 3
    && (out.origin.Acknowledgement? ==> Parse(out.raw).kind == ACK && |out.raw| == 3)
    && (out.origin.Published? ==>
      && out.origin.p < |s.conns|
      && out.origin.i < s.conns[out.origin.p].received <= |s.conns[out.origin.p].sent|
      && out.raw == s.conns[out.origin.p].sent[out.origin.i]
      && Parse(out.raw).kind == DATA)
  }

  ghost predicate AllGenuine(s: State, c: nat)
    requires c < |s.conns|
  {
    forall k :: 0 <= k < |s.conns[c].outbox| ==> Genuine(s, s.conns[c].outbox[k])
  }

  ghost predicate HasFrom(outs: seq<Out>, origin: Origin) {
    exists k :: 0 <= k < |outs| && outs[k].origin == origin
  }

  /** A route in progress has served the targets it has passed. */
  ghost predicate RouteProgress(s: State, p: nat)
    requires Sane(s) && p < |s.conns|
  {
    var conn := s.conns[p];
    conn.busy.Routing? ==>
      && conn.busy.pos <= |Targets(s, p)|
      && forall j :: 0 <= j < conn.busy.pos ==>
           Targets(s, p)[j] < |s.conns| && HasFrom(s.conns[Targets(s, p)[j]].outbox, Published(p, conn.received - 1))
  }

  /** Sessions in the table exist. */
  ghost predicate TableLive(s: State) {
    forall topic: Topic :: forall x :: x in Entries(s.table, topic) ==> x < |s.conns| && !Expired(s.conns[x])
  }

  ghost predicate Basic(s: State) {
    && Sane(s)
    && TableLive(s)
    && (forall c :: 0 <= c < |s.conns| ==> BusyFits(s.conns[c]) && AllGenuine(s, c) && RouteProgress(s, c))
    && (forall c :: 0 <= c < |s.conns| && s.conns[c].busy.OweAck? ==> c in Targets(s, c))
  }

  ghost predicate Extends(before: Conn, after: Conn) {
    && before.sent <= after.sent && before.received <= after.received && before.outbox <= after.outbox
  }

  lemma OneConnStep(s: State, l: Label, c: nat)
    requires Sane(s) && Enabled(s, l) && c < |s.conns|
    ensures |Step(s, l).conns| == |s.conns|
    ensures WellFormed(Step(s, l).conns[c]) && Extends(s.conns[c], Step(s, l).conns[c])
    ensures c != l.c ==> Step(s, l).conns[c] == s.conns[c].(outbox := Step(s, l).conns[c].outbox)
    ensures !l.DoRegist? && !l.DoUnregist? ==> Step(s, l).table == s.table
  {
    hide Parse, Encoded, Registered, Unregistered, Entries;
    assert WellFormed(s.conns[l.c]);
    assert WellFormed(s.conns[c]);
  }

  /** Nothing sent, received or delivered is ever taken back, and a step changes no other connection's handler. */
  lemma StepGrows(s: State, l: Label)
    requires Sane(s) && Enabled(s, l)
    ensures Sane(Step(s, l)) && |Step(s, l).conns| == |s.conns|
    ensures forall c :: 0 <= c < |s.conns| ==> Extends(s.conns[c], Step(s, l).conns[c])
    ensures forall c :: 0 <= c < |s.conns| && c != l.c ==> Step(s, l).conns[c] == s.conns[c].(outbox := Step(s, l).conns[c].outbox)
    ensures !l.DoRegist? && !l.DoUnregist? ==> Step(s, l).table == s.table
  {
    hide Step, WellFormed, Extends;
    var s' := Step(s, l);
    OneConnStep(s, l, l.c);
    forall c | 0 <= c < |s.conns|
      ensures WellFormed(s'.conns[c]) && Extends(s.conns[c], s'.conns[c])
      ensures c != l.c ==> s'.conns[c] == s.conns[c].(outbox := s'.conns[c].outbox)
    {
      OneConnStep(s, l, c);
    }
  }

  lemma GenuineKept(s: State, s': State, out: Out)
    requires |s'.conns| == |s.conns| && Genuine(s, out)
    requires forall c :: 0 <= c < |s.conns| ==> Extends(s.conns[c], s'.conns[c]) && s'.conns[c].received <= |s'.conns[c].sent|
    ensures Genuine(s', out)
  {
    hide Parse;
    if out.origin.Published? {
      assert Extends(s.conns[out.origin.p], s'.conns[out.origin.p]);
    }
  }

  /** Routing a DATA message sends it on unchanged. */
  lemma RoutedIsWork(conn: Conn)
    requires WellFormed(conn) && conn.received > 0 && Parse(Work(conn)).kind == DATA
    ensures RoutedFrame(conn) == Work(conn)
  {
    hide Parse, Encoded;
    EncodedParse(Work(conn));
  }

  lemma GenuineStep(s: State, l: Label, c: nat)
    requires Basic(s) && Enabled(s, l) && c < |s.conns|
    ensures |Step(s, l).conns| == |s.conns| && AllGenuine(Step(s, l), c)
  {
    hide Parse, Encoded, Registered, Unregistered, RouteProgress, TableLive, Entries;
    StepGrows(s, l);
    var s' := Step(s, l);
    forall k | 0 <= k < |s'.conns[c].outbox|
      ensures Genuine(s', s'.conns[c].outbox[k])
    {
      if k < |s.conns[c].outbox| {
        assert Genuine(s, s.conns[c].outbox[k]);
        assert Extends(s.conns[c], s'.conns[c]);
        GenuineKept(s, s', s.conns[c].outbox[k]);
      } else if l.RouteSend? {
        assert BusyFits(s.conns[l.c]);
        RoutedIsWork(s.conns[l.c]);
        assert s'.conns[l.c].sent == s.conns[l.c].sent;
      } else {
        AckIsAck(TopicAtWork(s.conns[l.c]));
      }
    }
  }

  lemma AckIsAck(topic: Topic)
    ensures var raw := Encoded(Frame(topic, ACK, []));
      |raw| == 3 && Parse(raw).kind == ACK
  {
    hide Parse;
    ParseEncoded(Frame(topic, ACK, []));
  }

  lemma BusyFitsStep(s: State, l: Label, c: nat)
    requires Basic(s) && Enabled(s, l) && c < |s.conns|
    ensures |Step(s, l).conns| == |s.conns| && WellFormed(Step(s, l).conns[c]) && BusyFits(Step(s, l).conns[c])
  {
    hide Parse, Encoded, Registered, Unregistered, RouteProgress, TableLive, AllGenuine, Entries;
    StepGrows(s, l);
    assert BusyFits(s.conns[c]);
  }

  lemma HasFromKept(outs: seq<Out>, outs': seq<Out>, origin: Origin)
    requires outs <= outs' && HasFrom(outs, origin)
    ensures HasFrom(outs', origin)
  {
    var k :| 0 <= k < |outs| && outs[k].origin == origin;
    assert outs'[k].origin == origin;
  }

  /** A session in the table after a step was there before, or has just registered. */
  lemma TableOnlyGains(s: State, l: Label, topic: Topic, x: Session)
    requires Basic(s) && Enabled(s, l) && x in Entries(Step(s, l).table, topic)
    ensures x in Entries(s.table, topic) || l == DoRegist(x)
  {
    hide Parse, Encoded, RouteProgress, AllGenuine, TableLive, BusyFits, Genuine;
    StepGrows(s, l);
    if l.DoUnregist? { UnregisterRemovesOnly(s.table, l.c, topic); }
  }

  lemma StaysAlive(s: State, l: Label, x: Session)
    requires Basic(s) && Enabled(s, l) && x < |s.conns| && (!Expired(s.conns[x]) || l == DoRegist(x))
    requires l != DoUnregist(x)
    ensures |Step(s, l).conns| == |s.conns| && !Expired(Step(s, l).conns[x])
  {
    hide Parse, Encoded, RouteProgress, AllGenuine, TableLive, Genuine, Registered, Unregistered;
    StepGrows(s, l);
    assert BusyFits(s.conns[x]);
  }

  lemma TableLiveStep(s: State, l: Label)
    requires Basic(s) && Enabled(s, l)
    ensures TableLive(Step(s, l))
  {
    hide Parse, Encoded, RouteProgress, AllGenuine, BusyFits, Step, Genuine;
    StepGrows(s, l);
    var s' := Step(s, l);
    forall topic: Topic
      ensures forall x :: x in Entries(s'.table, topic) ==> x < |s'.conns| && !Expired(s'.conns[x])
    {
      forall x | x in Entries(s'.table, topic)
        ensures x < |s'.conns| && !Expired(s'.conns[x])
      {
        TableOnlyGains(s, l, topic, x);
        if l == DoUnregist(x) {
          UnregisteredIsGone(s, x, topic);
        } else {
          StaysAlive(s, l, x);
        }
      }
    }
  }

  lemma UnregisteredIsGone(s: State, x: Session, topic: Topic)
    requires Sane(s) && Enabled(s, DoUnregist(x))
    ensures x !in Entries(Step(s, DoUnregist(x)).table, topic)
  {
    hide Parse, Encoded;
    UnregisterRemovesOnly(s.table, x, topic);
  }

  /** While p routes on, its targets and its message stay what they are. */
  lemma RoutingUndisturbed(s: State, l: Label, p: nat)
    requires Basic(s) && Enabled(s, l) && p < |s.conns|
    requires s.conns[p].busy.Routing? && l != RouteEnd(p)
    ensures var s' := Step(s, l);
      && Sane(s') && |s'.conns| == |s.conns| && s'.table == s.table
      && s'.conns[p].received == s.conns[p].received && s'.conns[p].received > 0
      && Work(s'.conns[p]) == Work(s.conns[p]) && Targets(s', p) == Targets(s, p)
      && s'.conns[p].busy == (if l == RouteSend(p) then Routing(s.conns[p].busy.pos + 1) else s.conns[p].busy)
  {
    hide Parse, Encoded, Registered, Unregistered, AllGenuine, Entries, RouteProgress, TableLive;
    assert WellFormed(s.conns[p]);
    StepGrows(s, l);
    assert Extends(s.conns[p], Step(s, l).conns[p]);
    assert BusyFits(s.conns[p]);
  }

  lemma RouteSendServes(s: State, p: nat)
    requires Basic(s) && Enabled(s, RouteSend(p))
    ensures var x := Targets(s, p)[s.conns[p].busy.pos];
      var s' := Step(s, RouteSend(p));
      |s'.conns| == |s.conns| && HasFrom(s'.conns[x].outbox, Published(p, s.conns[p].received - 1))
  {
    hide Parse, Encoded, Registered, Unregistered, AllGenuine, Entries, RouteProgress, BusyFits;
    var x := Targets(s, p)[s.conns[p].busy.pos];
    assert !Expired(s.conns[x]);
    var outs := Step(s, RouteSend(p)).conns[x].outbox;
    assert outs[|outs| - 1].origin == Published(p, s.conns[p].received - 1);
  }

  lemma RouteProgressStep(s: State, l: Label, p: nat)
    requires Basic(s) && Enabled(s, l) && p < |s.conns|
    ensures Sane(Step(s, l)) && |Step(s, l).conns| == |s.conns| && RouteProgress(Step(s, l), p)
  {
    StepGrows(s, l);
    if s.conns[p].busy.Routing? && l != RouteEnd(p) {
      RoutingUndisturbed(s, l, p);
      RouteGoesOn(s, l, p);
    } else {
      hide Parse, Encoded, Registered, Unregistered, AllGenuine, Entries, BusyFits, HasFrom, Genuine;
    }
  }

  lemma RouteGoesOn(s: State, l: Label, p: nat)
    requires Basic(s) && Enabled(s, l) && p < |s.conns|
    requires s.conns[p].busy.Routing? && l != RouteEnd(p)
    ensures Sane(Step(s, l)) && |Step(s, l).conns| == |s.conns| && RouteProgress(Step(s, l), p)
  {
    hide Parse, Encoded, Registered, Unregistered, AllGenuine, Entries, BusyFits, HasFrom, Step, TableLive;
    StepGrows(s, l);
    RoutingUndisturbed(s, l, p);
    assert RouteProgress(s, p);
    var s', origin := Step(s, l), Published(p, s.conns[p].received - 1);
    if l == RouteSend(p) { RouteSendServes(s, p); }
    forall j | 0 <= j < s'.conns[p].busy.pos
      ensures Targets(s', p)[j] < |s'.conns| && HasFrom(s'.conns[Targets(s', p)[j]].outbox, origin)
    {
      var x := Targets(s, p)[j];
      if j < s.conns[p].busy.pos {
        assert Extends(s.conns[x], s'.conns[x]);
        HasFromKept(s.conns[x].outbox, s'.conns[x].outbox, origin);
      }
    }
  }

  lemma OweAckStep(s: State, l: Label, c: nat)
    requires Basic(s) && Enabled(s, l) && c < |s.conns|
    ensures Sane(Step(s, l)) && |Step(s, l).conns| == |s.conns|
    ensures Step(s, l).conns[c].busy.OweAck? ==> c in Targets(Step(s, l), c)
  {
    hide Parse, Encoded, AllGenuine, RouteProgress, BusyFits;
    StepGrows(s, l);
    var s' := Step(s, l);
    if s'.conns[c].busy.OweAck? {
      assert s'.conns[c].received == s.conns[c].received && Work(s'.conns[c]) == Work(s.conns[c]);
      var topic := TopicAtWork(s.conns[c]);
      if l.DoUnregist? {
        UnregisterRemovesOnly(s.table, l.c, topic);
        WithoutPresent(Entries(s.table, topic), l.c, c);
      }
    }
  }

  lemma BasicStep(s: State, l: Label)
    requires Basic(s) && Enabled(s, l)
    ensures Basic(Step(s, l))
  {
    hide Parse, Encoded, Registered, Unregistered, AllGenuine, RouteProgress, BusyFits, TableLive, Step, Enabled;
    StepGrows(s, l);
    TableLiveStep(s, l);
    forall c | 0 <= c < |s.conns|
      ensures BusyFits(Step(s, l).conns[c]) && AllGenuine(Step(s, l), c) && RouteProgress(Step(s, l), c)
      ensures Step(s, l).conns[c].busy.OweAck? ==> c in Targets(Step(s, l), c)
    {
      BusyFitsStep(s, l, c);
      GenuineStep(s, l, c);
      RouteProgressStep(s, l, c);
      OweAckStep(s, l, c);
    }
  }

  lemma BasicIsSane(s: State)
    requires Basic(s)
    ensures Sane(s)
  {
  }

  lemma {:induction false} RunBasic(states: seq<State>, labels: seq<Label>, connections: nat, k: nat)
    requires Run(states, labels, connections) && k < |states|
    ensures Basic(states[k]) && |states[k].conns| == connections
  {
    if k > 0 {
      hide Basic, Step, Enabled;
      RunBasic(states, labels, connections, k - 1);
      BasicIsSane(states[k - 1]);
      StepGrows(states[k - 1], labels[k - 1]);
      BasicStep(states[k - 1], labels[k - 1]);
    }
  }

  // ---------- an acknowledged session stays registered and is served ----------

  /** The steps by which a session starts to leave: its receive fails, or an UNREGIST frame of its arrives. */
  ghost predicate Leaves(s: State, l: Label, c: nat)
    requires Sane(s) && Enabled(s, l)
  {
    || l == ReceiveFails(c)
    || (l == BrokerReceive(c) && Parse(s.conns[c].sent[s.conns[c].received]).kind == UNREGIST)
  }

  ghost predicate Subscribed(s: State, c: nat, topic: Topic) {
    c < |s.conns| && c in Entries(s.table, topic) && !s.conns[c].busy.Unregistering?
  }

  /** Only what a session does itself takes it out of the table. */
  lemma SubscribedStep(s: State, l: Label, c: nat, topic: Topic)
    requires Basic(s) && Enabled(s, l) && Subscribed(s, c, topic) && !Leaves(s, l, c)
    ensures Subscribed(Step(s, l), c, topic)
  {
    hide Encoded, Parse, AllGenuine, RouteProgress, BusyFits, TableLive, Genuine;
    StepGrows(s, l);
    if l.DoUnregist? {
      UnregisterRemovesOnly(s.table, l.c, topic);
      WithoutPresent(Entries(s.table, topic), l.c, c);
    }
  }

  /** No step in [from, to) makes c leave. */
  ghost predicate Remains(states: seq<State>, labels: seq<Label>, from: nat, to: nat, c: nat)
    requires to <= |labels| < |states|
    requires forall k :: 0 <= k < |labels| ==> Sane(states[k]) && Enabled(states[k], labels[k])
  {
    forall k :: from <= k < to ==> !Leaves(states[k], labels[k], c)
  }

  lemma {:induction false} StaysSubscribed(states: seq<State>, labels: seq<Label>, connections: nat, from: nat, to: nat, c: nat, topic: Topic)
    requires Run(states, labels, connections) && from <= to <= |labels|
    requires Subscribed(states[from], c, topic) && Remains(states, labels, from, to, c)
    ensures Subscribed(states[to], c, topic)
  {
    hide Step, Enabled, Leaves, Subscribed;
    if from < to {
      StaysSubscribed(states, labels, connections, from, to - 1, c, topic);
      RunBasic(states, labels, connections, to - 1);
      SubscribedStep(states[to - 1], labels[to - 1], c, topic);
    }
  }

  /** The step that sends ACK happens with the session already in the table. */
  lemma AckMeansSubscribed(s: State, c: nat)
    requires Basic(s) && Enabled(s, SendAck(c))
    ensures WellFormed(s.conns[c]) && s.conns[c].received > 0
    ensures Subscribed(Step(s, SendAck(c)), c, TopicAtWork(s.conns[c]))
  {
    hide Encoded, Parse, AllGenuine, RouteProgress, BusyFits, TableLive, Genuine;
    assert WellFormed(s.conns[c]);
    StepGrows(s, SendAck(c));
  }

  /** Once the broker has sent ACK for a topic, the session is in the table under it in every later state until it starts to leave. */
  lemma AckedStaysRegistered(states: seq<State>, labels: seq<Label>, connections: nat, k: nat, to: nat, c: nat)
    requires Run(states, labels, connections) && k < to <= |labels|
    requires labels[k] == SendAck(c) && Remains(states, labels, k + 1, to, c)
    ensures c < |states[k].conns| && WellFormed(states[k].conns[c]) && states[k].conns[c].received > 0
    ensures c in Entries(states[to].table, TopicAtWork(states[k].conns[c]))
  {
    hide Parse, Encoded, Leaves;
    RunBasic(states, labels, connections, k);
    AckMeansSubscribed(states[k], c);
    StaysSubscribed(states, labels, connections, k + 1, to, c, TopicAtWork(states[k].conns[c]));
  }

  /** p is still in the route it was in at `from`. */
  ghost predicate StillRouting(states: seq<State>, labels: seq<Label>, from: nat, to: nat, p: nat)
    requires from <= to <= |labels|
  {
    forall k :: from <= k < to ==> labels[k] != RouteEnd(p)
  }

  lemma {:induction false} RouteKeepsTargets(states: seq<State>, labels: seq<Label>, connections: nat, from: nat, to: nat, p: nat)
    requires Run(states, labels, connections) && from <= to <= |labels| && p < connections
    requires |states[from].conns| == connections && states[from].conns[p].busy.Routing?
    requires StillRouting(states, labels, from, to, p)
    ensures |states[to].conns| == connections && states[to].conns[p].busy.Routing?
    ensures states[to].table == states[from].table
    ensures states[to].conns[p].received == states[from].conns[p].received > 0
    ensures Sane(states[from]) && Sane(states[to]) && Work(states[to].conns[p]) == Work(states[from].conns[p])
  {
    hide Parse, Encoded, Step, Enabled, Entries;
    RunBasic(states, labels, connections, to);
    RunBasic(states, labels, connections, from);
    assert WellFormed(states[from].conns[p]);
    if from < to {
      RouteKeepsTargets(states, labels, connections, from, to - 1, p);
      RunBasic(states, labels, connections, to - 1);
      RoutingUndisturbed(states[to - 1], labels[to - 1], p);
    }
  }

  /** When a route ends, everyone on the list has been sent the frame. */
  lemma RouteEndServedAll(s: State, p: nat, c: nat)
    requires Basic(s) && Enabled(s, RouteEnd(p)) && WellFormed(s.conns[p]) && s.conns[p].received > 0
    requires c in Targets(s, p)
    ensures c < |s.conns| && HasFrom(s.conns[c].outbox, Published(p, s.conns[p].received - 1))
  {
    hide Parse, Encoded, AllGenuine, TableLive, BusyFits, HasFrom, Genuine;
    assert RouteProgress(s, p);
    var j :| 0 <= j < |Targets(s, p)| && Targets(s, p)[j] == c;
  }

  lemma RouteBegins(s: State, p: nat)
    requires Basic(s) && Enabled(s, RouteBegin(p))
    ensures var s' := Step(s, RouteBegin(p));
      && |s'.conns| == |s.conns| && s'.conns[p].busy.Routing? && WellFormed(s'.conns[p])
      && s'.conns[p].received == s.conns[p].received > 0 && Work(s'.conns[p]) == Work(s.conns[p])
  {
    hide Parse, Encoded, Entries, RouteProgress, TableLive, BusyFits, AllGenuine;
    assert WellFormed(s.conns[p]);
  }

  lemma GenuineFrom(s: State, c: nat, origin: Origin)
    requires Basic(s) && c < |s.conns| && origin.Published? && HasFrom(s.conns[c].outbox, origin)
    ensures origin.p < |s.conns| && origin.i < |s.conns[origin.p].sent|
    ensures Out(s.conns[origin.p].sent[origin.i], origin) in s.conns[c].outbox
  {
    hide Parse, Encoded, Entries, RouteProgress, TableLive, BusyFits;
    var outs := s.conns[c].outbox;
    var j :| 0 <= j < |outs| && outs[j].origin == origin;
    assert AllGenuine(s, c) && Genuine(s, outs[j]);
    assert outs[j] == Out(s.conns[origin.p].sent[origin.i], origin);
  }

  /** Every route on the topic that begins between the ACK and the session's leaving sends it the published message itself. */
  lemma AckedGetsEveryRoute(
      states: seq<State>, labels: seq<Label>, connections: nat, k: nat, begin: nat, end: nat, c: nat, p: nat)
    requires Run(states, labels, connections) && k < begin < end < |labels|
    requires labels[k] == SendAck(c) && Remains(states, labels, k + 1, begin + 1, c)
    requires labels[begin] == RouteBegin(p) && labels[end] == RouteEnd(p) && StillRouting(states, labels, begin + 1, end, p)
    requires c < connections && |states[k].conns| == connections && states[k].conns[c].received > 0
    requires p < connections && |states[begin].conns| == connections && states[begin].conns[p].received > 0
    requires TopicAtWork(states[begin].conns[p]) == TopicAtWork(states[k].conns[c])
    ensures |states[end].conns| == connections
    ensures Out(Work(states[begin].conns[p]), Published(p, states[begin].conns[p].received - 1)) in states[end].conns[c].outbox
  {
    hide Parse, Encoded, Leaves, Entries, Step, RouteProgress, TableLive, BusyFits, HasFrom, AllGenuine;
    AckedStaysRegistered(states, labels, connections, k, begin + 1, c);
    RunBasic(states, labels, connections, begin);
    RouteBegins(states[begin], p);
    RunBasic(states, labels, connections, begin + 1);
    RouteKeepsTargets(states, labels, connections, begin + 1, end, p);
    RunBasic(states, labels, connections, end);
    RouteEndServedAll(states[end], p, c);
    GenuineFrom(states[end], c, Published(p, states[begin].conns[p].received - 1));
  }
}
