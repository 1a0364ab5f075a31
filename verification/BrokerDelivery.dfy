/** What a session that registers once hears of each publisher: a block of its messages without gap, repetition or change. */
module BrokerDelivery {
  import opened EventFrame
  import opened TopicRegistry
  import opened Broker

  predicate IsDataOn(raw: Bytes, topic: Topic) {
    |raw| >= 3 && Parse(raw).kind == DATA && Parse(raw).topic == topic
  }

  /** The positions of the DATA messages on a topic among those a client sent. */
  function PublishedOn(sent: seq<Bytes>, topic: Topic): (r: seq<nat>)
    ensures forall k :: 0 <= k < |r| ==> r[k] < |sent|
  {
    if sent == [] then []
    else
      var n := |sent| - 1;
      PublishedOn(sent[..n], topic) + (if IsDataOn(sent[n], topic) then [n] else [])
  }

  /** The positions of p's messages among the frames sent to a session, in the order they were sent to it. */
  function HeardOf(outs: seq<Out>, p: nat): seq<nat> {
    if outs == [] then []
    else
      var n := |outs| - 1;
      HeardOf(outs[..n], p)
      + (if outs[n].origin.Published? && outs[n].origin.p == p then [outs[n].origin.i] else [])
  }

  /** The topics of the REGIST messages a client sent. */
  function Registrations(sent: seq<Bytes>): seq<Topic> {
    if sent == [] then []
    else
      var n := |sent| - 1;
      Registrations(sent[..n])
      + (if |sent[n]| >= 3 && Parse(sent[n]).kind == REGIST then [Parse(sent[n]).topic] else [])
  }

  function Seen(conn: Conn): seq<Bytes>
    requires conn.received <= |conn.sent|
  {
    conn.sent[..conn.received]
  }

  // ---------- a session that registers once ----------

  ghost predicate NotYetRegistered(conn: Conn)
    requires WellFormed(conn)
  {
    Registrations(Seen(conn)) == [] || conn.busy.Registering?
  }

  ghost predicate AtMostOnce(list: seq<Session>, c: Session) {
    forall j, k :: 0 <= j < k < |list| ==> list[j] != c || list[k] != c
  }

  ghost predicate OnTopic(outs: seq<Out>, topic: Topic) {
    forall k :: 0 <= k < |outs| && outs[k].origin.Published? ==> IsDataOn(outs[k].raw, topic)
  }

  /** All that c, registering once and for this topic, is in the table for. */
  ghost predicate SingleEntry(s: State, c: nat, topic: Topic)
    requires Sane(s) && c < |s.conns|
  {
    && Registrations(Seen(s.conns[c])) <= [topic]
    && (forall other: Topic :: c in Entries(s.table, other) ==> other == topic && !NotYetRegistered(s.conns[c]))
    && AtMostOnce(Entries(s.table, topic), c)
    && OnTopic(s.conns[c].outbox, topic)
  }

  lemma {:induction false} WithoutOnce(list: seq<Session>, x: Session, c: Session)
    requires AtMostOnce(list, c)
    ensures AtMostOnce(Without(list, x), c)
  {
    if list != [] {
      var n := |list| - 1;
      WithoutOnce(list[..n], x, c);
      if c in list[..n] { assert list[n] != c; }
    }
  }

  /** What receiving one more message adds. */
  lemma SeenMore(conn: Conn)
    requires conn.received < |conn.sent|
    ensures var seen, raw := Seen(conn), conn.sent[conn.received];
      var more := Seen(conn.(received := conn.received + 1));
      && more == seen + [raw] && more[..|more| - 1] == seen
      && Registrations(more) == Registrations(seen) + (if |raw| >= 3 && Parse(raw).kind == REGIST then [Parse(raw).topic] else [])
      && forall topic: Topic :: PublishedOn(more, topic) == PublishedOn(seen, topic) + (if IsDataOn(raw, topic) then [conn.received] else [])
  {
    hide Parse;
    var more := Seen(conn.(received := conn.received + 1));
    assert more[..|more| - 1] == Seen(conn);
  }

  /** Any step but receiving leaves what was received from c as it was. */
  lemma SeenSame(s: State, l: Label, c: nat)
    requires Sane(s) && Enabled(s, l) && c < |s.conns| && l != BrokerReceive(c)
    ensures |Step(s, l).conns| == |s.conns| && WellFormed(Step(s, l).conns[c])
    ensures Step(s, l).conns[c].received == s.conns[c].received && Seen(Step(s, l).conns[c]) == Seen(s.conns[c])
  {
    hide Parse, Encoded, Registered, Unregistered, Entries;
    StepGrows(s, l);
    assert Extends(s.conns[c], Step(s, l).conns[c]);
  }

  /** A message being handled is the last one received. */
  lemma WorkIsLastSeen(conn: Conn)
    requires WellFormed(conn) && BusyFits(conn) && conn.received > 0
    ensures conn.busy.Registering? ==> Registrations(Seen(conn)) != [] && Registrations(Seen(conn))[|Registrations(Seen(conn))| - 1] == TopicAtWork(conn)
    ensures conn.busy.RouteStart? || conn.busy.Routing? ==>
      var d := PublishedOn(Seen(conn), TopicAtWork(conn)); |d| > 0 && d[|d| - 1] == conn.received - 1
  {
    hide Parse;
    var seen := Seen(conn);
    assert seen[|seen| - 1] == Work(conn);
  }

  // ---------- that session's place in the table ----------

  /** How a step changes whether c is still to be registered. */
  lemma NotYetStep(s: State, l: Label, c: nat, topic: Topic)
    requires Basic(s) && Enabled(s, l) && c < |s.conns|
    ensures Sane(Step(s, l)) && |Step(s, l).conns| == |s.conns|
    ensures Registrations(Seen(s.conns[c])) <= Registrations(Seen(Step(s, l).conns[c]))
    ensures |Registrations(Seen(Step(s, l).conns[c]))| <= 1 && l != DoRegist(c) ==>
      NotYetRegistered(Step(s, l).conns[c]) == NotYetRegistered(s.conns[c])
    ensures l == DoRegist(c) ==> NotYetRegistered(s.conns[c]) && !NotYetRegistered(Step(s, l).conns[c])
  {
    hide Parse, Encoded, Registered, Unregistered, Entries, Registrations, RouteProgress, AllGenuine, TableLive;
    StepGrows(s, l);
    assert BusyFits(s.conns[c]) && WellFormed(s.conns[c]);
    if l == BrokerReceive(c) {
      SeenMore(s.conns[c]);
    } else {
      SeenSame(s, l, c);
      if s.conns[c].busy.Registering? { WorkIsLastSeen(s.conns[c]); }
    }
  }

  lemma SingleTableStep(s: State, l: Label, c: nat, topic: Topic, other: Topic)
    requires Basic(s) && Enabled(s, l) && c < |s.conns| && SingleEntry(s, c, topic)
    ensures AtMostOnce(Entries(Step(s, l).table, topic), c)
    ensures l != DoRegist(c) && c in Entries(Step(s, l).table, other) ==> c in Entries(s.table, other)
    ensures l == DoRegist(c) ==> other != topic ==> c !in Entries(Step(s, l).table, other)
  {
    hide Parse, Encoded, Registrations, RouteProgress, AllGenuine, TableLive, BusyFits, Genuine, OnTopic;
    StepGrows(s, l);
    if l.DoUnregist? {
      UnregisterRemovesOnly(s.table, l.c, topic);
      UnregisterRemovesOnly(s.table, l.c, other);
      WithoutOnce(Entries(s.table, topic), l.c, c);
    }
    if l == DoRegist(c) {
      RegistersTopic(s, c, topic);
    }
  }

  /** The one registration c asks for is for its topic, and the table did not have it yet. */
  lemma RegistersTopic(s: State, c: nat, topic: Topic)
    requires Basic(s) && Enabled(s, DoRegist(c)) && SingleEntry(s, c, topic)
    ensures WellFormed(s.conns[c]) && s.conns[c].received > 0 && TopicAtWork(s.conns[c]) == topic
    ensures forall other: Topic :: c !in Entries(s.table, other)
  {
    hide Parse, Encoded, Registrations, RouteProgress, AllGenuine, TableLive;
    assert WellFormed(s.conns[c]) && BusyFits(s.conns[c]);
    WorkIsLastSeen(s.conns[c]);
  }

  lemma OnTopicStep(s: State, l: Label, c: nat, topic: Topic)
    requires Basic(s) && Enabled(s, l) && c < |s.conns| && SingleEntry(s, c, topic)
    ensures |Step(s, l).conns| == |s.conns| && OnTopic(Step(s, l).conns[c].outbox, topic)
  {
    hide Parse, Encoded, Registrations, RouteProgress, AllGenuine, TableLive, Registered, Unregistered;
    assert WellFormed(s.conns[c]) && WellFormed(s.conns[l.c]);
    StepGrows(s, l);
    if l.RouteSend? {
      assert BusyFits(s.conns[l.c]);
      RoutedIsWork(s.conns[l.c]);
      var x := Targets(s, l.c)[s.conns[l.c].busy.pos];
      if x == c {
        assert c in Entries(s.table, TopicAtWork(s.conns[l.c]));
        assert IsDataOn(RoutedFrame(s.conns[l.c]), topic);
      }
    }
  }

  lemma SingleEntryStep(s: State, l: Label, c: nat, topic: Topic)
    requires Basic(s) && Enabled(s, l) && c < |s.conns| && SingleEntry(s, c, topic)
    requires |Step(s, l).conns| == |s.conns| && Sane(Step(s, l))
    requires Registrations(Seen(Step(s, l).conns[c])) <= [topic]
    ensures SingleEntry(Step(s, l), c, topic)
  {
    hide Parse, Encoded, Registrations, Step, NotYetRegistered, AtMostOnce, OnTopic, Entries;
    var s' := Step(s, l);
    NotYetStep(s, l, c, topic);
    OnTopicStep(s, l, c, topic);
    SingleTableStep(s, l, c, topic, topic);
    forall other: Topic | c in Entries(s'.table, other)
      ensures other == topic && !NotYetRegistered(s'.conns[c])
    {
      SingleTableStep(s, l, c, topic, other);
    }
  }

  // ---------- what it has been sent of one publisher ----------

  /** p is handling a DATA message on the topic and has not passed c yet. */
  ghost predicate Pending(s: State, c: nat, p: nat, topic: Topic)
    requires Sane(s) && p < |s.conns|
  {
    var conn := s.conns[p];
    || (conn.busy.RouteStart? && TopicAtWork(conn) == topic)
    || (conn.busy.Routing? && TopicAtWork(conn) == topic
        && conn.busy.pos <= |Targets(s, p)| && c in Targets(s, p)[conn.busy.pos..])
  }

  ghost predicate IsBlock(heard: seq<nat>, published: seq<nat>, from: nat) {
    from + |heard| <= |published| && heard == published[from..from + |heard|]
  }

  /** The part of `published` that has been offered to a registered session. */
  function Offered(published: seq<nat>, pending: bool): nat {
    if pending && |published| > 0 then |published| - 1 else |published|
  }

  /** Before registration nothing; while registered a block that reaches up to the last message offered; afterwards still a block. */
  ghost predicate HeardFits(published: seq<nat>, heard: seq<nat>, pending: bool, member: bool, notYet: bool) {
    if notYet then heard == []
    else if member then |heard| <= Offered(published, pending) && IsBlock(heard, published, Offered(published, pending) - |heard|)
    else exists from: nat :: IsBlock(heard, published, from)
  }

  ghost predicate HeardOk(s: State, c: nat, p: nat, topic: Topic)
    requires Sane(s) && c < |s.conns| && p < |s.conns|
  {
    HeardFits(
      PublishedOn(Seen(s.conns[p]), topic), HeardOf(s.conns[c].outbox, p),
      Pending(s, c, p, topic), c in Entries(s.table, topic), NotYetRegistered(s.conns[c]))
  }

  /** The publisher receives one more message while the session is as it was. */
  lemma FitsMore(published: seq<nat>, heard: seq<nat>, member: bool, notYet: bool, i: nat)
    requires HeardFits(published, heard, false, member, notYet)
    ensures HeardFits(published + [i], heard, true, member, notYet)
    ensures !member ==> HeardFits(published + [i], heard, false, member, notYet)
  {
    if !notYet && !member {
      var from: nat :| IsBlock(heard, published, from);
      assert IsBlock(heard, published + [i], from);
    }
  }

  lemma FitsHeard(published: seq<nat>, heard: seq<nat>, i: nat)
    requires |published| > 0 && published[|published| - 1] == i
    requires HeardFits(published, heard, true, true, false)
    ensures HeardFits(published, heard + [i], false, true, false)
  {
  }

  lemma FitsNotMember(published: seq<nat>, heard: seq<nat>, pending: bool, member: bool, notYet: bool, pending': bool)
    requires HeardFits(published, heard, pending, member, notYet)
    ensures HeardFits(published, heard, pending', false, notYet)
  {
    if !notYet && member {
      assert IsBlock(heard, published, Offered(published, pending) - |heard|);
    }
  }

  /** The only frames a step sends to c. */
  lemma OutboxStep(s: State, l: Label, c: nat) returns (added: seq<Out>)
    requires Basic(s) && Enabled(s, l) && c < |s.conns|
    ensures |Step(s, l).conns| == |s.conns| && Step(s, l).conns[c].outbox == s.conns[c].outbox + added
    ensures if l.RouteSend? && Targets(s, l.c)[s.conns[l.c].busy.pos] == c
            then |added| == 1 && added[0].origin == Origin.Published(l.c, s.conns[l.c].received - 1)
            else |added| == 0 || (|added| == 1 && added[0].origin == Acknowledgement)
  {
    hide Parse, Encoded, Registered, Unregistered, Entries, RouteProgress, AllGenuine, BusyFits, Genuine;
    if l.RouteSend? { assert !Expired(s.conns[Targets(s, l.c)[s.conns[l.c].busy.pos]]); }
    added := Step(s, l).conns[c].outbox[|s.conns[c].outbox|..];
  }

  /** Only a step of p's own route adds something of p to what c was sent. */
  lemma HeardStep(s: State, l: Label, c: nat, p: nat)
    requires Basic(s) && Enabled(s, l) && c < |s.conns| && p < |s.conns|
    ensures |Step(s, l).conns| == |s.conns|
    ensures var heard := HeardOf(s.conns[c].outbox, p);
      HeardOf(Step(s, l).conns[c].outbox, p) ==
      if l == RouteSend(p) && Targets(s, p)[s.conns[p].busy.pos] == c then heard + [s.conns[p].received - 1] else heard
  {
    hide Parse, Encoded, Registered, Unregistered, Entries, RouteProgress, AllGenuine, BusyFits, Genuine, Step, TableLive;
    var added := OutboxStep(s, l, c);
    var outs := s.conns[c].outbox;
    if added == [] {
      assert outs + added == outs;
    } else {
      assert (outs + added)[..|outs|] == outs;
      assert HeardOf(outs, p) + [] == HeardOf(outs, p);
    }
  }

  lemma RouteBeginKeepsPending(s: State, c: nat, p: nat, topic: Topic)
    requires Basic(s) && Enabled(s, RouteBegin(p)) && c < |s.conns| && c in Entries(s.table, topic)
    ensures Sane(Step(s, RouteBegin(p))) && |Step(s, RouteBegin(p)).conns| == |s.conns|
    ensures Pending(Step(s, RouteBegin(p)), c, p, topic) == Pending(s, c, p, topic)
  {
    hide Parse, Encoded, Entries, RouteProgress, AllGenuine, BusyFits, TableLive;
    StepGrows(s, RouteBegin(p));
    assert WellFormed(s.conns[p]);
    var s' := Step(s, RouteBegin(p));
    assert Targets(s', p)[0..] == Targets(s, p);
  }

  lemma RouteEndKeepsPending(s: State, c: nat, p: nat, topic: Topic)
    requires Basic(s) && Enabled(s, RouteEnd(p)) && c < |s.conns|
    ensures Sane(Step(s, RouteEnd(p))) && |Step(s, RouteEnd(p)).conns| == |s.conns|
    ensures !Pending(Step(s, RouteEnd(p)), c, p, topic) && !Pending(s, c, p, topic)
  {
    hide Parse, Encoded, Entries, RouteProgress, AllGenuine, BusyFits, TableLive;
    StepGrows(s, RouteEnd(p));
    assert WellFormed(s.conns[p]);
  }

  /** Steps that are not p's own receiving or routing do not change what is pending. */
  lemma OthersKeepPending(s: State, l: Label, c: nat, p: nat, topic: Topic)
    requires Basic(s) && Enabled(s, l) && c < |s.conns| && p < |s.conns|
    requires l != BrokerReceive(p) && l != RouteBegin(p) && l != RouteSend(p) && l != RouteEnd(p)
    ensures Sane(Step(s, l)) && |Step(s, l).conns| == |s.conns|
    ensures Pending(Step(s, l), c, p, topic) == Pending(s, c, p, topic)
  {
    StepGrows(s, l);
    if s.conns[p].busy.Routing? {
      RoutingUndisturbed(s, l, p);
    } else {
      NotRouting(s, l, p);
    }
  }

  lemma NotRouting(s: State, l: Label, p: nat)
    requires Basic(s) && Enabled(s, l) && p < |s.conns| && !s.conns[p].busy.Routing?
    requires l != BrokerReceive(p) && l != RouteBegin(p)
    ensures Sane(Step(s, l)) && |Step(s, l).conns| == |s.conns|
    ensures s.conns[p].busy.RouteStart? ==>
      var conn' := Step(s, l).conns[p];
      conn'.busy.RouteStart? && conn'.received == s.conns[p].received > 0 && Work(conn') == Work(s.conns[p])
    ensures !s.conns[p].busy.RouteStart? ==> !Step(s, l).conns[p].busy.RouteStart? && !Step(s, l).conns[p].busy.Routing?
  {
    hide Parse, Encoded, Registered, Unregistered, Entries, RouteProgress, AllGenuine, BusyFits, TableLive;
    StepGrows(s, l);
    assert WellFormed(s.conns[p]);
    assert Extends(s.conns[p], Step(s, l).conns[p]);
  }

  lemma RouteSendPending(s: State, c: nat, p: nat, topic: Topic)
    requires Basic(s) && Enabled(s, RouteSend(p)) && c < |s.conns| && SingleEntry(s, c, topic)
    ensures Sane(Step(s, RouteSend(p))) && |Step(s, RouteSend(p)).conns| == |s.conns|
    ensures var hit := Targets(s, p)[s.conns[p].busy.pos] == c;
      Pending(Step(s, RouteSend(p)), c, p, topic) == (Pending(s, c, p, topic) && !hit)
      && (hit ==> Pending(s, c, p, topic) && TopicAtWork(s.conns[p]) == topic && c in Entries(s.table, topic))
  {
    hide Parse, Encoded, AllGenuine, BusyFits, TableLive, NotYetRegistered, Registrations, OnTopic;
    RoutingUndisturbed(s, RouteSend(p), p);
    var list, pos := Targets(s, p), s.conns[p].busy.pos;
    assert list[pos..] == [list[pos]] + list[pos + 1..];
    if list[pos] == c { assert c in Entries(s.table, TopicAtWork(s.conns[p])); }
  }

  ghost predicate Follows(s: State, c: nat, p: nat, topic: Topic) {
    && Basic(s) && c < |s.conns| && p < |s.conns|
    && SingleEntry(s, c, topic) && HeardOk(s, c, p, topic)
  }

  /** A step after which c has still asked for no more than this one registration. */
  ghost predicate OneRegistration(s: State, l: Label, c: nat, topic: Topic)
    requires Basic(s) && Enabled(s, l) && c < |s.conns|
  {
    && Sane(Step(s, l)) && |Step(s, l).conns| == |s.conns|
    && Registrations(Seen(Step(s, l).conns[c])) <= [topic]
  }

  lemma PublisherReceives(s: State, c: nat, p: nat, topic: Topic)
    requires Follows(s, c, p, topic) && Enabled(s, BrokerReceive(p)) && OneRegistration(s, BrokerReceive(p), c, topic)
    ensures HeardOk(Step(s, BrokerReceive(p)), c, p, topic)
  {
    hide Parse, Encoded, AllGenuine, BusyFits, TableLive, NotYetRegistered, Registrations, OnTopic, RouteProgress,
         HeardFits, PublishedOn, HeardOf, AtMostOnce, Genuine;
    var l := BrokerReceive(p);
    var s' := Step(s, l);
    StepGrows(s, l);
    HeardStep(s, l, c, p);
    NotYetStep(s, l, c, topic);
    SeenMore(s.conns[p]);
    var published, heard := PublishedOn(Seen(s.conns[p]), topic), HeardOf(s.conns[c].outbox, p);
    var member, notYet := c in Entries(s.table, topic), NotYetRegistered(s.conns[c]);
    var raw := s.conns[p].sent[s.conns[p].received];
    assert |raw| >= 3 by { assert WellFormed(s.conns[p]); }
    assert Work(s'.conns[p]) == raw;
    assert !Pending(s, c, p, topic);
    assert Pending(s', c, p, topic) == IsDataOn(raw, topic);
    if IsDataOn(raw, topic) {
      FitsMore(published, heard, member, notYet, s.conns[p].received);
    } else {
      assert PublishedOn(Seen(s'.conns[p]), topic) == published + [] == published;
    }
  }

  lemma PublisherSends(s: State, c: nat, p: nat, topic: Topic)
    requires Follows(s, c, p, topic) && Enabled(s, RouteSend(p)) && OneRegistration(s, RouteSend(p), c, topic)
    ensures HeardOk(Step(s, RouteSend(p)), c, p, topic)
  {
    hide Parse, Encoded, AllGenuine, TableLive, NotYetRegistered, Registrations, OnTopic, RouteProgress,
         HeardFits, PublishedOn, HeardOf, AtMostOnce, Genuine, Pending, Step, BusyFits;
    var l := RouteSend(p);
    StepGrows(s, l);
    HeardStep(s, l, c, p);
    NotYetStep(s, l, c, topic);
    SeenSame(s, l, p);
    RouteSendPending(s, c, p, topic);
    if Targets(s, p)[s.conns[p].busy.pos] == c {
      WorkIsLastSeen(s.conns[p]);
      FitsHeard(PublishedOn(Seen(s.conns[p]), topic), HeardOf(s.conns[c].outbox, p), s.conns[p].received - 1);
    }
  }

  lemma SubscriberComesOrGoes(s: State, l: Label, c: nat, p: nat, topic: Topic)
    requires Follows(s, c, p, topic) && Enabled(s, l) && OneRegistration(s, l, c, topic)
    requires l == DoRegist(c) || l == DoUnregist(c)
    ensures HeardOk(Step(s, l), c, p, topic)
  {
    hide Parse, Encoded, AllGenuine, TableLive, NotYetRegistered, Registrations, OnTopic, RouteProgress,
         PublishedOn, HeardOf, AtMostOnce, Genuine, Pending, BusyFits;
    var s' := Step(s, l);
    StepGrows(s, l);
    HeardStep(s, l, c, p);
    NotYetStep(s, l, c, topic);
    SeenSame(s, l, p);
    var published, heard := PublishedOn(Seen(s.conns[p]), topic), HeardOf(s.conns[c].outbox, p);
    if l == DoRegist(c) {
      RegistersTopic(s, c, topic);
      assert IsBlock(heard, published, Offered(published, Pending(s', c, p, topic)));
    } else {
      UnregisterRemovesOnly(s.table, c, topic);
      FitsNotMember(published, heard, Pending(s, c, p, topic), c in Entries(s.table, topic), NotYetRegistered(s.conns[c]), Pending(s', c, p, topic));
    }
  }

  /** Other steps may make a pending message of a session that is not in the table irrelevant, and change nothing else. */
  lemma OtherSteps(s: State, l: Label, c: nat, p: nat, topic: Topic)
    requires Follows(s, c, p, topic) && Enabled(s, l) && OneRegistration(s, l, c, topic)
    requires l != BrokerReceive(p) && l != RouteSend(p) && l != DoRegist(c) && l != DoUnregist(c)
    ensures HeardOk(Step(s, l), c, p, topic)
  {
    hide Parse, Encoded, AllGenuine, TableLive, NotYetRegistered, Registrations, OnTopic, RouteProgress,
         PublishedOn, HeardOf, AtMostOnce, Genuine, Pending, Step, HeardFits, BusyFits;
    var s' := Step(s, l);
    StepGrows(s, l);
    HeardStep(s, l, c, p);
    NotYetStep(s, l, c, topic);
    SeenSame(s, l, p);
    MembershipKept(s, l, c, topic);
    if c in Entries(s.table, topic) {
      if l == RouteBegin(p) {
        RouteBeginKeepsPending(s, c, p, topic);
      } else if l == RouteEnd(p) {
        RouteEndKeepsPending(s, c, p, topic);
      } else {
        OthersKeepPending(s, l, c, p, topic);
      }
    } else {
      FitsNotMember(PublishedOn(Seen(s.conns[p]), topic), HeardOf(s.conns[c].outbox, p), Pending(s, c, p, topic), false,
                    NotYetRegistered(s.conns[c]), Pending(s', c, p, topic));
    }
  }

  lemma MembershipKept(s: State, l: Label, c: nat, topic: Topic)
    requires Basic(s) && Enabled(s, l) && c < |s.conns| && l != DoRegist(c) && l != DoUnregist(c)
    ensures c in Entries(Step(s, l).table, topic) <==> c in Entries(s.table, topic)
  {
    hide Parse, Encoded, AllGenuine, TableLive, RouteProgress, BusyFits, Genuine;
    StepGrows(s, l);
    if l.DoUnregist? {
      UnregisterRemovesOnly(s.table, l.c, topic);
      if c in Entries(s.table, topic) { WithoutPresent(Entries(s.table, topic), l.c, c); }
    }
  }

  lemma FollowsStep(s: State, l: Label, c: nat, p: nat, topic: Topic)
    requires Follows(s, c, p, topic) && Enabled(s, l) && OneRegistration(s, l, c, topic)
    ensures Follows(Step(s, l), c, p, topic)
  {
    hide HeardOk, SingleEntry, Registrations, Step, Enabled, Basic;
    BasicStep(s, l);
    SingleEntryStep(s, l, c, topic);
    if l == BrokerReceive(p) {
      PublisherReceives(s, c, p, topic);
    } else if l == RouteSend(p) {
      PublisherSends(s, c, p, topic);
    } else if l == DoRegist(c) || l == DoUnregist(c) {
      SubscriberComesOrGoes(s, l, c, p, topic);
    } else {
      OtherSteps(s, l, c, p, topic);
    }
  }

  lemma FollowsInit(connections: nat, c: nat, p: nat, topic: Topic)
    requires c < connections && p < connections
    ensures Follows(Init(connections), c, p, topic)
  {
  }

  lemma {:induction false} RegistrationsGrow(states: seq<State>, labels: seq<Label>, connections: nat, k: nat, c: nat)
    requires Run(states, labels, connections) && k < |labels| && c < connections
    ensures |states[k].conns| == |states[k + 1].conns| == connections
    ensures WellFormed(states[k].conns[c]) && WellFormed(states[k + 1].conns[c])
    ensures Registrations(Seen(states[k].conns[c])) <= Registrations(Seen(states[k + 1].conns[c]))
  {
    hide Step, Enabled, Registrations, Seen;
    RunBasic(states, labels, connections, k);
    RunBasic(states, labels, connections, k + 1);
    NotYetStep(states[k], labels[k], c, 0);
  }

  lemma {:induction false} RunFollows(states: seq<State>, labels: seq<Label>, connections: nat, k: nat, c: nat, p: nat, topic: Topic)
    requires Run(states, labels, connections) && k < |states| && c < connections && p < connections
    requires |states[k].conns| == connections && WellFormed(states[k].conns[c])
    requires Registrations(Seen(states[k].conns[c])) <= [topic]
    ensures Follows(states[k], c, p, topic)
  {
    hide Step, Enabled, Registrations, Follows, WellFormed;
    if k == 0 {
      FollowsInit(connections, c, p, topic);
    } else {
      RegistrationsGrow(states, labels, connections, k - 1, c);
      RunFollows(states, labels, connections, k - 1, c, p, topic);
      RunBasic(states, labels, connections, k);
      RunBasic(states, labels, connections, k - 1);
      assert Follows(states[k - 1], c, p, topic);
      FollowsStep(states[k - 1], labels[k - 1], c, p, topic);
    }
  }

  lemma {:induction false} RegistrationsPrefix(sent: seq<Bytes>, n: nat)
    requires n <= |sent|
    ensures Registrations(sent[..n]) <= Registrations(sent)
  {
    if n < |sent| {
      RegistrationsPrefix(sent[..|sent| - 1], n);
      assert sent[..|sent| - 1][..n] == sent[..n];
    } else {
      assert sent[..n] == sent;
    }
  }

  lemma {:induction false} PublishedPrefix(sent: seq<Bytes>, n: nat, topic: Topic)
    requires n <= |sent|
    ensures PublishedOn(sent[..n], topic) <= PublishedOn(sent, topic)
  {
    if n < |sent| {
      PublishedPrefix(sent[..|sent| - 1], n, topic);
      assert sent[..|sent| - 1][..n] == sent[..n];
    } else {
      assert sent[..n] == sent;
    }
  }

  lemma {:induction false} HeardPrefix(outs: seq<Out>, n: nat, p: nat)
    requires n <= |outs|
    ensures HeardOf(outs[..n], p) <= HeardOf(outs, p)
  {
    if n < |outs| {
      HeardPrefix(outs[..|outs| - 1], n, p);
      assert outs[..|outs| - 1][..n] == outs[..n];
    } else {
      assert outs[..n] == outs;
    }
  }

  lemma FitsGivesBlock(published: seq<nat>, heard: seq<nat>, pending: bool, member: bool, notYet: bool)
    requires HeardFits(published, heard, pending, member, notYet)
    ensures exists from: nat :: IsBlock(heard, published, from)
  {
    if notYet {
      assert IsBlock(heard, published, 0);
    } else if member {
      assert IsBlock(heard, published, Offered(published, pending) - |heard|);
    }
  }

  /** A prefix of a block is a block, also among more messages. */
  lemma BlockPrefix(heard: seq<nat>, published: seq<nat>, heard': seq<nat>, published': seq<nat>)
    requires exists from: nat :: IsBlock(heard, published, from)
    requires heard' <= heard && published <= published'
    ensures exists from: nat :: IsBlock(heard', published', from)
  {
    var from: nat :| IsBlock(heard, published, from);
    assert IsBlock(heard', published', from);
  }

  /** What a client has received so far. */
  function Got(conn: Conn): seq<Out>
    requires conn.got <= |conn.outbox|
  {
    conn.outbox[..conn.got]
  }

  /** Every DATA frame among these is a message some client sent on the topic, byte for byte; every other is an ACK. */
  ghost predicate HeardOnly(s: State, outs: seq<Out>, topic: Topic) {
    forall out :: out in outs ==>
      && |out.raw| >= 3
      && (Parse(out.raw).kind == DATA <==> out.origin.Published?)
      && (Parse(out.raw).kind == DATA ==>
            && IsDataOn(out.raw, topic) && out.origin.p < |s.conns|
            && out.origin.i < |s.conns[out.origin.p].sent|
            && out.raw == s.conns[out.origin.p].sent[out.origin.i])
  }

  lemma OnlyGenuineHeard(s: State, c: nat, topic: Topic)
    requires Basic(s) && c < |s.conns| && SingleEntry(s, c, topic)
    ensures WellFormed(s.conns[c]) && HeardOnly(s, Got(s.conns[c]), topic)
  {
    hide Parse, Encoded, Registrations, Entries, AtMostOnce, NotYetRegistered;
    forall out | out in Got(s.conns[c])
      ensures |out.raw| >= 3 && (Parse(out.raw).kind == DATA <==> out.origin.Published?)
      ensures Parse(out.raw).kind == DATA ==>
        && IsDataOn(out.raw, topic) && out.origin.p < |s.conns|
        && out.origin.i < |s.conns[out.origin.p].sent| && out.raw == s.conns[out.origin.p].sent[out.origin.i]
    {
      var k :| 0 <= k < |Got(s.conns[c])| && Got(s.conns[c])[k] == out;
      assert s.conns[c].outbox[k] == out;
      assert AllGenuine(s, c) && Genuine(s, out);
      assert out.origin.Published? ==> IsDataOn(out.raw, topic);
    }
  }

  /**
   In every run, what a client that registers once, for one topic, has received of any publisher's messages on
   that topic is a contiguous block of them in the order they were sent; and every DATA frame it received is, byte
   for byte, a message some client sent on that topic.
   */
  lemma SubscriberHearsBlock(states: seq<State>, labels: seq<Label>, connections: nat, c: nat, p: nat, topic: Topic)
    requires Run(states, labels, connections) && c < connections && p < connections
    requires |states[|labels|].conns| == connections && Registrations(states[|labels|].conns[c].sent) <= [topic]
    ensures var last := states[|labels|];
      && WellFormed(last.conns[c])
      && (exists from: nat :: IsBlock(HeardOf(Got(last.conns[c]), p), PublishedOn(last.conns[p].sent, topic), from))
      && HeardOnly(last, Got(last.conns[c]), topic)
  {
    hide Parse, Encoded, Step, Enabled, Registrations, HeardOf, PublishedOn, IsBlock, HeardFits, HeardOnly;
    var last := states[|labels|];
    RunBasic(states, labels, connections, |labels|);
    assert WellFormed(last.conns[c]) && WellFormed(last.conns[p]);
    RegistrationsPrefix(last.conns[c].sent, last.conns[c].received);
    RunFollows(states, labels, connections, |labels|, c, p, topic);
    FitsGivesBlock(
      PublishedOn(Seen(last.conns[p]), topic), HeardOf(last.conns[c].outbox, p),
      Pending(last, c, p, topic), c in Entries(last.table, topic), NotYetRegistered(last.conns[c]));
    PublishedPrefix(last.conns[p].sent, last.conns[p].received, topic);
    HeardPrefix(last.conns[c].outbox, last.conns[c].got, p);
    BlockPrefix(
      HeardOf(last.conns[c].outbox, p), PublishedOn(Seen(last.conns[p]), topic),
      HeardOf(Got(last.conns[c]), p), PublishedOn(last.conns[p].sent, topic));
    OnlyGenuineHeard(last, c, topic);
  }
}
