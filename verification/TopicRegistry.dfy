/** The broker's routing table: topics to lists of weakly held sessions. */
module TopicRegistry {
  import opened Counting
  import opened EventFrame

  type Session = nat
  type Table = map<Topic, seq<Session>>

  function Entries(t: Table, topic: Topic): seq<Session> {
    if topic in t then t[topic] else []
  }

  function Registered(t: Table, topic: Topic, s: Session): (r: Table)
    ensures Entries(r, topic) == Entries(t, topic) + [s]
    ensures forall o: Topic :: o != topic ==> Entries(r, o) == Entries(t, o)
  {
    t[topic := Entries(t, topic) + [s]]
  }

  /** `remove_if` over one list: expired entries never equal the session, so they stay. */
  function Without(list: seq<Session>, s: Session): (r: seq<Session>)
    ensures s !in r && |r| <= |list|
    ensures forall o :: o in r ==> o in list
  {
    if list == [] then []
    else Without(list[..|list| - 1], s) + (if list[|list| - 1] == s then [] else [list[|list| - 1]])
  }

  function Unregistered(t: Table, s: Session): Table {
    map k | k in t && Without(t[k], s) != [] :: Without(t[k], s)
  }

  ghost predicate NoEmptyLists(t: Table) {
    forall k :: k in t ==> t[k] != []
  }

  class TopicRegistry {
    var sessions: Table

    constructor ()
      ensures sessions == map[]
    {
      sessions := map[];
    }

    method Regist(topic: Topic, session: Session)
      modifies this
      ensures sessions == Registered(old(sessions), topic, session)
    {
      if topic !in sessions { sessions := sessions[topic := []]; }
      sessions := sessions[topic := sessions[topic] + [session]];
    }

    /** Erases the session from every list while walking the table in any order; a list that becomes empty goes with its topic. */
    method Unregist(session: Session)
      modifies this
      ensures sessions == Unregistered(old(sessions), session)
    {
      hide Without;
      ghost var before := sessions;
      var todo := sessions.Keys;
      while todo != {}
        invariant todo <= sessions.Keys <= before.Keys
        invariant forall k :: k in todo ==> sessions[k] == before[k]
        invariant forall k :: k in before && k !in todo ==>
            (k in sessions <==> Without(before[k], session) != []) && (k in sessions ==> sessions[k] == Without(before[k], session))
        decreases todo
      {
        var it :| it in todo;
        todo := todo - {it};
        var kept := Without(sessions[it], session);
        if kept == [] {
          sessions := map k | k in sessions && k != it :: sessions[k];
        } else {
          sessions := sessions[it := kept];
        }
      }
      assert sessions == Unregistered(before, session);
    }

    /** The DATA frames `route` hands out, in order; sessions whose weak pointer has expired get none. */
    method Route(topic: Topic, payload: Bytes, alive: set<Session>) returns (sent: seq<(Session, Bytes)>)
      ensures sent == Deliveries(Entries(sessions, topic), alive, Encoded(Frame(topic, DATA, payload)))
    {
      var bytesFrame := Make(topic, DATA, payload);
      sent := [];
      if topic !in sessions { return; }
      var list := sessions[topic];
      for i := 0 to |list|
        invariant sent == Deliveries(list[..i], alive, bytesFrame)
      {
        assert list[..i + 1][..i] == list[..i];
        if list[i] in alive { sent := sent + [(list[i], bytesFrame)]; }
      }
      assert list[..|list|] == list;
    }
  }

  function Deliveries(list: seq<Session>, alive: set<Session>, frame: Bytes): seq<(Session, Bytes)> {
    if list == [] then []
    else
      Deliveries(list[..|list| - 1], alive, frame)
      + (if list[|list| - 1] in alive then [(list[|list| - 1], frame)] else [])
  }

  /** How many of the frames go to one session. */
  function CopiesFor(sent: seq<(Session, Bytes)>, s: Session): nat {
    if sent == [] then 0 else CopiesFor(sent[..|sent| - 1], s) + Times(sent[|sent| - 1].0, s)
  }

  lemma CopiesBack(sent: seq<(Session, Bytes)>, last: (Session, Bytes), s: Session)
    ensures CopiesFor(sent + [last], s) == CopiesFor(sent, s) + Times(last.0, s)
  {
    assert (sent + [last])[..|sent|] == sent;
  }

  /** Each live session gets the frame once per entry, an expired one never. */
  lemma {:induction false} RouteReachesEachEntry(list: seq<Session>, alive: set<Session>, frame: Bytes, s: Session)
    ensures CopiesFor(Deliveries(list, alive, frame), s) == if s in alive then Count(list, s) else 0
  {
    if list != [] {
      hide CopiesFor, Count;
      var n := |list| - 1;
      RouteReachesEachEntry(list[..n], alive, frame, s);
      var d := Deliveries(list[..n], alive, frame);
      CountBack(list[..n], list[n], s);
      assert list == list[..n] + [list[n]];
      if list[n] in alive {
        CopiesBack(d, (list[n], frame), s);
      } else {
        assert Deliveries(list, alive, frame) == d + [] == d;
      }
    }
  }

  // ---------- what unregistering keeps ----------

  lemma {:induction false} WithoutPresent(list: seq<Session>, s: Session, o: Session)
    requires o in list && o != s
    ensures o in Without(list, s)
  {
    var n := |list| - 1;
    if list[n] != o { WithoutPresent(list[..n], s, o); }
  }

  /** After unregistering s it is under no topic, and what others had is kept in order and multiplicity. */
  lemma UnregisterRemovesOnly(t: Table, s: Session, topic: Topic)
    ensures Entries(Unregistered(t, s), topic) == Without(Entries(t, topic), s)
    ensures s !in Entries(Unregistered(t, s), topic)
  {
  }

  /** Leaving out s keeps the sublist of every choice of other sessions exactly. */
  lemma {:induction false} WithoutKeepsSublist(list: seq<Session>, s: Session, chosen: set<Session>)
    requires s !in chosen
    ensures Sublist(Without(list, s), chosen) == Sublist(list, chosen)
  {
    if list != [] {
      var n := |list| - 1;
      WithoutKeepsSublist(list[..n], s, chosen);
      var d := Without(list[..n], s);
      var all := Without(list, s);
      if list[n] == s {
        assert all == d + [] == d;
        assert Sublist(list, chosen) == Sublist(list[..n], chosen) + [] == Sublist(list[..n], chosen);
      } else {
        assert all == d + [list[n]] && all[..|all| - 1] == d;
      }
    }
  }

  /** The entries of some chosen sessions, in order. */
  function Sublist(list: seq<Session>, chosen: set<Session>): seq<Session> {
    if list == [] then []
    else Sublist(list[..|list| - 1], chosen) + (if list[|list| - 1] in chosen then [list[|list| - 1]] else [])
  }

  datatype Operation = Regist(topic: Topic, session: Session) | Unregist(session: Session)

  function Apply(t: Table, op: Operation): Table {
    match op
    case Regist(topic, session) => Registered(t, topic, session)
    case Unregist(session) => Unregistered(t, session)
  }

  function ApplyAll(ops: seq<Operation>): Table {
    if ops == [] then map[] else Apply(ApplyAll(ops[..|ops| - 1]), ops[|ops| - 1])
  }

  /** Over any sequence of operations no topic maps to an empty list. */
  lemma {:induction false} NeverEmptyLists(ops: seq<Operation>)
    ensures NoEmptyLists(ApplyAll(ops))
  {
    if ops != [] { NeverEmptyLists(ops[..|ops| - 1]); }
  }

  /** The sessions registered for a topic by a history, counting from the last time each was unregistered. */
  function History(ops: seq<Operation>, topic: Topic): seq<Session> {
    if ops == [] then []
    else
      var before := History(ops[..|ops| - 1], topic);
      match ops[|ops| - 1]
      case Regist(t, s) => if t == topic then before + [s] else before
      case Unregist(s) => Without(before, s)
  }

  /** The table always lists, per topic, exactly the registrations not undone since, in registration order. */
  lemma {:induction false} TableIsHistory(ops: seq<Operation>, topic: Topic)
    ensures Entries(ApplyAll(ops), topic) == History(ops, topic)
  {
    if ops != [] {
      var n := |ops| - 1;
      TableIsHistory(ops[..n], topic);
      if ops[n].Unregist? { UnregisterRemovesOnly(ApplyAll(ops[..n]), ops[n].session, topic); }
    }
  }
}
