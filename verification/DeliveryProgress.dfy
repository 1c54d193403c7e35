/** The queue can always be emptied: from every reachable state some run delivers everything that waits. */
module DeliveryProgress {
  import opened Basics
  import opened Database
  import opened Queue
  import opened Delivery
  import opened DeliverySession
  import opened DeliverySafety

  /** The oldest event in the peer's hands: on a new connection, just sent. */
  function Handed(w: World): World
    requires Unacked(w.db.events) != []
  {
    var batch := UnackedEvents(w.db, BATCH);
    w.(link := Link(0, false),
       session := Some(Session(StreamId(w.db), batch, true, false, [batch[0]], [], {batch[0].num})))
  }

  /** A new connection, and its first look at the queue. */
  function Linked(w: World): World {
    w.(link := Link(0, w.link.wake), session := Some(Session(StreamId(w.db), [], false, false, [], [], {})))
  }

  function Found(w: World): World
    requires Unacked(w.db.events) != []
  {
    w.(link := Link(0, false),
       session := Some(Session(StreamId(w.db), UnackedEvents(w.db, BATCH), false, false, [], [], {})))
  }

  lemma Looks(w: World)
    requires QueueOk(w.db) && Unacked(w.db.events) != []
    ensures UnackedEvents(w.db, BATCH) != [] && UnackedEvents(w.db, BATCH)[0] == Unacked(w.db.events)[0]
    ensures Enabled(Linked(w), Looked) && Next(Linked(w), Looked) == Found(w)
  {
    FreshMarkerReplaysAll(w.db);
    hide QueueOk, NextBatch;
  }

  lemma Sends(w: World)
    requires Unacked(w.db.events) != []
    ensures Enabled(Found(w), SendStarted) && Next(Found(w), SendStarted) == Handed(w)
  {
    hide Unacked;
    var batch := UnackedEvents(w.db, BATCH);
    assert [] + [batch[0]] == [batch[0]] && {} + {batch[0].num} == {batch[0].num};
  }

  /** A connection is made, the queue looked at, and the oldest event sent. */
  lemma HandsOver(w: World, rest: seq<Action>, end: World)
    requires QueueOk(w.db) && w.session.None? && Unacked(w.db.events) != [] && Reaches(Handed(w), rest, end)
    ensures Reaches(w, [Connected] + ([Looked] + ([SendStarted] + rest)), end)
  {
    assert Next(w, Connected) == Linked(w);
    Looks(w);
    Sends(w);
    hide Reaches, QueueOk, Next, Linked, Found, Handed, UnackedEvents;
    RunOne(Found(w), SendStarted, rest, end);
    RunOne(Linked(w), Looked, [SendStarted] + rest, end);
    RunOne(w, Connected, [Looked] + ([SendStarted] + rest), end);
  }

  /** The peer has applied the event, the ack has come, the connection is gone. */
  function Delivered(w: World, e: Event): World {
    w.(db := AckThrough(w.db, e.num), peer := Apply(w.peer, StreamId(w.db), e), session := None,
       link := Link(0, NewlyAcked(w.db.events, e.num) > 0))
  }

  /** The peer has applied the event, and its ack is on the way. */
  function Answered(w: World, e: Event): World {
    w.(link := Link(0, false), peer := Apply(w.peer, StreamId(w.db), e),
       session := Some(Session(StreamId(w.db), UnackedEvents(w.db, BATCH), true, false, [], [e.num], {e.num})))
  }

  function Acked(w: World, e: Event): World {
    w.(db := AckThrough(w.db, e.num), link := Link(0, NewlyAcked(w.db.events, e.num) > 0),
       peer := Apply(w.peer, StreamId(w.db), e),
       session := Some(Session(StreamId(w.db), UnackedEvents(w.db, BATCH), true, false, [], [], {e.num})))
  }

  lemma Answers(w: World)
    requires Unacked(w.db.events) != []
    ensures var e := Unacked(w.db.events)[0];
      Enabled(Handed(w), PeerApplied(true)) && Next(Handed(w), PeerApplied(true)) == Answered(w, e)
  {
    hide Apply;
    var e := Unacked(w.db.events)[0];
    assert UnackedEvents(w.db, BATCH)[0] == e;
    assert [e][1..] == [] && [] + [e.num] == [e.num];
  }

  lemma Acks(w: World, e: Event)
    ensures Enabled(Answered(w, e), AckArrived) && Next(Answered(w, e), AckArrived) == Acked(w, e)
  {
    hide Apply, AckThrough, NewlyAcked;
    assert [e.num][1..] == [];
  }

  lemma Drops(w: World, e: Event)
    ensures Enabled(Acked(w, e), Disconnected) && Next(Acked(w, e), Disconnected) == Delivered(w, e)
  {
    hide Apply, AckThrough, NewlyAcked;
    assert Dead(Acked(w, e)) == w.stale;
  }

  lemma TakesIn(w: World, rest: seq<Action>, end: World)
    requires w.session.None? && Unacked(w.db.events) != []
    requires Reaches(Delivered(w, Unacked(w.db.events)[0]), rest, end)
    ensures Reaches(Handed(w), [PeerApplied(true)] + ([AckArrived] + ([Disconnected] + rest)), end)
  {
    hide Reaches, Next, Enabled, Answered, Acked, Delivered, Handed;
    var e := Unacked(w.db.events)[0];
    Answers(w);
    Acks(w, e);
    Drops(w, e);
    RunOne(Acked(w, e), Disconnected, rest, end);
    RunOne(Answered(w, e), AckArrived, [Disconnected] + rest, end);
    RunOne(Handed(w), PeerApplied(true), [AckArrived] + ([Disconnected] + rest), end);
  }

  /** The event is among what the peer applied. */
  ghost predicate IsApplied(w: World, e: Event) {
    Issued(StreamId(w.db), e) in w.peer.effects
  }

  /** One event is delivered, and only it leaves the queue. */
  lemma DeliveredFacts(w: World)
    requires Inv(w) && Unacked(w.db.events) != []
    ensures var e := Unacked(w.db.events)[0]; var after := Delivered(w, e);
      && IsApplied(after, e) && w.peer.effects <= after.peer.effects && StreamId(after.db) == StreamId(w.db)
      && after.issued == w.issued && |Unacked(after.db.events)| < |Unacked(w.db.events)|
      && forall f :: Row(f, false) in w.db.events && f != e ==> Row(f, false) in after.db.events
  {
    hide Inv, AckThrough, Apply, NewlyAcked, Unacked;
    var e := Unacked(w.db.events)[0];
    var after := Delivered(w, e);
    assert e in Unacked(w.db.events);
    UnackedMember(w.db.events, e);
    EffectOf(w, e);
    FileIsOk(w);
    OldestGoes(w.db);
    assert after.db.kv == w.db.kv by {
      AckKeepsLabel(w.db, e.num);
    }
  }

  lemma AckKeepsLabel(db: Db, upTo: int)
    ensures AckThrough(db, upTo).kv == db.kv
  {
  }

  /** An ack of the oldest waiting event removes it and no other that waits. */
  lemma OldestGoes(db: Db)
    requires QueueOk(db) && Unacked(db.events) != []
    ensures var e := Unacked(db.events)[0]; var after := AckThrough(db, e.num);
      && |Unacked(after.events)| < |Unacked(db.events)|
      && forall f :: Row(f, false) in db.events && f != e ==> Row(f, false) in after.events
  {
    hide AckThrough, Unacked;
    var e := Unacked(db.events)[0];
    var after := AckThrough(db, e.num);
    AckRemovesPrefix(db, e.num);
    UnackedAscending(db.events);
    UnackedAscending(after.events);
    assert e in Unacked(db.events);
    UnackedMember(db.events, e);
    forall f | Row(f, false) in db.events && f != e ensures Row(f, false) in after.events {
      UnackedMember(db.events, f);
    }
    Fewer(db.events, after.events, e);
  }

  /** The applied event is in the effects, whether it was applied now or before. */
  lemma EffectOf(w: World, e: Event)
    requires Inv(w) && Row(e, false) in w.db.events
    ensures var peer := Apply(w.peer, StreamId(w.db), e);
      Issued(StreamId(w.db), e) in peer.effects && w.peer.effects <= peer.effects
  {
    if (StreamId(w.db), e.num) in w.peer.ingested {
      var x :| x in w.peer.effects && (StreamId(w.db), e.num) == (x.stream, x.event.num);
      SameIssued(w.issued, x, Issued(StreamId(w.db), e));
    }
  }

  ghost predicate Subset(a: seq<Row>, b: seq<Row>) {
    forall r :: r in a ==> r in b
  }

  /** Fewer rows wait when some are gone and none came. */
  lemma Fewer(before: seq<Row>, after: seq<Row>, gone: Event)
    requires AscendingEvents(Unacked(before)) && AscendingEvents(Unacked(after))
    requires Subset(after, before) && Row(gone, false) in before && Row(gone, false) !in after
    ensures |Unacked(after)| < |Unacked(before)|
  {
    var a, b := set f | f in Unacked(after), set f | f in Unacked(before);
    forall f ensures f in Unacked(after) <==> Row(f, false) in after {
      UnackedMember(after, f);
    }
    forall f ensures f in Unacked(before) <==> Row(f, false) in before {
      UnackedMember(before, f);
    }
    assert a < b by {
      assert gone in b && gone !in a;
    }
    Members(Unacked(after));
    Members(Unacked(before));
    Smaller(a, b);
  }

  lemma {:induction false} Members(es: seq<Event>)
    requires AscendingEvents(es)
    ensures |set f | f in es| == |es|
  {
    if es != [] {
      var front, last := es[..|es| - 1], es[|es| - 1];
      Members(front);
      assert (set f | f in es) == (set f | f in front) + {last};
    }
  }

  lemma Smaller(a: set<Event>, b: set<Event>)
    requires a < b
    ensures |a| < |b|
  {
    assert |b| == |a| + |b - a|;
  }

  /** From between two connections, one delivery after the other. */
  lemma {:induction false} Drain(w: World) returns (acts: seq<Action>, end: World)
    requires Inv(w) && w.session.None?
    ensures Reaches(w, acts, end) && Unacked(end.db.events) == [] && end.issued == w.issued
    ensures StreamId(end.db) == StreamId(w.db) && w.peer.effects <= end.peer.effects
    ensures forall f :: Row(f, false) in w.db.events ==> IsApplied(end, f)
    decreases |Unacked(w.db.events)|
  {
    hide Reaches, Inv, AckThrough, Apply, NewlyAcked;
    if Unacked(w.db.events) == [] {
      acts, end := [], w;
      RunNone(w);
      NothingWaits(w.db);
    } else {
      var e := Unacked(w.db.events)[0];
      var after := Delivered(w, e);
      DeliveredFacts(w);
      DeliveredKeeps(w);
      var rest;
      rest, end := Drain(after);
      TakesIn(w, rest, end);
      HandsOver(w, [PeerApplied(true)] + ([AckArrived] + ([Disconnected] + rest)), end) by {
        FileIsOk(w);
      }
      acts := [Connected] + ([Looked] + ([SendStarted]
              + ([PeerApplied(true)] + ([AckArrived] + ([Disconnected] + rest)))));
      forall f | Row(f, false) in w.db.events ensures IsApplied(end, f) {
        assert f == e || Row(f, false) in after.db.events;
      }
    }
  }

  lemma NothingWaits(db: Db)
    requires Unacked(db.events) == []
    ensures forall f :: Row(f, false) !in db.events
  {
    forall f ensures Row(f, false) !in db.events {
      UnackedMember(db.events, f);
    }
  }

  lemma FileIsOk(w: World)
    requires Inv(w)
    ensures QueueOk(w.db)
  {
  }

  lemma DeliveredKeeps(w: World)
    requires Inv(w) && w.session.None? && Unacked(w.db.events) != []
    ensures Inv(Delivered(w, Unacked(w.db.events)[0]))
  {
    hide Reaches, Inv, AckThrough, Apply, NewlyAcked;
    var end := Delivered(w, Unacked(w.db.events)[0]);
    RunNone(end);
    TakesIn(w, [], end);
    var acts := [PeerApplied(true)] + ([AckArrived] + ([Disconnected] + []));
    HandsOver(w, acts, end) by {
      FileIsOk(w);
    }
    RunKeeps(w, [Connected] + ([Looked] + ([SendStarted] + acts)), end);
  }

  /**
   From every reachable state some run without new events empties the queue,
   status samples included: at its end everything that was queued, and every
   event of the file that is no status sample, has been applied.
   */
  lemma CanAlwaysDrain(start: World, before: seq<Action>, w: World) returns (acts: seq<Action>, end: World)
    requires Init(start) && Reaches(start, before, w)
    ensures Reaches(w, acts, end) && Unacked(end.db.events) == [] && end.issued == w.issued
    ensures StreamId(end.db) == StreamId(w.db)
    ensures forall f :: Row(f, false) in w.db.events ==> IsApplied(end, f)
    ensures forall x :: x in w.issued && x.stream == StreamId(w.db) && x.event.kind != STATUS_KIND ==>
      x in end.peer.effects
  {
    InitHolds(start);
    RunKeeps(start, before, w);
    hide Reaches, Inv, Init;
    if w.session.None? {
      acts, end := Drain(w);
    } else {
      var idle := Idle(w);
      var rest;
      rest, end := Drain(idle);
      RunOne(w, Disconnected, rest, end);
      acts := [Disconnected] + rest;
    }
    StoredLoses(w);
    AllApplied(w, end);
  }

  /** The connection is given up. */
  lemma Idle(w: World) returns (idle: World)
    requires Inv(w) && w.session.Some?
    ensures Enabled(w, Disconnected) && idle == Next(w, Disconnected) && Inv(idle) && idle.session.None?
    ensures idle.db == w.db && idle.issued == w.issued && idle.peer == w.peer
  {
    hide Reaches, Inv;
    idle := Next(w, Disconnected);
    RunNone(idle);
    RunOne(w, Disconnected, [], idle);
    RunKeeps(w, [Disconnected] + [], idle);
  }

  lemma AllApplied(w: World, end: World)
    requires NothingLost(w) && w.peer.effects <= end.peer.effects && StreamId(end.db) == StreamId(w.db)
    requires forall f :: Row(f, false) in w.db.events ==> IsApplied(end, f)
    ensures forall x :: x in w.issued && x.stream == StreamId(w.db) && x.event.kind != STATUS_KIND ==>
      x in end.peer.effects
  {
    forall x | x in w.issued && x.stream == StreamId(w.db) && x.event.kind != STATUS_KIND
      ensures x in end.peer.effects
    {
      if Row(x.event, false) in w.db.events {
        assert IsApplied(end, x.event);
      }
    }
  }

  lemma StoredLoses(w: World)
    requires Inv(w)
    ensures NothingLost(w)
  {
    StoreLosesNothing(w);
  }
}
