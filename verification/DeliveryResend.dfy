/**
 When a resend request may lose an event: the exact condition on the queue, the
 connection and the number asked for, and the runs that lose one when it holds.
 */
module DeliveryResend {
  import opened Database
  import opened Queue
  import opened Journal
  import opened Delivery
  import opened DeliverySession
  import opened DeliverySafety

  // --------------------------------------------------------- the condition

  /** Numbers of the queued events that are no status samples. */
  function Kept(db: Db): set<nat> {
    set e | e in Unacked(db.events) && e.kind != STATUS_KIND :: e.num
  }

  /** An ack that is on its way, or will answer a frame that is, lies at or above n. */
  ghost predicate Covered(s: Session, n: nat) {
    (exists a :: a in s.acks && n <= a) || (exists e :: e in s.wire && n <= e.num)
  }

  /** What a sender at marker m would pass over for as long as the connection lasts. */
  ghost function Passed(kept: set<nat>, s: Session, m: nat): set<nat> {
    set n | n in kept && n <= m && !Covered(s, n)
  }

  /** The link's reaction to a resend request, whatever the number. */
  function AnyResend(w: World, from_: nat): World {
    w.(link := Link(ResendMarker(from_), true))
  }

  /**
   A request is dangerous when the sender is between batches and the new marker
   passes over an event the peer has not applied, or will pass over the next
   one to be queued, while the oldest BATCH rows still reach above the marker.
   */
  ghost predicate CanLose(w: World, from_: nat)
    requires w.session.Some?
  {
    var s := w.session.value;
    var m := ResendMarker(from_);
    var passed := Passed(Kept(w.db), s, m);
    && s.batch == []
    && (|| (|passed| < BATCH && !(passed <= Applied(w.peer, s.stream)))
        || (|passed| + 1 < BATCH && w.db.counter < m))
  }

  // ------------------------------------------------- what is kept without it

  /** Why no ack can come to pass over an event: one of four reasons. */
  ghost predicate MarkerOk(kept: set<nat>, done: set<nat>, top: nat, m: nat, s: Session) {
    || s.batch != []
    || AllSentThrough(kept - done, top, m, s.sent)
    || |Passed(kept, s, m)| >= BATCH
    || (top < m && |Passed(kept, s, m)| + 1 >= BATCH && Passed(kept, s, m) <= done)
  }

  ghost predicate SoundConnection(w: World, s: Session) {
    var done := Applied(w.peer, StreamId(w.db));
    && s.stream == StreamId(w.db)
    && FramesIssued(w, s.wire) && FramesIssued(w, s.batch)
    && SessionOk(Kept(w.db) - done, w.db.counter, done, 0, s)
    && MarkerOk(Kept(w.db), done, w.db.counter, w.link.sentThrough, s)
  }

  /** Weaker than Inv: the marker may stand beyond what was sent. */
  ghost predicate Sound(w: World) {
    StoreInv(w) && (w.session.Some? ==> SoundConnection(w, w.session.value))
  }

  lemma KeptMember(db: Db, n: nat)
    ensures n in Kept(db) <==> exists e :: Row(e, false) in db.events && e.kind != STATUS_KIND && e.num == n
    ensures n in Kept(db) ==> n in Queued(db)
  {
    if n in Kept(db) {
      var e :| e in Unacked(db.events) && e.kind != STATUS_KIND && e.num == n;
      UnackedMember(db.events, e);
    }
    if e :| Row(e, false) in db.events && e.kind != STATUS_KIND && e.num == n {
      UnackedMember(db.events, e);
    }
  }

  lemma KeptInRange(db: Db)
    requires QueueOk(db)
    ensures Kept(db) <= Queued(db)
    ensures forall n :: n in Kept(db) ==> 1 <= n <= db.counter
  {
    QueuedInRange(db);
    forall n | n in Kept(db) ensures n in Queued(db) {
      KeptMember(db, n);
    }
  }

  lemma Rebased(q: set<nat>, top: nat, done: set<nat>, m: nat, s: Session, m': nat)
    requires SessionOk(q, top, done, m, s) && AllSentThrough(q, top, m', s.sent)
    ensures SessionOk(q, top, done, m', s)
  {
  }

  lemma InvIsSound(w: World)
    requires Inv(w)
    ensures Sound(w)
  {
    if w.session.Some? {
      var s := w.session.value;
      var done := Applied(w.peer, s.stream);
      var q := Kept(w.db) - done;
      KeptInRange(w.db);
      hide JournalOk, PeerOk, Accounted, HistoryOk;
      QueueChanges(Queued(w.db), w.db.counter, done, w.link.sentThrough, s, q, w.db.counter, done);
      Rebased(q, w.db.counter, done, w.link.sentThrough, s, 0);
    }
  }

  /** An unapplied number that an ack or a frame covers was sent on this connection. */
  lemma CoveredWasSent(q: set<nat>, top: nat, done: set<nat>, s: Session, n: nat)
    requires SessionOk(q, top, done, 0, s) && n in q && n !in done && Covered(s, n)
    ensures n in s.sent
  {
    hide BatchOk, AllSentThrough, Below, WireOk, Nums;
    if e :| e in s.wire && n <= e.num {
      FrameCovers(q, top, done, s.wire, e, n);
    }
  }

  /** An unapplied number at or below a frame is on the wire with it. */
  lemma FrameCovers(q: set<nat>, top: nat, done: set<nat>, wire: seq<Event>, e: Event, n: nat)
    requires WireOk(q, top, done, wire) && e in wire && n <= e.num && n in q && n !in done
    ensures n in Nums(wire)
  {
    var i :| 0 <= i < |wire| && wire[i] == e;
    assert n in Nums(wire[..i + 1]);
    var f :| f in wire[..i + 1] && f.num == n;
    assert f in wire;
  }

  /** With everything it passes over applied, a marker within the counter passes over nothing unsent. */
  lemma PassedDone(kept: set<nat>, top: nat, done: set<nat>, s: Session, m: nat)
    requires SessionOk(kept - done, top, done, 0, s) && Passed(kept, s, m) <= done && m <= top
    ensures AllSentThrough(kept - done, top, m, s.sent)
  {
    forall n | n in kept - done && n <= m ensures n in s.sent {
      assert n !in Passed(kept, s, m);
      CoveredWasSent(kept - done, top, done, s, n);
    }
  }

  /** The link and the connection play no part in the account of events. */
  lemma SameStore(w: World, w': World)
    requires StoreInv(w) && w' == w.(link := w'.link, session := w'.session)
    ensures StoreInv(w')
  {
  }

  /** A harmless request leaves the connection sound. */
  lemma HarmlessResend(w: World, from_: nat)
    requires Sound(w) && w.session.Some? && !CanLose(w, from_)
    ensures Sound(AnyResend(w, from_))
  {
    hide StoreInv, SessionOk, AllSentThrough, Passed, Applied, Kept;
    SameStore(w, AnyResend(w, from_));
    var done := Applied(w.peer, w.session.value.stream);
    HarmlessMarker(Kept(w.db), done, w.db.counter, ResendMarker(from_), w.session.value);
  }

  lemma HarmlessMarker(kept: set<nat>, done: set<nat>, top: nat, m: nat, s: Session)
    requires SessionOk(kept - done, top, done, 0, s)
    requires s.batch == [] ==> var passed := Passed(kept, s, m);
      (|passed| >= BATCH || passed <= done) && (|passed| + 1 >= BATCH || m <= top)
    ensures MarkerOk(kept, done, top, m, s)
  {
    hide SessionOk, AllSentThrough, Passed;
    if s.batch == [] && Passed(kept, s, m) <= done && m <= top {
      PassedDone(kept, top, done, s, m);
    }
  }

  // ------------------------------------------------------------ marker steps

  /** Queueing under new numbers. */
  lemma GrowthKeepsMarker(kept: set<nat>, done: set<nat>, top: nat, m: nat, s: Session, kept': set<nat>, top': nat)
    requires MarkerOk(kept, done, top, m, s) && SessionOk(kept - done, top, done, 0, s)
    requires kept <= kept' && top <= top' && forall n :: n in kept' ==> n in kept || n > top
    ensures MarkerOk(kept', done, top', m, s)
  {
    var passed := Passed(kept, s, m);
    var passed' := Passed(kept', s, m);
    SubsetSize(passed, passed');
    if top < m && |passed| + 1 >= BATCH && passed <= done {
      if n :| n in kept' && n !in kept && n <= m {
        assert !Covered(s, n);
        SubsetSize(passed + {n}, passed');
      } else {
        assert passed' == passed;
        if m <= top' {
          PassedDone(kept, m, done, s, m) by {
            QueueChanges(kept - done, top, done, 0, s, kept - done, m, done);
          }
        }
      }
    }
  }

  lemma ApplyKeepsMarker(kept: set<nat>, done: set<nat>, top: nat, m: nat, s: Session, done': set<nat>, s': Session)
    requires MarkerOk(kept, done, top, m, s) && done <= done'
    requires s'.batch == s.batch && s'.sent == s.sent
    requires forall n :: Covered(s', n) ==> Covered(s, n)
    requires forall n :: n in kept && Covered(s, n) && !Covered(s', n) ==> n in done'
    ensures MarkerOk(kept, done', top, m, s')
  {
    hide Covered;
    SubsetSize(Passed(kept, s, m), Passed(kept, s', m));
  }

  /** After the head frame was applied, what only it covered is done. */
  lemma HeadUncovers(q: set<nat>, top: nat, done: set<nat>, s: Session, s': Session, n: nat)
    requires SessionOk(q, top, done, 0, s) && s.wire != []
    requires s'.wire == s.wire[1..] && (s'.acks == s.acks || s'.acks == s.acks + [s.wire[0].num])
    ensures Covered(s', n) ==> Covered(s, n)
    ensures (n in q || n in done) && Covered(s, n) && !Covered(s', n) ==> n in done + {s.wire[0].num}
  {
    assert s.wire == [s.wire[0]] + s.wire[1..];
    WireAdvances(q, top, done, s.wire);
    if Covered(s, n) && !Covered(s', n) {
      assert forall a :: a in s.acks ==> a in s'.acks;
      var e :| e in s.wire && n <= e.num;
      assert e in s'.wire || e == s.wire[0];
    }
  }

  lemma AckUncovers(s: Session, s': Session, n: nat)
    requires s.acks != [] && s' == s.(acks := s.acks[1..])
    ensures Covered(s, n) <==> n <= s.acks[0] || Covered(s', n)
  {
    assert s.acks == [s.acks[0]] + s'.acks;
    assert s.acks[0] in s.acks;
    assert forall a :: a in s.acks <==> a == s.acks[0] || a in s'.acks;
  }

  /** Taking an ack off the wire and its rows out of the queue. */
  lemma AckKeepsMarker(kept: set<nat>, done: set<nat>, top: nat, m: nat, s: Session, kept': set<nat>)
    requires MarkerOk(kept, done, top, m, s) && s.acks != []
    requires kept' == set n | n in kept && n > s.acks[0]
    ensures MarkerOk(kept', done, top, m, s.(acks := s.acks[1..]))
  {
    var s' := s.(acks := s.acks[1..]);
    forall n | n in kept ensures !Covered(s, n) <==> n in kept' && !Covered(s', n) {
      AckUncovers(s, s', n);
    }
    assert Passed(kept', s', m) == Passed(kept, s, m);
  }

  // ------------------------------------------------------------- file steps

  /** An emit keeps every event that is no status sample and adds at most its own. */
  lemma EmitKept(db: Db, kind: string, payload: Payload, keep: int)
    requires QueueOk(db)
    ensures Kept(Emit(db, kind, payload, keep)) == Kept(db) + if kind == STATUS_KIND then {} else {db.counter + 1}
    ensures QueueOk(Emit(db, kind, payload, keep)) && Emit(db, kind, payload, keep).counter == db.counter + 1
  {
    AppendKeepsQueueOk(db, kind, payload);
    AppendKept(db, kind, payload);
    TrimKept(AppendEvent(db, kind, payload), keep);
  }

  lemma AppendKept(db: Db, kind: string, payload: Payload)
    ensures Kept(AppendEvent(db, kind, payload)) == Kept(db) + if kind == STATUS_KIND then {} else {db.counter + 1}
  {
    var e := Event(db.counter + 1, kind, payload);
    UnackedAppend(db.events, [Row(e, false)]);
    assert Unacked([Row(e, false)]) == [e] by {
      assert [Row(e, false)][1..] == [];
    }
    assert Unacked(AppendEvent(db, kind, payload).events) == Unacked(db.events) + [e];
  }

  lemma TrimKept(db: Db, keep: int)
    requires QueueOk(db)
    ensures Kept(TrimEvents(db, keep)) == Kept(db)
    ensures QueueOk(TrimEvents(db, keep)) && TrimEvents(db, keep).counter == db.counter
  {
    var after := TrimEvents(db, keep);
    TrimLosesOnlyStatus(db, keep);
    hide TrimEvents, Kept, QueueOk;
    forall n: nat ensures n in Kept(after) <==> n in Kept(db) {
      KeptMember(db, n);
      KeptMember(after, n);
    }
  }

  lemma ExtendsKept(a: Db, b: Db)
    requires Extends(a, b)
    ensures Kept(a) <= Kept(b)
    ensures forall n :: n in Kept(b) ==> n in Kept(a) || n > a.counter
  {
    ExtendsRows(a, b);
    forall n | n in Kept(a) ensures n in Kept(b) {
      KeptMember(a, n);
      KeptMember(b, n);
    }
    forall n | n in Kept(b) ensures n in Kept(a) || n > a.counter {
      KeptMember(b, n);
      KeptMember(a, n);
    }
  }

  lemma AckKept(db: Db, upTo: nat)
    requires QueueOk(db)
    ensures Kept(AckThrough(db, upTo)) == set n | n in Kept(db) && n > upTo
  {
    var after := AckThrough(db, upTo);
    AckRemovesPrefix(db, upTo);
    forall n: nat ensures n in Kept(after) <==> n in Kept(db) && n > upTo {
      KeptMember(db, n);
      KeptMember(after, n);
    }
  }

  // ------------------------------------------------------------ sound steps

  /** A file change that only queues events and drops status samples. */
  lemma GrowthKeepsSound(w: World, w': World)
    requires Sound(w) && StoreInv(w') && w'.session == w.session && w'.peer == w.peer
    requires w'.link.sentThrough == w.link.sentThrough && StreamId(w'.db) == StreamId(w.db)
    requires forall x :: x in w.issued ==> x in w'.issued
    requires w.db.counter <= w'.db.counter && Kept(w.db) <= Kept(w'.db)
    requires forall n :: n in Kept(w'.db) ==> n in Kept(w.db) || n > w.db.counter
    ensures Sound(w')
  {
    hide StoreInv, Kept, Applied;
    if w.session.Some? {
      var s := w.session.value;
      var done := Applied(w.peer, s.stream);
      GrowthKeepsMarker(Kept(w.db), done, w.db.counter, w.link.sentThrough, s, Kept(w'.db), w'.db.counter);
      QueueChanges(Kept(w.db) - done, w.db.counter, done, 0, s, Kept(w'.db) - done, w'.db.counter, done);
      hide MarkerOk, SessionOk;
    }
  }

  lemma QueueStepSound(w: World, a: Action)
    requires Sound(w) && Enabled(w, a) && (a.Emitted? || a.Wrote?)
    ensures Sound(Next(w, a))
  {
    var w' := Next(w, a);
    if a.Emitted? {
      EmittedKeepsStore(w, a);
      EmitKept(w.db, a.kind, a.payload, w.cap);
    } else {
      ExtendsKeepsStore(w, a.db, w');
      ExtendsKept(w.db, a.db);
      assert forall x :: x in w.issued ==> x in w'.issued;
    }
    hide StoreInv, SoundConnection, Kept;
    GrowthKeepsSound(w, w');
  }

  lemma LookedSound(w: World, a: Action)
    requires Sound(w) && a.Looked? && Enabled(w, a)
    ensures Sound(Next(w, a))
  {
    var s := w.session.value;
    KeptInRange(w.db);
    NextBatchIssued(w);
    SameStore(w, Next(w, a));
    hide StoreInv, AllSentThrough, SessionOk, Kept, Applied, NextBatch;
    var found := NextBatch(w.db, w.link.sentThrough);
    if found == [] {
      assert s.(batch := found, parked := true) == Next(w, a).session.value;
      Parked(Kept(w.db), Applied(w.peer, s.stream), w.db.counter, w.link.sentThrough, s, true);
    } else {
      FoundBatch(w.db, Applied(w.peer, s.stream), w.link.sentThrough, s);
    }
  }

  lemma Parked(kept: set<nat>, done: set<nat>, top: nat, m: nat, s: Session, parked: bool)
    requires SessionOk(kept - done, top, done, 0, s) && MarkerOk(kept, done, top, m, s)
    ensures SessionOk(kept - done, top, done, 0, s.(parked := parked))
    ensures MarkerOk(kept, done, top, m, s.(parked := parked))
  {
    assert Passed(kept, s.(parked := parked), m) == Passed(kept, s, m);
  }

  /** A batch is found only when everything queued below the marker was sent. */
  lemma FoundBatch(db: Db, done: set<nat>, m: nat, s: Session)
    requires QueueOk(db) && SessionOk(Kept(db) - done, db.counter, done, 0, s) && s.batch == []
    requires Kept(db) <= Queued(db) && 0 !in Kept(db)
    requires MarkerOk(Kept(db), done, db.counter, m, s) && NextBatch(db, m) != []
    ensures SessionOk(Kept(db) - done, db.counter, done, 0, s.(batch := NextBatch(db, m), parked := false))
  {
    var q := Kept(db) - done;
    BatchBelowMarker(db, s, m);
    hide SessionOk, NextBatch, Kept, Passed, AllSentThrough, Queued;
    Rebased(q, db.counter, done, 0, s, m);
    LookKeeps(db, q, done, m, s);
    MarkerZero(q, db.counter, done, m, s.(batch := NextBatch(db, m), parked := false));
  }

  lemma MarkerZero(q: set<nat>, top: nat, done: set<nat>, m: nat, s: Session)
    requires SessionOk(q, top, done, m, s) && 0 !in q
    ensures SessionOk(q, top, done, 0, s) && AllSentThrough(q, top, m, s.sent)
  {
  }

  lemma NextBatchIssued(w: World)
    requires FileOk(w)
    ensures FramesIssued(w, NextBatch(w.db, w.link.sentThrough))
  {
    forall e | e in NextBatch(w.db, w.link.sentThrough) ensures Issued(StreamId(w.db), e) in w.issued {
      assert e in Unacked(w.db.events);
      UnackedMember(w.db.events, e);
    }
  }

  /** BATCH queued numbers at or below the marker hide everything above it. */
  lemma BatchBelowMarker(db: Db, s: Session, m: nat)
    requires QueueOk(db) && NextBatch(db, m) != []
    ensures |Passed(Kept(db), s, m)| < BATCH && m < db.counter
  {
    var e := NextBatch(db, m)[0];
    assert e in NextBatch(db, m);
    OldestBatchBound(db, e);
    KeptInRange(db);
    var below := Below(Queued(db), e.num);
    assert e.num in below;
    SubsetSize(Passed(Kept(db), s, m), below - {e.num});
    assert |below - {e.num}| == |below| - 1;
    QueuedInRange(db);
  }

  lemma SendSound(w: World, a: Action)
    requires Sound(w) && (a.SendStarted? || a.SendReturned?) && Enabled(w, a)
    ensures Sound(Next(w, a))
  {
    hide AllSentThrough, SessionOk, Kept, Applied, JournalOk, PeerOk, Accounted, HistoryOk;
    var s := w.session.value;
    KeptInRange(w.db);
    SameStore(w, Next(w, a));
    hide StoreInv;
    var done := Applied(w.peer, s.stream);
    var q := Kept(w.db) - done;
    if a.SendStarted? {
      SendStartKeeps(q, w.db.counter, done, 0, s);
    } else {
      SendReturnKeeps(q, w.db.counter, done, 0, s);
      MarkerZero(q, w.db.counter, done, s.batch[0].num, Next(w, a).session.value);
      assert s.batch == [s.batch[0]] + s.batch[1..];
    }
  }

  lemma PeerSound(w: World, a: Action)
    requires Sound(w) && a.PeerApplied? && Enabled(w, a)
    ensures Sound(Next(w, a))
  {
    hide SoundConnection, StoreInv;
    var w' := Next(w, a);
    ApplyKeepsStore(w, Issued(StreamId(w.db), w.session.value.wire[0]), w') by {
      FirstFrameIssued(w);
    }
    PeerConnection(w, w.session.value, w', w'.session.value, a.ack);
  }

  lemma FirstFrameIssued(w: World)
    requires Sound(w) && w.session.Some? && w.session.value.wire != []
    ensures Issued(StreamId(w.db), w.session.value.wire[0]) in w.issued
    ensures w.session.value.stream == StreamId(w.db)
  {
  }

  lemma PeerConnection(w: World, s: Session, w': World, s': Session, ack: bool)
    requires SoundConnection(w, s) && s.wire != [] && w'.db == w.db && w'.link == w.link && w'.issued == w.issued
    requires s' == s.(wire := s.wire[1..], acks := if ack then s.acks + [s.wire[0].num] else s.acks)
    requires Applied(w'.peer, StreamId(w.db)) == Applied(w.peer, StreamId(w.db)) + {s.wire[0].num}
    ensures SoundConnection(w', s')
  {
    hide Kept, Applied, SessionOk, MarkerOk, StreamId;
    FrameApplied(Kept(w.db), Applied(w.peer, s.stream), w.db.counter, w.link.sentThrough, s, ack);
    assert forall x :: x in s'.wire ==> x in s.wire;
  }

  lemma StaleSound(w: World, a: Action)
    requires Sound(w) && a.StaleApplied? && Enabled(w, a)
    ensures Sound(Next(w, a))
  {
    var w' := Next(w, a);
    assert a.frame in w.issued;
    hide Kept, Applied, SessionOk, MarkerOk, StoreInv, Apply;
    ApplyKeepsStore(w, a.frame, w');
    if w.session.Some? {
      var s := w.session.value;
      DoneGrows(Kept(w.db), Applied(w.peer, s.stream), w.db.counter, w.link.sentThrough, s, Applied(w'.peer, s.stream));
    }
  }

  lemma FrameApplied(kept: set<nat>, done: set<nat>, top: nat, m: nat, s: Session, ack: bool)
    requires SessionOk(kept - done, top, done, 0, s) && MarkerOk(kept, done, top, m, s) && s.wire != []
    ensures var done' := done + {s.wire[0].num};
      var s' := s.(wire := s.wire[1..], acks := if ack then s.acks + [s.wire[0].num] else s.acks);
      SessionOk(kept - done', top, done', 0, s') && MarkerOk(kept, done', top, m, s')
  {
    var done' := done + {s.wire[0].num};
    var s' := s.(wire := s.wire[1..], acks := if ack then s.acks + [s.wire[0].num] else s.acks);
    hide SessionOk, MarkerOk, Covered;
    PeerKeeps(kept - done, top, done, done', 0, s, ack);
    QueueChanges(kept - done, top, done', 0, s', kept - done', top, done');
    forall n: nat ensures Covered(s', n) ==> Covered(s, n)
      ensures n in kept && Covered(s, n) && !Covered(s', n) ==> n in done'
    {
      HeadUncovers(kept - done, top, done, s, s', n);
    }
    ApplyKeepsMarker(kept, done, top, m, s, done', s');
  }

  lemma DoneGrows(kept: set<nat>, done: set<nat>, top: nat, m: nat, s: Session, done': set<nat>)
    requires SessionOk(kept - done, top, done, 0, s) && MarkerOk(kept, done, top, m, s) && done <= done'
    ensures SessionOk(kept - done', top, done', 0, s) && MarkerOk(kept, done', top, m, s)
  {
    hide SessionOk, MarkerOk, Covered;
    QueueChanges(kept - done, top, done, 0, s, kept - done', top, done');
    ApplyKeepsMarker(kept, done, top, m, s, done', s);
  }

  /** No ack on its way can take an unapplied event out of the queue. */
  lemma SoundAck(w: World)
    requires Sound(w) && w.session.Some? && w.session.value.acks != []
    ensures AckIsSound(w, w.session.value.acks[0])
  {
    var a := w.session.value.acks[0];
    assert a in w.session.value.acks;
    forall e | Row(e, false) in w.db.events && e.num <= a && e.kind != STATUS_KIND
      ensures e.num in Applied(w.peer, StreamId(w.db))
    {
      KeptMember(w.db, e.num);
    }
  }

  lemma AckSound(w: World, a: Action)
    requires Sound(w) && a.AckArrived? && Enabled(w, a)
    ensures Sound(Next(w, a))
  {
    var w' := Next(w, a);
    var s := w.session.value;
    hide SoundConnection, QueueOk, Kept, Applied, NewlyAcked, MarkAcked, DeleteAcked;
    SoundAck(w);
    AckKeepsStore(w, s.acks[0], w');
    AckKept(w.db, s.acks[0]);
    hide StoreInv;
    AckConnection(w, s, w', s.(acks := s.acks[1..]));
  }

  lemma AckConnection(w: World, s: Session, w': World, s': Session)
    requires SoundConnection(w, s) && s.acks != [] && s' == s.(acks := s.acks[1..])
    requires w'.db.counter == w.db.counter && StreamId(w'.db) == StreamId(w.db) && w'.peer == w.peer
    requires w'.link.sentThrough == w.link.sentThrough && w'.issued == w.issued
    requires Kept(w'.db) == set n | n in Kept(w.db) && n > s.acks[0]
    ensures SoundConnection(w', s')
  {
    hide Kept, Applied, SessionOk, MarkerOk, StreamId;
    var done := Applied(w.peer, s.stream);
    AckReceived(Kept(w.db) - done, w.db.counter, done, 0, s);
    QueueChanges(Kept(w.db) - done, w.db.counter, done, 0, s', Kept(w'.db) - done, w.db.counter, done);
    AckKeepsMarker(Kept(w.db), done, w.db.counter, w.link.sentThrough, s, Kept(w'.db));
  }

  lemma ConnectedSound(w: World, a: Action)
    requires Sound(w) && a.Connected? && Enabled(w, a)
    ensures Sound(Next(w, a))
  {
    KeptInRange(w.db);
    SameStore(w, Next(w, a));
    hide StoreInv, Kept, Applied, SessionOk;
    var done := Applied(w.peer, StreamId(w.db));
    NewConnection(Kept(w.db) - done, w.db.counter, done, StreamId(w.db));
  }

  lemma SafeResendSound(w: World, a: Action)
    requires Sound(w) && a.ResendArrived? && Enabled(w, a)
    ensures Sound(Next(w, a))
  {
    KeptInRange(w.db);
    SameStore(w, Next(w, a));
    hide StoreInv, SessionOk, Kept, Queued, Applied, Passed;
  }

  lemma SoundStep(w: World, a: Action)
    requires Sound(w) && Enabled(w, a)
    ensures Sound(Next(w, a))
  {
    hide Next, StoreInv;
    match a
    case Emitted(_, _) => QueueStepSound(w, a);
    case Wrote(_) => QueueStepSound(w, a);
    case Connected => ConnectedSound(w, a);
    case Looked => LookedSound(w, a);
    case SendStarted => SendSound(w, a);
    case SendReturned => SendSound(w, a);
    case PeerApplied(_) => PeerSound(w, a);
    case StaleApplied(_) => StaleSound(w, a);
    case AckArrived => AckSound(w, a);
    case ResendArrived(_) => SafeResendSound(w, a);
    case Disconnected => EndingSound(w, a);
    case Restarted(_, _) => EndingSound(w, a);
    case CrashedInAck(_, _) => EndingSound(w, a);
    case Rebuilt(_) => EndingSound(w, a);
  }

  lemma EndingSound(w: World, a: Action)
    requires Sound(w) && Enabled(w, a) && (a.Disconnected? || a.Restarted? || a.CrashedInAck? || a.Rebuilt?)
    ensures Sound(Next(w, a))
  {
    hide StoreInv, Next;
    match a
    case Disconnected => DisconnectedKeeps(w, a); InvIsSound(Next(w, a));
    case Restarted(_, _) => RestartedKeeps(w, a); InvIsSound(Next(w, a));
    case CrashedInAck(_, _) => SoundAck(w); CrashedInAckKeeps(w, a); InvIsSound(Next(w, a));
    case Rebuilt(_) => RebuiltKeeps(w, a); InvIsSound(Next(w, a));
  }

  lemma {:induction false} SoundPath(worlds: seq<World>, acts: seq<Action>, k: nat)
    requires Path(worlds, acts) && k <= |acts| && Sound(worlds[0])
    ensures Sound(worlds[k])
  {
    hide Sound;
    if k > 0 {
      SoundPath(worlds, acts, k - 1);
      assert Moves(worlds, acts, k - 1);
      SoundStep(worlds[k - 1], acts[k - 1]);
    }
  }

  lemma SoundRun(w: World, acts: seq<Action>, end: World)
    requires Sound(w) && Reaches(w, acts, end)
    ensures NothingLost(end)
  {
    hide SoundConnection, NothingLost, StoreInv;
    var worlds :| Path(worlds, acts) && worlds[0] == w && worlds[|acts|] == end;
    SoundPath(worlds, acts, |acts|);
    StoreLosesNothing(end);
  }

  // ------------------------------------------------ runs with any harmless request

  /** A step, or a resend request for any number that is not dangerous. */
  ghost predicate HarmlessStep(w: World, w': World) {
    || (exists a :: Enabled(w, a) && w' == Next(w, a))
    || (w.session.Some? && exists from_ :: !CanLose(w, from_) && w' == AnyResend(w, from_))
  }

  ghost predicate HarmlessRun(worlds: seq<World>) {
    worlds != [] && forall i :: 0 <= i < |worlds| - 1 ==> HarmlessAt(worlds, i)
  }

  ghost predicate HarmlessAt(worlds: seq<World>, i: nat)
    requires i < |worlds| - 1
  {
    HarmlessStep(worlds[i], worlds[i + 1])
  }

  lemma HarmlessStepSound(w: World, w': World)
    requires Sound(w) && HarmlessStep(w, w')
    ensures Sound(w')
  {
    hide Sound, Next, Enabled, CanLose;
    if a :| Enabled(w, a) && w' == Next(w, a) {
      SoundStep(w, a);
    } else {
      var from_ :| !CanLose(w, from_) && w' == AnyResend(w, from_);
      HarmlessResend(w, from_);
    }
  }

  lemma {:induction false} HarmlessRunSound(worlds: seq<World>, k: nat)
    requires HarmlessRun(worlds) && k < |worlds| && Sound(worlds[0])
    ensures Sound(worlds[k])
  {
    hide Sound, HarmlessStep;
    if k > 0 {
      HarmlessRunSound(worlds, k - 1);
      assert HarmlessAt(worlds, k - 1);
      HarmlessStepSound(worlds[k - 1], worlds[k]);
    }
  }

  /**
   The delivery theorem under the weakest guard: in every run in which no
   resend request is dangerous, nothing but status samples is lost, nothing is
   applied twice, and no label and number name two events.
   */
  lemma HarmlessRunsLoseNothing(worlds: seq<World>)
    requires HarmlessRun(worlds) && Init(worlds[0])
    ensures var end := worlds[|worlds| - 1]; NothingLost(end) && AppliedOnce(end) && UniqueNumbers(end.issued)
  {
    hide SoundConnection, Inv, HarmlessAt, NothingLost;
    InitHolds(worlds[0]);
    InvIsSound(worlds[0]);
    HarmlessRunSound(worlds, |worlds| - 1);
    StoreLosesNothing(worlds[|worlds| - 1]);
  }
}
