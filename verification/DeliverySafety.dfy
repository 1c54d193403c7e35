/**
 No loss and exactly-once effect over every run, and the sender's flow control.
 */
module DeliverySafety {
  import opened Basics
  import opened Database
  import opened Queue
  import opened Journal
  import opened Delivery
  import opened DeliverySession

  // --------------------------------------------------------- file changes

  lemma QueuedMember(db: Db, n: nat)
    ensures n in Queued(db) <==> exists e :: Row(e, false) in db.events && e.num == n
  {
    if n in Queued(db) {
      var e :| e in Unacked(db.events) && e.num == n;
      UnackedMember(db.events, e);
    }
    if e :| Row(e, false) in db.events && e.num == n {
      UnackedMember(db.events, e);
    }
  }

  lemma QueuedInRange(db: Db)
    requires QueueOk(db)
    ensures forall n :: n in Queued(db) ==> 1 <= n <= db.counter
  {
    forall n | n in Queued(db) ensures 1 <= n <= db.counter {
      QueuedMember(db, n);
    }
  }

  lemma {:induction false} NumberedLength(rows: seq<Row>, stream: string)
    ensures |Numbered(rows, stream)| == |rows|
  {
    if rows != [] {
      NumberedLength(rows[1..], stream);
    }
  }

  lemma {:induction false} NumberedAt(rows: seq<Row>, stream: string, i: nat)
    requires i < |rows|
    ensures |Numbered(rows, stream)| == |rows| && Numbered(rows, stream)[i] == Issued(stream, rows[i].event)
  {
    NumberedLength(rows, stream);
    if i > 0 {
      NumberedAt(rows[1..], stream, i - 1);
    }
  }

  // ------------------------------------------------- appending transactions

  /** The file and history part of the invariant. */
  ghost predicate StoreInv(w: World) {
    JournalOk(w.db) && FileOk(w) && HistoryOk(w) && PeerOk(w) && Accounted(w)
  }

  /** A transaction that only queues events gives each a number no event of the stream had. */
  lemma ExtendsNumbersAfresh(w: World, db: Db)
    requires StoreInv(w) && Extends(w.db, db)
    ensures UniqueNumbers(Record(w, w.db, db))
    ensures forall x :: x in Record(w, w.db, db) ==>
      x in w.issued || (x.stream == StreamId(db) && w.db.counter < x.event.num <= db.counter &&
        Row(x.event, false) in db.events)
    ensures forall r :: r in db.events ==> r in w.db.events || Issued(StreamId(db), r.event) in Record(w, w.db, db)
  {
    RecordedNumbers(w, db);
    RecordedUniquely(w, db);
    RecordedRows(w, db);
  }

  /** Entry k of the history after a transaction. */
  lemma RecordAt(w: World, db: Db, k: nat)
    requires Extends(w.db, db) && k < |w.issued| + |db.events| - |w.db.events|
    ensures var issued := Record(w, w.db, db);
      var i := k - |w.issued|;
      && |issued| == |w.issued| + |db.events| - |w.db.events|
      && (i < 0 ==> issued[k] == w.issued[k])
      && (i >= 0 ==>
            && issued[k] == Issued(StreamId(db), db.events[|w.db.events| + i].event)
            && issued[k].event.num == w.db.counter + 1 + i
            && db.events[|w.db.events| + i] == Row(issued[k].event, false))
  {
    var newRows := db.events[|w.db.events|..];
    var i := k - |w.issued|;
    if i >= 0 {
      NumberedAt(newRows, StreamId(db), i);
      assert newRows[i] == db.events[|w.db.events| + i];
    } else {
      NumberedLength(newRows, StreamId(db));
    }
  }

  lemma RecordedNumbers(w: World, db: Db)
    requires Extends(w.db, db)
    ensures forall x :: x in Record(w, w.db, db) ==>
      x in w.issued || (x.stream == StreamId(db) && w.db.counter < x.event.num <= db.counter &&
        Row(x.event, false) in db.events)
  {
    hide Record, StreamId;
    var issued := Record(w, w.db, db);
    RecordLength(w, db);
    forall x | x in issued && x !in w.issued
      ensures x.stream == StreamId(db) && w.db.counter < x.event.num <= db.counter && Row(x.event, false) in db.events
    {
      var k :| 0 <= k < |issued| && issued[k] == x;
      RecordAt(w, db, k);
    }
  }

  lemma RecordLength(w: World, db: Db)
    requires Extends(w.db, db)
    ensures |Record(w, w.db, db)| == |w.issued| + |db.events| - |w.db.events|
  {
    NumberedLength(db.events[|w.db.events|..], StreamId(db));
  }

  lemma RecordedUniquely(w: World, db: Db)
    requires StoreInv(w) && Extends(w.db, db)
    ensures UniqueNumbers(Record(w, w.db, db))
  {
    hide Record, StreamId, JournalOk, PeerOk, Accounted, QueueOk;
    var issued := Record(w, w.db, db);
    RecordLength(w, db);
    forall i, j | 0 <= i < j < |issued|
      ensures issued[i].stream != issued[j].stream || issued[i].event.num != issued[j].event.num
    {
      RecordAt(w, db, i);
      RecordAt(w, db, j);
      if i < |w.issued| <= j {
        assert w.issued[i] in w.issued;
      }
    }
  }

  lemma RecordedRows(w: World, db: Db)
    requires Extends(w.db, db)
    ensures forall r :: r in db.events ==> r in w.db.events || Issued(StreamId(db), r.event) in Record(w, w.db, db)
  {
    hide Record, StreamId;
    var issued := Record(w, w.db, db);
    forall r | r in db.events ensures r in w.db.events || Issued(StreamId(db), r.event) in issued {
      var k :| 0 <= k < |db.events| && db.events[k] == r;
      if k < |w.db.events| {
        assert w.db.events[k] == r;
      } else {
        RecordAt(w, db, |w.issued| + k - |w.db.events|);
      }
    }
  }

  /** Rows of a are rows of b, and the other rows of b carry new numbers. */
  lemma ExtendsRows(a: Db, b: Db)
    requires Extends(a, b)
    ensures forall r :: r in a.events ==> r in b.events
    ensures forall r :: r in b.events ==> r in a.events || r.event.num > a.counter
  {
    forall r | r in a.events ensures r in b.events {
      var k :| 0 <= k < |a.events| && a.events[k] == r;
      assert b.events[k] == r;
    }
    forall r | r in b.events ensures r in a.events || r.event.num > a.counter {
      var k :| 0 <= k < |b.events| && b.events[k] == r;
      if k < |a.events| {
        assert a.events[k] == r;
      }
    }
  }

  lemma ExtendsQueued(a: Db, b: Db)
    requires Extends(a, b)
    ensures Queued(a) <= Queued(b)
    ensures forall n :: n in Queued(b) ==> n in Queued(a) || n > a.counter
  {
    ExtendsRows(a, b);
    forall n | n in Queued(a) ensures n in Queued(b) {
      QueuedMember(a, n);
      QueuedMember(b, n);
    }
    forall n | n in Queued(b) ensures n in Queued(a) || n > a.counter {
      QueuedMember(b, n);
      QueuedMember(a, n);
    }
  }

  lemma ExtendsKeepsAccounted(w: World, db: Db, w': World)
    requires StoreInv(w) && Extends(w.db, db)
    requires w'.db == db && w'.peer == w.peer && w'.issued == Record(w, w.db, db)
    ensures Accounted(w')
  {
    ExtendsNumbersAfresh(w, db);
    ExtendsQueued(w.db, db);
    forall x | x in w'.issued && x.stream == StreamId(db) && x.event.kind != STATUS_KIND
      ensures x.event.num in Queued(db) || x.event.num in Applied(w.peer, x.stream)
    {
      if x !in w.issued {
        QueuedMember(db, x.event.num);
      }
    }
  }

  /** Every transaction that only queues events keeps the file, the history and the account of events. */
  lemma ExtendsKeepsStore(w: World, db: Db, w': World)
    requires StoreInv(w) && Extends(w.db, db) && JournalOk(db)
    requires w'.db == db && w'.peer == w.peer && w'.issued == Record(w, w.db, db) && w.labels <= w'.labels
    requires forall x :: x in w'.stale ==> x in w'.issued
    ensures StoreInv(w')
  {
    ExtendsKeepsQueueOk(w.db, db);
    ExtendsNumbersAfresh(w, db);
    ExtendsKeepsAccounted(w, db, w');
    assert forall x :: x in w.issued ==> x in w'.issued;
  }

  // ------------------------------------------------------- removing rows

  /** A stream label and number name one event. */
  lemma SameIssued(issued: seq<Issued>, x: Issued, y: Issued)
    requires UniqueNumbers(issued) && x in issued && y in issued
    requires x.stream == y.stream && x.event.num == y.event.num
    ensures x == y
  {
    var i :| 0 <= i < |issued| && issued[i] == x;
    var j :| 0 <= j < |issued| && issued[j] == y;
    assert i == j;
  }

  /** Removing or flagging rows is sound when every queued event it hides was applied or is a status sample. */
  lemma RemovalKeepsStore(w: World, db: Db, w': World)
    requires StoreInv(w) && QueueOk(db) && db.counter == w.db.counter && db.kv == w.db.kv && db.runs == w.db.runs
    requires forall r :: r in db.events ==> exists old_ :: old_ in w.db.events && old_.event == r.event
    requires forall e :: Row(e, false) in w.db.events && Row(e, false) !in db.events ==>
      e.kind == STATUS_KIND || e.num in Applied(w.peer, StreamId(w.db))
    requires w'.db == db && w'.peer == w.peer && w'.issued == w.issued && w'.labels == w.labels
    requires w'.stale == w.stale
    ensures StoreInv(w')
  {
    forall x | x in w'.issued && x.stream == StreamId(db) && x.event.kind != STATUS_KIND
      ensures x.event.num in Queued(db) || x.event.num in Applied(w.peer, x.stream)
    {
      if x.event.num in Queued(w.db) {
        QueuedMember(w.db, x.event.num);
        var e :| Row(e, false) in w.db.events && e.num == x.event.num;
        SameIssued(w.issued, x, Issued(StreamId(w.db), e));
        QueuedMember(db, x.event.num);
      }
    }
  }

  lemma RemovalQueued(a: Db, b: Db)
    requires forall e :: Row(e, false) in b.events ==> Row(e, false) in a.events
    ensures Queued(b) <= Queued(a)
  {
    forall n | n in Queued(b) ensures n in Queued(a) {
      QueuedMember(b, n);
      QueuedMember(a, n);
    }
  }

  // ------------------------------------------------------------ the steps

  /** Everything about the link except what depends on the queue having only grown at the top or shrunk. */
  lemma SessionFollows(w: World, w': World)
    requires Inv(w) && w.session.Some? && w'.session == w.session
    requires StreamId(w'.db) == StreamId(w.db) && w'.peer == w.peer && w'.link.sentThrough == w.link.sentThrough
    requires w.db.counter <= w'.db.counter
    requires forall n :: n in Queued(w'.db) ==> n in Queued(w.db) || n > w.db.counter
    requires forall x :: x in w.issued ==> x in w'.issued
    requires w'.link.wake
    ensures ConnectionOk(w', w'.session.value)
  {
    var s := w.session.value;
    QueueChanges(Queued(w.db), w.db.counter, Applied(w.peer, s.stream), w.link.sentThrough, s,
                 Queued(w'.db), w'.db.counter, Applied(w.peer, s.stream));
  }

  /** An emit keeps the store and leaves queued only what was, or the new number. */
  lemma EmittedKeepsStore(w: World, a: Action)
    requires StoreInv(w) && a.Emitted?
    ensures StoreInv(Next(w, a))
    ensures forall n :: n in Queued(Next(w, a).db) ==> n in Queued(w.db) || n > w.db.counter
  {
    AppendedKeepsStore(w, a.kind, a.payload);
    hide StoreInv, Queued, AppendEvent, TrimEvents;
    var w1 := Appended(w, a.kind, a.payload);
    var w' := Next(w, a);
    TrimmedKeepsStore(w1, w.cap, w');
  }

  function Appended(w: World, kind: string, payload: Payload): World {
    w.(db := AppendEvent(w.db, kind, payload),
       issued := w.issued + [Issued(StreamId(w.db), Event(w.db.counter + 1, kind, payload))])
  }

  /** The INSERT alone. */
  lemma AppendedKeepsStore(w: World, kind: string, payload: Payload)
    requires StoreInv(w)
    ensures StoreInv(Appended(w, kind, payload))
    ensures forall n :: n in Queued(AppendEvent(w.db, kind, payload)) ==> n in Queued(w.db) || n > w.db.counter
  {
    hide PeerOk, Accounted, Queued;
    var mid := AppendEvent(w.db, kind, payload);
    FreshOfAppend(w.db, kind, payload);
    assert mid.events[|w.db.events|..] == [Row(Event(w.db.counter + 1, kind, payload), false)];
    NumberedAt(mid.events[|w.db.events|..], StreamId(mid), 0);
    ExtendsKeepsStore(w, mid, Appended(w, kind, payload));
    ExtendsQueued(w.db, mid);
  }

  /** The trim alone. */
  lemma TrimmedKeepsStore(w: World, keep: int, w': World)
    requires StoreInv(w) && w'.db == TrimEvents(w.db, keep)
    requires w'.peer == w.peer && w'.issued == w.issued && w'.labels == w.labels && w'.stale == w.stale
    ensures StoreInv(w') && Queued(w'.db) <= Queued(w.db)
  {
    hide PeerOk, Accounted, Queued;
    TrimLosesOnlyStatus(w.db, keep);
    RemovalKeepsStore(w, w'.db, w');
    RemovalQueued(w.db, w'.db);
  }

  lemma EmittedKeeps(w: World, a: Action)
    requires Inv(w) && a.Emitted?
    ensures Inv(Next(w, a))
  {
    EmittedKeepsStore(w, a);
    if w.session.Some? {
      hide JournalOk, FileOk, HistoryOk, PeerOk, Accounted, Queued;
      SessionFollows(w, Next(w, a));
    }
  }

  lemma WroteKeeps(w: World, a: Action)
    requires Inv(w) && a.Wrote? && Enabled(w, a)
    ensures Inv(Next(w, a))
  {
    var w' := Next(w, a);
    ExtendsKeepsStore(w, a.db, w');
    if w.session.Some? {
      ExtendsQueued(w.db, a.db);
      assert forall x :: x in w.issued ==> x in w'.issued;
      SessionFollows(w, w');
    }
  }

  lemma ConnectedKeeps(w: World, a: Action)
    requires Inv(w) && a.Connected? && Enabled(w, a)
    ensures Inv(Next(w, a))
  {
    QueuedInRange(w.db);
    NewConnection(Queued(w.db), w.db.counter, Applied(w.peer, StreamId(w.db)), StreamId(w.db));
  }

  lemma SenderKeeps(w: World, a: Action)
    requires Inv(w) && Enabled(w, a) && (a.Looked? || a.SendStarted? || a.SendReturned?)
    ensures Inv(Next(w, a))
  {
    var s := w.session.value;
    var done := Applied(w.peer, s.stream);
    match a
    case Looked =>
      LookKeeps(w.db, Queued(w.db), done, w.link.sentThrough, s);
      forall e | e in NextBatch(w.db, w.link.sentThrough) ensures Issued(StreamId(w.db), e) in w.issued {
        assert e in Unacked(w.db.events);
        UnackedMember(w.db.events, e);
      }
    case SendStarted =>
      SendStartKeeps(Queued(w.db), w.db.counter, done, w.link.sentThrough, s);
    case SendReturned =>
      SendReturnKeeps(Queued(w.db), w.db.counter, done, w.link.sentThrough, s);
  }

  /** Applying or skipping a frame of an issued event keeps the peer's table and the account of events. */
  lemma ApplyKeepsStore(w: World, frame: Issued, w': World)
    requires StoreInv(w) && frame in w.issued
    requires w' == w.(peer := Apply(w.peer, frame.stream, frame.event), session := w'.session)
    ensures StoreInv(w')
    ensures Applied(w'.peer, StreamId(w.db))
      == Applied(w.peer, StreamId(w.db)) + if frame.stream == StreamId(w.db) then {frame.event.num} else {}
  {
    ApplyKeepsPeer(w, frame, w');
    hide PeerOk, JournalOk, QueueOk;
    ApplyAdds(w.peer, frame, StreamId(w.db));
    ApplyAddsAll(w.peer, frame);
  }

  lemma ApplyAdds(p: Peer, frame: Issued, stream: string)
    ensures Applied(Apply(p, frame.stream, frame.event), stream)
      == Applied(p, stream) + if frame.stream == stream then {frame.event.num} else {}
  {
    var key := (frame.stream, frame.event.num);
    var p' := Apply(p, frame.stream, frame.event);
    assert p'.ingested == p.ingested + {key};
    assert key in p'.ingested;
  }

  lemma ApplyAddsAll(p: Peer, frame: Issued)
    ensures forall stream :: Applied(p, stream) <= Applied(Apply(p, frame.stream, frame.event), stream)
  {
    forall stream ensures Applied(p, stream) <= Applied(Apply(p, frame.stream, frame.event), stream) {
      ApplyAdds(p, frame, stream);
    }
  }

  lemma ApplyKeepsPeer(w: World, frame: Issued, w': World)
    requires PeerOk(w) && frame in w.issued
    requires w' == w.(peer := Apply(w.peer, frame.stream, frame.event), session := w'.session)
    ensures PeerOk(w')
  {
    var key := (frame.stream, frame.event.num);
    assert w'.peer.ingested == w.peer.ingested + {key};
    assert key in w'.peer.ingested;
    forall k | k in w'.peer.ingested ensures exists x :: x in w'.peer.effects && k == (x.stream, x.event.num) {
      if k in w.peer.ingested {
        var x :| x in w.peer.effects && k == (x.stream, x.event.num);
        assert x in w'.peer.effects;
      } else {
        assert frame in w'.peer.effects;
      }
    }
  }

  lemma PeerAppliedKeeps(w: World, a: Action)
    requires Inv(w) && a.PeerApplied? && Enabled(w, a)
    ensures Inv(Next(w, a))
  {
    var s := w.session.value;
    var e := s.wire[0];
    var w' := Next(w, a);
    assert Issued(StreamId(w.db), e) in w.issued;
    ApplyKeepsStore(w, Issued(StreamId(w.db), e), w');
    PeerKeeps(Queued(w.db), w.db.counter, Applied(w.peer, s.stream), Applied(w'.peer, s.stream),
              w.link.sentThrough, s, a.ack);
    var s' := w'.session.value;
    assert FramesIssued(w', s'.wire) by {
      forall x | x in s'.wire ensures x in s.wire {
      }
    }
    assert ConnectionOk(w', s');
  }

  lemma StaleAppliedKeeps(w: World, a: Action)
    requires Inv(w) && a.StaleApplied? && Enabled(w, a)
    ensures Inv(Next(w, a))
  {
    var w' := Next(w, a);
    ApplyKeepsStore(w, a.frame, w');
    if w.session.Some? {
      var s := w.session.value;
      QueueChanges(Queued(w.db), w.db.counter, Applied(w.peer, s.stream), w.link.sentThrough, s,
                   Queued(w.db), w.db.counter, Applied(w'.peer, s.stream));
    }
  }

  lemma {:induction false} NothingNewlyAcked(rows: seq<Row>, upTo: int)
    requires NewlyAcked(rows, upTo) == 0
    ensures Unacked(DeleteAcked(MarkAcked(rows, upTo), upTo)) == Unacked(rows)
  {
    if rows != [] {
      assert !(!rows[0].acked && rows[0].event.num <= upTo);
      NothingNewlyAcked(rows[1..], upTo);
      var marked := MarkAcked(rows, upTo);
      assert marked[1..] == MarkAcked(rows[1..], upTo);
      var rest := DeleteAcked(marked[1..], upTo);
      var head := Row(rows[0].event, rows[0].acked || rows[0].event.num <= upTo);
      if head.acked && head.event.num <= upTo {
        assert DeleteAcked(marked, upTo) == rest;
      } else {
        assert DeleteAcked(marked, upTo) == [head] + rest;
        assert ([head] + rest)[1..] == rest;
      }
    }
  }

  /** Every queued event at or below n was applied or is a status sample. */
  ghost predicate AckIsSound(w: World, n: nat) {
    forall e :: Row(e, false) in w.db.events && e.num <= n ==>
      e.kind == STATUS_KIND || e.num in Applied(w.peer, StreamId(w.db))
  }

  lemma AppliedIsSound(w: World, n: nat)
    requires forall q :: q in Queued(w.db) && q <= n ==> q in Applied(w.peer, StreamId(w.db))
    ensures AckIsSound(w, n)
  {
    forall e | Row(e, false) in w.db.events && e.num <= n ensures e.num in Applied(w.peer, StreamId(w.db)) {
      QueuedMember(w.db, e.num);
    }
  }

  lemma AckKeepsStore(w: World, n: nat, w': World)
    requires StoreInv(w) && AckIsSound(w, n)
    requires w'.db == AckThrough(w.db, n) && w'.peer == w.peer && w'.issued == w.issued && w'.labels == w.labels
    requires w'.stale == w.stale
    ensures StoreInv(w') && Queued(w'.db) <= Queued(w.db)
  {
    AckRemovesPrefix(w.db, n);
    RemovalKeepsStore(w, w'.db, w');
    RemovalQueued(w.db, w'.db);
  }

  lemma AckArrivedKeeps(w: World, a: Action)
    requires Inv(w) && a.AckArrived? && Enabled(w, a)
    ensures Inv(Next(w, a))
  {
    var s := w.session.value;
    var n := s.acks[0];
    var w' := Next(w, a);
    var done := Applied(w.peer, s.stream);
    assert n in s.acks;
    AppliedIsSound(w, n);
    AckKeepsStore(w, n, w');
    AckReceived(Queued(w.db), w.db.counter, done, w.link.sentThrough, s);
    QueueChanges(Queued(w.db), w.db.counter, done, w.link.sentThrough, s.(acks := s.acks[1..]),
                 Queued(w'.db), w.db.counter, done);
    if NewlyAcked(w.db.events, n) == 0 {
      NothingNewlyAcked(w.db.events, n);
      assert Unacked(w'.db.events) == Unacked(w.db.events);
    }
    assert ConnectionOk(w', w'.session.value);
  }

  lemma ResendArrivedKeeps(w: World, a: Action)
    requires Inv(w) && a.ResendArrived? && Enabled(w, a)
    ensures Inv(Next(w, a))
  {
    var s := w.session.value;
    ResendKeeps(Queued(w.db), w.db.counter, Applied(w.peer, s.stream), w.link.sentThrough, s, a.from_);
  }

  /** The frames a connection leaves behind are issued. */
  ghost predicate WireIssued(w: World) {
    w.session.Some? ==> w.session.value.stream == StreamId(w.db) && FramesIssued(w, w.session.value.wire)
  }

  lemma DeadIssued(w: World)
    requires HistoryOk(w) && WireIssued(w)
    ensures forall x :: x in Dead(w) ==> x in w.issued
  {
  }

  lemma DisconnectedKeeps(w: World, a: Action)
    requires StoreInv(w) && WireIssued(w) && a.Disconnected? && Enabled(w, a)
    ensures Inv(Next(w, a))
  {
    DeadIssued(w);
  }

  lemma RestartedKeeps(w: World, a: Action)
    requires StoreInv(w) && WireIssued(w) && a.Restarted? && Enabled(w, a)
    ensures Inv(Next(w, a))
  {
    DeadIssued(w);
    RecoverKeeps(w.db, a.ids);
    ExtendsKeepsStore(w, Reopen(w.db, a.token, a.ids), Next(w, a));
  }

  lemma MarkKeepsStore(w: World, n: nat, w': World)
    requires StoreInv(w) && AckIsSound(w, n)
    requires w' == w.(db := w.db.(events := MarkAcked(w.db.events, n)))
    ensures StoreInv(w')
  {
    var db := w'.db;
    MarkedRows(w.db, n);
    forall r | r in db.events ensures exists old_ :: old_ in w.db.events && old_.event == r.event {
      var i :| 0 <= i < |db.events| && db.events[i] == r;
      assert w.db.events[i] in w.db.events;
    }
    RemovalKeepsStore(w, db, w');
  }

  lemma CrashedInAckKeeps(w: World, a: Action)
    requires StoreInv(w) && WireIssued(w) && a.CrashedInAck? && Enabled(w, a)
    requires AckIsSound(w, w.session.value.acks[0])
    ensures Inv(Next(w, a))
  {
    var n := w.session.value.acks[0];
    DeadIssued(w);
    var db := w.db.(events := MarkAcked(w.db.events, n));
    var w1 := w.(db := db);
    MarkKeepsStore(w, n, w1);
    RecoverKeeps(db, a.ids);
    ExtendsKeepsStore(w1, Reopen(db, a.token, a.ids), Next(w, a));
  }

  lemma RebuiltKeeps(w: World, a: Action)
    requires StoreInv(w) && WireIssued(w) && a.Rebuilt? && Enabled(w, a)
    ensures Inv(Next(w, a))
  {
    DeadIssued(w);
    assert StreamId(Next(w, a).db) == a.token;
  }

  /** Every step keeps the invariant. */
  lemma StepKeeps(w: World, a: Action)
    requires Inv(w) && Enabled(w, a)
    ensures Inv(Next(w, a))
  {
    hide Next, JournalOk, FileOk, HistoryOk, PeerOk, Accounted, NoLostWake;
    match a
    case Emitted(_, _) => EmittedKeeps(w, a);
    case Wrote(_) => WroteKeeps(w, a);
    case Connected => ConnectedKeeps(w, a);
    case Looked => SenderKeeps(w, a);
    case SendStarted => SenderKeeps(w, a);
    case SendReturned => SenderKeeps(w, a);
    case PeerApplied(_) => PeerAppliedKeeps(w, a);
    case StaleApplied(_) => StaleAppliedKeeps(w, a);
    case AckArrived => AckArrivedKeeps(w, a);
    case ResendArrived(_) => ResendArrivedKeeps(w, a);
    case Disconnected => DisconnectedKeeps(w, a);
    case Restarted(_, _) => RestartedKeeps(w, a);
    case CrashedInAck(_, _) =>
      var s := w.session.value;
      assert s.acks[0] in s.acks;
      AppliedIsSound(w, s.acks[0]);
      CrashedInAckKeeps(w, a);
    case Rebuilt(_) => RebuiltKeeps(w, a);
  }

  // ------------------------------------------------------------ whole runs

  /**
   Where a run starts: a store opened on no file, or on one that an older
   agent left with numbers already handed out under the empty label.
   */
  ghost predicate Init(w: World) {
    && w.session == None && w.stale == {} && w.link == Link(0, false)
    && (|| (exists token :: NewFile(w, token))
        || (exists file, token :: LegacyFile(w, file) && w.db == EnsureStreamId(file, token) && w.labels == {""}))
  }

  ghost predicate NewFile(w: World, token: string) {
    token != "" && w.db == EnsureStreamId(EMPTY, token) && w.labels == {token}
    && w.issued == [] && w.peer == Peer({}, [])
  }

  /** A file with sequence history and no label, whose events the peer knows under the empty label. */
  ghost predicate LegacyFile(w: World, file: Db) {
    && QueueOk(file) && JournalOk(file) && file.counter > 0 && STREAM_ID_KEY !in file.kv
    && UniqueNumbers(w.issued) && PeerOk(w)
    && (forall x :: x in w.issued ==> x.stream == "" && 1 <= x.event.num <= file.counter)
    && (forall r :: r in file.events ==> Issued("", r.event) in w.issued)
    && (forall x :: x in w.issued && x.event.kind != STATUS_KIND ==>
          x.event.num in Queued(file) || x.event.num in Applied(w.peer, ""))
  }

  lemma InitHolds(w: World)
    requires Init(w)
    ensures Inv(w)
  {
    if file, token :| LegacyFile(w, file) && w.db == EnsureStreamId(file, token) && w.labels == {""} {
      LastSeqZeroIffFresh(file);
    }
  }

  ghost predicate Moves(worlds: seq<World>, acts: seq<Action>, i: nat)
    requires i < |acts| && |worlds| == |acts| + 1
  {
    Enabled(worlds[i], acts[i]) && worlds[i + 1] == Next(worlds[i], acts[i])
  }

  ghost predicate Path(worlds: seq<World>, acts: seq<Action>) {
    |worlds| == |acts| + 1 && forall i :: 0 <= i < |acts| ==> Moves(worlds, acts, i)
  }

  /** The actions, each enabled where it is taken, lead from w to end. */
  ghost predicate Reaches(w: World, acts: seq<Action>, end: World) {
    exists worlds :: Path(worlds, acts) && worlds[0] == w && worlds[|acts|] == end
  }

  lemma {:induction false} PathKeeps(worlds: seq<World>, acts: seq<Action>, k: nat)
    requires Path(worlds, acts) && k <= |acts| && Inv(worlds[0])
    ensures Inv(worlds[k])
  {
    hide Inv;
    if k > 0 {
      PathKeeps(worlds, acts, k - 1);
      assert Moves(worlds, acts, k - 1);
      StepKeeps(worlds[k - 1], acts[k - 1]);
    }
  }

  lemma RunKeeps(w: World, acts: seq<Action>, end: World)
    requires Inv(w) && Reaches(w, acts, end)
    ensures Inv(end)
  {
    hide Inv;
    var worlds :| Path(worlds, acts) && worlds[0] == w && worlds[|acts|] == end;
    PathKeeps(worlds, acts, |acts|);
  }

  lemma StoreLosesNothing(w: World)
    requires StoreInv(w)
    ensures NothingLost(w)
  {
    forall x | x in w.issued && x.stream == StreamId(w.db) && x.event.kind != STATUS_KIND
      ensures Row(x.event, false) in w.db.events || x in w.peer.effects
    {
      if x.event.num in Queued(w.db) {
        QueuedMember(w.db, x.event.num);
        var e :| Row(e, false) in w.db.events && e.num == x.event.num;
        SameIssued(w.issued, x, Issued(StreamId(w.db), e));
      } else {
        var y :| y in w.peer.effects && (x.stream, x.event.num) == (y.stream, y.event.num);
        SameIssued(w.issued, x, y);
      }
    }
  }

  lemma RunOne(w: World, a: Action, rest: seq<Action>, end: World)
    requires Enabled(w, a) && Reaches(Next(w, a), rest, end)
    ensures Reaches(w, [a] + rest, end)
  {
    hide Next, Enabled;
    var worlds :| Path(worlds, rest) && worlds[0] == Next(w, a) && worlds[|rest|] == end;
    var longer := [w] + worlds;
    forall i | 0 <= i < |rest| + 1 ensures Moves(longer, [a] + rest, i) {
      if i > 0 {
        assert Moves(worlds, rest, i - 1);
      }
    }
    assert Path(longer, [a] + rest);
  }

  lemma RunNone(w: World)
    ensures Reaches(w, [], w)
  {
    assert Path([w], []);
  }

  /**
   In every run of appends, sends, acks, trims, resends, disconnects, crashes
   and rebuilt files: each event of the current file that is no status sample
   is still queued or was applied; nothing was applied twice; no label and
   number were given to two events.
   */
  lemma NoLossExactlyOnce(w: World, acts: seq<Action>, end: World)
    requires Init(w) && Reaches(w, acts, end)
    ensures NothingLost(end) && AppliedOnce(end) && UniqueNumbers(end.issued)
  {
    InitHolds(w);
    RunKeeps(w, acts, end);
    StoreLosesNothing(end);
  }

  // ---------------------------------------------------------- flow control

  /** On a connection at most BATCH queued events lie at or below the marker, all of them sent. */
  lemma BoundedInFlight(w: World, acts: seq<Action>, end: World)
    requires Init(w) && Reaches(w, acts, end) && end.session.Some?
    ensures |Below(Queued(end.db), end.link.sentThrough)| <= BATCH
    ensures Below(Queued(end.db), end.link.sentThrough) <= end.session.value.sent
  {
    InitHolds(w);
    RunKeeps(w, acts, end);
    var low := Below(Queued(end.db), end.link.sentThrough);
    if low != {} {
      var top := Greatest(low);
      SubsetSize(low, Below(Queued(end.db), top));
    }
  }

  lemma {:induction false} Greatest(s: set<nat>) returns (top: nat)
    requires s != {}
    ensures top in s && forall n :: n in s ==> n <= top
  {
    var x :| x in s;
    top := x;
    if s != {x} {
      var rest := Greatest(s - {x});
      top := if rest > x then rest else x;
      assert forall n :: n in s ==> n == x || n in s - {x};
    }
  }

  /**
   The sender finds nothing to send only when every queued event was sent on
   this connection, or exactly BATCH are in flight; and it is never left
   waiting, with no wake pending, while there is something to send.
   */
  lemma IdleOnlyWhenDoneOrFull(w: World, acts: seq<Action>, end: World)
    requires Init(w) && Reaches(w, acts, end) && end.session.Some?
    ensures NextBatch(end.db, end.link.sentThrough) == [] ==>
      || Queued(end.db) <= end.session.value.sent
      || |Below(Queued(end.db), end.link.sentThrough)| == BATCH
    ensures end.session.value.parked && !end.link.wake ==> NextBatch(end.db, end.link.sentThrough) == []
  {
    hide Init, Reaches;
    InitHolds(w);
    RunKeeps(w, acts, end);
    if NextBatch(end.db, end.link.sentThrough) == [] {
      BoundedInFlight(w, acts, end);
      NothingAbove(end.db, end.link.sentThrough);
      hide JournalOk, PeerOk, Accounted, NextBatch;
    }
  }

  /** With an empty next batch, all that is queued lies at or below the marker, or a full batch does. */
  lemma NothingAbove(db: Db, marker: nat)
    requires QueueOk(db) && NextBatch(db, marker) == []
    ensures Queued(db) <= Below(Queued(db), marker) || |Below(Queued(db), marker)| >= BATCH
  {
    var all := Unacked(db.events);
    var oldest := UnackedEvents(db, BATCH);
    forall e | e in oldest ensures e.num <= marker {
      assert e in NextBatch(db, marker) || e.num <= marker;
    }
    if |all| <= BATCH {
      assert oldest == all;
    } else {
      UnackedAscending(db.events);
      assert AscendingEvents(oldest);
      NumsSize(oldest);
      assert forall e :: e in oldest ==> e in all;
      SubsetSize(Nums(oldest), Below(Queued(db), marker));
    }
  }
}
