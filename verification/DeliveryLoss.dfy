/** The runs that lose an event after a dangerous resend request, and the exact condition they give. */
module DeliveryLoss {
  import opened Basics
  import opened Database
  import opened Queue
  import opened Delivery
  import opened DeliverySession
  import opened DeliverySafety
  import opened DeliveryResend

  /** e waits below the marker, unapplied and never to be sent, while rows above the marker are in reach. */
  ghost predicate Doomed(w: World, e: Event, m: nat) {
    && QueueOk(w.db) && w.link.sentThrough == m
    && Row(e, false) in w.db.events && e.kind != STATUS_KIND && Issued(StreamId(w.db), e) in w.issued
    && (StreamId(w.db), e.num) !in w.peer.ingested
    && (forall x :: x in w.peer.effects ==> (x.stream, x.event.num) in w.peer.ingested)
    && w.session.Some? && DoomedConnection(w, w.session.value, e, m)
  }

  ghost predicate DoomedConnection(w: World, s: Session, e: Event, m: nat) {
    && s.stream == StreamId(w.db) && s.batch == [] && !s.written
    && e.num in Passed(Kept(w.db), s, m) && |Passed(Kept(w.db), s, m)| < BATCH
  }

  predicate Quiet(w: World) {
    w.session.Some? && w.session.value.wire == [] && w.session.value.acks == []
  }

  /** The peer applies and acks what is on the wire, and the acks arrive. */
  lemma {:induction false} Drain(w: World, e: Event, m: nat) returns (acts: seq<Action>, end: World)
    requires Doomed(w, e, m)
    ensures Reaches(w, acts, end) && Doomed(end, e, m) && Quiet(end)
    decreases 2 * |w.session.value.wire| + |w.session.value.acks|
  {
    hide DoomedConnection, Reaches;
    var s := w.session.value;
    if s.wire != [] || s.acks != [] {
      var a := if s.wire != [] then PeerApplied(true) else AckArrived;
      var rest;
      DrainOne(w, e, m, a);
      rest, end := Drain(Next(w, a), e, m);
      RunOne(w, a, rest, end);
      acts := [a] + rest;
    } else {
      acts, end := [], w;
      RunNone(w);
    }
  }

  lemma DrainOne(w: World, e: Event, m: nat, a: Action)
    requires Doomed(w, e, m) && Enabled(w, a) && (a == PeerApplied(true) || a.AckArrived?)
    ensures Doomed(Next(w, a), e, m)
  {
    hide Kept, Passed, MarkAcked, DeleteAcked, NewlyAcked, QueueOk;
    if a.PeerApplied? {
      DrainFrame(w.session.value, Kept(w.db), m, e.num);
    } else {
      AckRemovesPrefix(w.db, w.session.value.acks[0]);
      DrainAck(w.db, w.session.value, m, e.num);
    }
  }

  lemma DrainFrame(s: Session, kept: set<nat>, m: nat, n: nat)
    requires s.wire != [] && n in Passed(kept, s, m)
    ensures Passed(kept, s.(wire := s.wire[1..], acks := s.acks + [s.wire[0].num]), m) == Passed(kept, s, m)
    ensures s.wire[0].num < n
  {
    var s' := s.(wire := s.wire[1..], acks := s.acks + [s.wire[0].num]);
    assert s.wire[0] in s.wire;
    forall k: nat ensures Covered(s', k) <==> Covered(s, k) {
      FrameToAck(s, s', k);
    }
    hide Covered;
    assert Passed(kept, s', m) == Passed(kept, s, m);
  }

  lemma DrainAck(db: Db, s: Session, m: nat, n: nat)
    requires QueueOk(db) && s.acks != [] && n in Passed(Kept(db), s, m)
    ensures Passed(Kept(AckThrough(db, s.acks[0])), s.(acks := s.acks[1..]), m) == Passed(Kept(db), s, m)
    ensures s.acks[0] < n
  {
    var s' := s.(acks := s.acks[1..]);
    AckKept(db, s.acks[0]);
    assert s.acks[0] in s.acks;
    forall k: nat ensures Covered(s, k) <==> k <= s.acks[0] || Covered(s', k) {
      AckUncovers(s, s', k);
    }
    hide Covered, AckThrough;
    assert Passed(Kept(AckThrough(db, s.acks[0])), s', m) == Passed(Kept(db), s, m);
  }

  lemma FrameToAck(s: Session, s': Session, n: nat)
    requires s.wire != [] && s' == s.(wire := s.wire[1..], acks := s.acks + [s.wire[0].num])
    ensures Covered(s', n) <==> Covered(s, n)
  {
    var head := s.wire[0];
    assert s.wire == [head] + s'.wire;
    assert head in s.wire && forall x :: x in s'.wire ==> x in s.wire;
    if Covered(s, n) {
      if e :| e in s.wire && n <= e.num {
        assert e in s'.wire || head.num in s'.acks;
      } else {
        assert forall a :: a in s.acks ==> a in s'.acks;
      }
    }
  }

  /** Status samples push the counter up to the marker. */
  lemma {:induction false} Climb(w: World, e: Event, m: nat) returns (acts: seq<Action>, end: World)
    requires Doomed(w, e, m) && Quiet(w)
    ensures Reaches(w, acts, end) && Doomed(end, e, m) && Quiet(end) && m <= end.db.counter
    decreases m - w.db.counter
  {
    hide DoomedConnection, Reaches;
    if w.db.counter < m {
      var a := Emitted(STATUS_KIND, Text(""));
      var rest;
      DoomedEmit(w, e, m, a);
      rest, end := Climb(Next(w, a), e, m);
      RunOne(w, a, rest, end);
      acts := [a] + rest;
    } else {
      acts, end := [], w;
      RunNone(w);
    }
  }

  /** An emit that passes nothing more over leaves e doomed. */
  lemma DoomedEmit(w: World, e: Event, m: nat, a: Action)
    requires Doomed(w, e, m) && Quiet(w) && a.Emitted? && (a.kind == STATUS_KIND || m <= w.db.counter)
    ensures Doomed(Next(w, a), e, m) && Quiet(Next(w, a)) && Next(w, a).db.counter == w.db.counter + 1
  {
    var w' := Next(w, a);
    var s := w.session.value;
    EmitKept(w.db, a.kind, a.payload, w.cap);
    EmitLeaves(w.db, a.kind, a.payload, w.cap, e);
    assert StreamId(w'.db) == StreamId(w.db);
    hide Emit, Kept, Covered;
    assert Passed(Kept(w'.db), s, m) == Passed(Kept(w.db), s, m);
  }

  lemma EmitLeaves(db: Db, kind: string, payload: Payload, keep: int, e: Event)
    requires QueueOk(db) && Row(e, false) in db.events && e.kind != STATUS_KIND
    ensures Row(e, false) in Emit(db, kind, payload, keep).events
  {
    AppendKeepsQueueOk(db, kind, payload);
    TrimLosesOnlyStatus(AppendEvent(db, kind, payload), keep);
  }

  /** Status samples queued at or below the marker. */
  function LowSamples(db: Db, m: nat): set<nat> {
    set e | e in Unacked(db.events) && e.kind == STATUS_KIND && e.num <= m :: e.num
  }

  lemma LowMember(db: Db, m: nat, n: nat)
    ensures n in LowSamples(db, m) <==>
      n <= m && exists e :: Row(e, false) in db.events && e.kind == STATUS_KIND && e.num == n
  {
    if n in LowSamples(db, m) {
      var e :| e in Unacked(db.events) && e.kind == STATUS_KIND && e.num == n;
      UnackedMember(db.events, e);
    }
    if e :| Row(e, false) in db.events && e.kind == STATUS_KIND && e.num == n {
      UnackedMember(db.events, e);
    }
  }

  lemma UnackedSize(db: Db)
    requires QueueOk(db)
    ensures |Unacked(db.events)| == |Queued(db)|
  {
    UnackedAscending(db.events);
    NumsSize(Unacked(db.events));
  }

  /** A trim that drops anything drops a status sample older than every one it keeps. */
  lemma TrimTakesOldest(db: Db, keep: int, m: nat)
    requires QueueOk(db) && |Unacked(TrimEvents(db, keep).events)| < |Unacked(db.events)|
    ensures LowSamples(db, m) != {} ==> !(LowSamples(db, m) <= LowSamples(TrimEvents(db, keep), m))
  {
    var left := TrimEvents(db, keep);
    TrimLosesOnlyStatus(db, keep);
    UnackedSize(db);
    UnackedSize(left);
    hide TrimEvents, Unacked, StatusCount, Queued;
    if Queued(db) <= Queued(left) {
      SubsetSize(Queued(db), Queued(left));
      assert false;
    }
    var n :| n in Queued(db) && n !in Queued(left);
    QueuedMember(db, n);
    QueuedMember(left, n);
    var e :| Row(e, false) in db.events && e.num == n;
    GoneIsOlder(db, left, e, m);
  }

  lemma GoneIsOlder(db: Db, left: Db, gone: Event, m: nat)
    requires QueueOk(db) && Row(gone, false) in db.events && Row(gone, false) !in left.events &&
      gone.kind == STATUS_KIND
    requires forall r :: r in left.events ==> r in db.events
    requires forall s :: s in left.events && IsStatus(s) ==> gone.num < s.event.num
    ensures LowSamples(db, m) != {} ==> !(LowSamples(db, m) <= LowSamples(left, m))
  {
    hide LowSamples;
    if n :| n in LowSamples(db, m) && n in LowSamples(left, m) {
      LowMember(left, m, n);
      var low :| Row(low, false) in left.events && low.kind == STATUS_KIND && low.num == n;
      assert IsStatus(Row(low, false));
      LowMember(db, m, gone.num);
      LowMember(left, m, gone.num);
      forall other | Row(other, false) in left.events && other.kind == STATUS_KIND ensures other.num != gone.num {
        assert IsStatus(Row(other, false));
      }
    }
  }

  /** Emitting one more status sample fills the queue up to its cap, or takes an old one out. */
  lemma SampleFlushes(db: Db, cap: int, m: nat)
    requires QueueOk(db) && m <= db.counter
    ensures var after := Emit(db, STATUS_KIND, Text(""), cap);
      && LowSamples(after, m) <= LowSamples(db, m)
      && (|Unacked(db.events)| < cap ==> |Unacked(after.events)| == |Unacked(db.events)| + 1)
      && (|Unacked(db.events)| >= cap ==>
            |Unacked(after.events)| >= cap && (LowSamples(db, m) != {} ==> LowSamples(after, m) < LowSamples(db, m)))
  {
    var mid := AppendEvent(db, STATUS_KIND, Text(""));
    AppendKeepsQueueOk(db, STATUS_KIND, Text(""));
    SampleAppended(db, m);
    hide LowSamples, Unacked, StatusCount, TrimEvents, QueueOk, AppendEvent;
    TrimmedLength(mid, cap);
    TrimmedLow(mid, cap, m);
    if |Unacked(db.events)| >= cap {
      TrimTakesOldest(mid, cap, m);
    }
  }

  lemma TrimmedLength(db: Db, keep: int)
    requires QueueOk(db)
    ensures |Unacked(TrimEvents(db, keep).events)|
      == |Unacked(db.events)| - Min(Max(0, |Unacked(db.events)| - keep), StatusCount(db.events))
  {
    TrimLosesOnlyStatus(db, keep);
    hide TrimEvents, Unacked, StatusCount, QueueOk;
  }

  lemma SampleAppended(db: Db, m: nat)
    requires m <= db.counter
    ensures var mid := AppendEvent(db, STATUS_KIND, Text(""));
      && |Unacked(mid.events)| == |Unacked(db.events)| + 1 && StatusCount(mid.events) >= 1
      && LowSamples(mid, m) == LowSamples(db, m)
  {
    var e := Event(db.counter + 1, STATUS_KIND, Text(""));
    UnackedAppend(db.events, [Row(e, false)]);
    assert Unacked([Row(e, false)]) == [e] by {
      assert [Row(e, false)][1..] == [];
    }
    if StatusCount(db.events + [Row(e, false)]) == 0 {
      NoStatusLeft(db.events + [Row(e, false)]);
      assert IsStatus(Row(e, false));
    }
  }

  lemma TrimmedLow(db: Db, keep: int, m: nat)
    requires QueueOk(db)
    ensures LowSamples(TrimEvents(db, keep), m) <= LowSamples(db, m)
  {
    TrimLosesOnlyStatus(db, keep);
    hide TrimEvents, LowSamples;
    forall n | n in LowSamples(TrimEvents(db, keep), m) ensures n in LowSamples(db, m) {
      LowMember(TrimEvents(db, keep), m, n);
      LowMember(db, m, n);
    }
  }

  /** Further samples push the old ones out, until nothing but messages is left at or below the marker. */
  lemma {:induction false} Flush(w: World, e: Event, m: nat, past: nat) returns (acts: seq<Action>, end: World)
    requires Doomed(w, e, m) && Quiet(w) && m <= w.db.counter && past in Kept(w.db)
    ensures Reaches(w, acts, end) && Doomed(end, e, m) && Quiet(end) && past in Kept(end.db) &&
      LowSamples(end.db, m) == {}
    decreases Max(0, w.cap - |Unacked(w.db.events)|), LowSamples(w.db, m)
  {
    hide DoomedConnection, Reaches, Kept, LowSamples, Emit;
    if LowSamples(w.db, m) != {} {
      var a := Emitted(STATUS_KIND, Text(""));
      var rest;
      DoomedEmit(w, e, m, a);
      SampleFlushes(w.db, w.cap, m);
      EmitKept(w.db, a.kind, a.payload, w.cap);
      rest, end := Flush(Next(w, a), e, m, past);
      RunOne(w, a, rest, end);
      acts := [a] + rest;
    } else {
      acts, end := [], w;
      RunNone(w);
    }
  }

  /** A further message is queued past the marker, samples make room for it, and its ack takes e with it. */
  lemma SendPast(w: World, e: Event, m: nat) returns (acts: seq<Action>, end: World)
    requires Doomed(w, e, m) && Quiet(w) && m <= w.db.counter
    ensures Reaches(w, acts, end) && !NothingLost(end)
  {
    hide Emit, Kept, Reaches, NothingLost, LowSamples;
    var a := Emitted("sms_in", Text(""));
    var w1 := Next(w, a);
    assert w1.db == Emit(w.db, a.kind, a.payload, w.cap);
    hide Next;
    DoomedEmit(w, e, m, a);
    EmitKept(w.db, a.kind, a.payload, w.cap);
    var flush, w2 := Flush(w1, e, m, w1.db.counter);
    Reachable(w2.db, w2.session.value, m, w1.db.counter);
    var rest;
    rest, end := SendFirst(w2, e, m);
    Joined(w1, flush, w2, rest, end);
    RunOne(w, a, flush + rest, end);
    acts := [a] + (flush + rest);
  }

  /** With fewer than BATCH rows up to the marker, a row above it is found. */
  lemma Reachable(db: Db, s: Session, m: nat, n: nat)
    requires QueueOk(db) && LowSamples(db, m) == {} && s.wire == [] && s.acks == []
    requires |Passed(Kept(db), s, m)| < BATCH && n in Kept(db) && m < n
    ensures NextBatch(db, m) != []
  {
    KeptInRange(db);
    var oldest := UnackedEvents(db, BATCH);
    if |Unacked(db.events)| <= BATCH {
      assert oldest == Unacked(db.events);
      var x :| x in oldest && x.num == n;
      assert x in NextBatch(db, m);
    } else {
      FullBatchReaches(db, s, m);
      var x :| x in oldest && x.num > m;
      assert x in NextBatch(db, m);
    }
  }

  lemma FullBatchReaches(db: Db, s: Session, m: nat)
    requires QueueOk(db) && LowSamples(db, m) == {} && s.wire == [] && s.acks == []
    requires |Passed(Kept(db), s, m)| < BATCH < |Unacked(db.events)|
    ensures exists x :: x in UnackedEvents(db, BATCH) && x.num > m
  {
    var oldest := UnackedEvents(db, BATCH);
    UnackedAscending(db.events);
    assert AscendingEvents(oldest);
    NumsSize(oldest);
    if forall x :: x in oldest ==> x.num <= m {
      OldestPassed(db, s, m);
      hide *;
      SubsetSize(Nums(oldest), Passed(Kept(db), s, m));
      assert false;
    }
  }

  lemma OldestPassed(db: Db, s: Session, m: nat)
    requires LowSamples(db, m) == {} && s.wire == [] && s.acks == []
    requires forall x :: x in UnackedEvents(db, BATCH) ==> x.num <= m
    ensures Nums(UnackedEvents(db, BATCH)) <= Passed(Kept(db), s, m)
  {
    var oldest := UnackedEvents(db, BATCH);
    assert forall x :: x in oldest ==> x in Unacked(db.events);
    hide UnackedEvents, Unacked;
    forall k | k in Nums(oldest) ensures k in Passed(Kept(db), s, m) {
      var x :| x in oldest && x.num == k;
      assert x.kind == STATUS_KIND ==> x.num in LowSamples(db, m);
      assert x.num in Kept(db);
    }
  }

  lemma SendFirst(w: World, e: Event, m: nat) returns (acts: seq<Action>, end: World)
    requires Doomed(w, e, m) && Quiet(w) && NextBatch(w.db, m) != []
    ensures Reaches(w, acts, end) && !NothingLost(end)
  {
    var w1 := Next(w, Looked);
    var w2 := Next(w1, SendStarted);
    acts, end := AckPast(w2, e, NextBatch(w.db, m)[0]) by {
      assert NextBatch(w.db, m)[0] in NextBatch(w.db, m);
    }
    RunOne(w1, SendStarted, acts, end);
    RunOne(w, Looked, [SendStarted] + acts, end);
    acts := [Looked] + ([SendStarted] + acts);
  }

  /** An ack for a later number drops an event the peer has not applied. */
  lemma AckLoses(w: World, e: Event)
    requires Row(e, false) in w.db.events && e.kind != STATUS_KIND && Issued(StreamId(w.db), e) in w.issued
    requires Issued(StreamId(w.db), e) !in w.peer.effects
    requires w.session.Some? && w.session.value.acks != [] && e.num < w.session.value.acks[0]
    ensures !NothingLost(Next(w, AckArrived))
  {
    hide MarkAcked, DeleteAcked, NewlyAcked;
    AckMember(w.db.events, w.session.value.acks[0], Row(e, false));
    assert Issued(StreamId(w.db), e) in Next(w, AckArrived).issued;
  }

  lemma AckPast(w: World, e: Event, f: Event) returns (acts: seq<Action>, end: World)
    requires Row(e, false) in w.db.events && e.kind != STATUS_KIND && Issued(StreamId(w.db), e) in w.issued
    requires (StreamId(w.db), e.num) !in w.peer.ingested && e.num < f.num
    requires forall x :: x in w.peer.effects ==> (x.stream, x.event.num) in w.peer.ingested
    requires w.session.Some? && w.session.value.wire == [f] && w.session.value.acks == []
    requires w.session.value.stream == StreamId(w.db)
    ensures Reaches(w, acts, end) && !NothingLost(end)
  {
    hide MarkAcked, DeleteAcked, NewlyAcked, Reaches, NothingLost;
    var w1 := Next(w, PeerApplied(true));
    assert w1.session.value.acks == [f.num];
    end := Next(w1, AckArrived);
    AckLoses(w1, e);
    RunNone(end);
    RunOne(w1, AckArrived, [], end);
    assert [AckArrived] + [] == [AckArrived];
    RunOne(w, PeerApplied(true), [AckArrived], end);
    acts := [PeerApplied(true)] + [AckArrived];
  }

  lemma {:induction false} Joined(w: World, a: seq<Action>, mid: World, b: seq<Action>, end: World)
    requires Reaches(w, a, mid) && Reaches(mid, b, end)
    ensures Reaches(w, a + b, end)
  {
    hide Next, Enabled;
    var first :| Path(first, a) && first[0] == w && first[|a|] == mid;
    var second :| Path(second, b) && second[0] == mid && second[|b|] == end;
    var worlds := first + second[1..];
    forall i | 0 <= i < |a + b| ensures Moves(worlds, a + b, i) {
      if i < |a| {
        assert Moves(first, a, i);
      } else {
        assert Moves(second, b, i - |a|);
      }
    }
    assert Path(worlds, a + b);
  }

  /** A doomed event is lost in some continuation. */
  lemma DoomedIsLost(w: World, e: Event, m: nat) returns (acts: seq<Action>, end: World)
    requires Doomed(w, e, m)
    ensures Reaches(w, acts, end) && !NothingLost(end)
  {
    hide Doomed, Reaches, NothingLost;
    var a1, w1 := Drain(w, e, m);
    var a2, w2 := Climb(w1, e, m);
    var a3, w3 := SendPast(w2, e, m);
    Joined(w, a1, w1, a2, w2);
    Joined(w, a1 + a2, w2, a3, w3);
    acts, end := a1 + a2 + a3, w3;
  }

  /** A dangerous request dooms an event that waits, or the next one to be queued. */
  lemma CanLoseDooms(w: World, from_: nat) returns (acts: seq<Action>, w': World, e: Event)
    requires Inv(w) && w.session.Some? && CanLose(w, from_)
    ensures Reaches(AnyResend(w, from_), acts, w') && Doomed(w', e, ResendMarker(from_))
  {
    var m := ResendMarker(from_);
    var v := AnyResend(w, from_);
    var s := w.session.value;
    var kept := Kept(w.db);
    var passed := Passed(kept, s, m);
    var done := Applied(w.peer, s.stream);
    if |passed| < BATCH && !(passed <= done) {
      var n :| n in passed && n !in done;
      KeptMember(w.db, n);
      e :| Row(e, false) in w.db.events && e.kind != STATUS_KIND && e.num == n;
      acts, w' := [], v;
      RunNone(v);
    } else {
      var a := Emitted("sms_in", Text(""));
      e := Event(w.db.counter + 1, "sms_in", Text(""));
      w' := Next(v, a);
      DoomedNewcomer(w, v, m, e);
      RunNone(w');
      RunOne(v, a, [], w');
      acts := [a] + [];
    }
  }

  lemma DoomedNewcomer(w: World, v: World, m: nat, e: Event)
    requires Inv(w) && w.session.Some? && v == w.(link := Link(m, true)) && w.session.value.batch == []
    requires |Passed(Kept(w.db), w.session.value, m)| + 1 < BATCH && w.db.counter < m
    requires e == Event(w.db.counter + 1, "sms_in", Text(""))
    ensures Doomed(Next(v, Emitted("sms_in", Text(""))), e, m)
  {
    hide Kept, Passed, Accounted, SessionOk, UniqueNumbers, AppliedOnce;
    EmitKept(w.db, e.kind, e.payload, w.cap);
    EmitAdds(w.db, e.kind, e.payload, w.cap);
    NewcomerUnknown(w, e);
    FramesInRange(w.session.value, Queued(w.db), w.db.counter, Applied(w.peer, w.session.value.stream),
      w.link.sentThrough);
    PassesNewcomer(Kept(w.db), w.session.value, m, e.num);
    hide HistoryOk, QueueOk, TrimEvents;
  }

  lemma FramesInRange(s: Session, q: set<nat>, top: nat, done: set<nat>, marker: nat)
    requires SessionOk(q, top, done, marker, s)
    ensures (forall a :: a in s.acks ==> a <= top) && (forall e :: e in s.wire ==> e.num <= top)
    ensures s.batch == [] ==> !s.written
  {
  }

  lemma PassesNewcomer(kept: set<nat>, s: Session, m: nat, n: nat)
    requires (forall a :: a in s.acks ==> a < n) && (forall e :: e in s.wire ==> e.num < n) && n <= m
    ensures n in Passed(kept + {n}, s, m) && |Passed(kept + {n}, s, m)| <= |Passed(kept, s, m)| + 1
  {
    assert Passed(kept + {n}, s, m) == Passed(kept, s, m) + {n};
  }

  lemma EmitAdds(db: Db, kind: string, payload: Payload, keep: int)
    requires QueueOk(db) && kind != STATUS_KIND
    ensures Row(Event(db.counter + 1, kind, payload), false) in Emit(db, kind, payload, keep).events
  {
    hide TrimEvents, Unacked, StatusCount, QueueOk;
    AppendKeepsQueueOk(db, kind, payload);
    TrimLosesOnlyStatus(AppendEvent(db, kind, payload), keep);
    assert Row(Event(db.counter + 1, kind, payload), false) in AppendEvent(db, kind, payload).events;
  }

  lemma NewcomerUnknown(w: World, e: Event)
    requires HistoryOk(w) && PeerOk(w) && e.num > w.db.counter
    ensures (StreamId(w.db), e.num) !in w.peer.ingested
  {
    forall x | x in w.peer.effects ensures (x.stream, x.event.num) != (StreamId(w.db), e.num) {
      assert x in w.issued;
    }
  }

  // ------------------------------------------------------------ the theorem

  ghost predicate LosesNothing(v: World) {
    forall acts, end :: Reaches(v, acts, end) ==> NothingLost(end)
  }

  /**
   After a resend request for any number, in any reachable state with a
   connection, every run loses nothing exactly when the request is not
   dangerous.
   */
  lemma ResendLosesNothingIff(w: World, from_: nat)
    requires Inv(w) && w.session.Some?
    ensures LosesNothing(AnyResend(w, from_)) <==> !CanLose(w, from_)
  {
    hide Inv, CanLose, Reaches, NothingLost;
    var v := AnyResend(w, from_);
    if CanLose(w, from_) {
      var a, w1, e := CanLoseDooms(w, from_);
      var b, end := DoomedIsLost(w1, e, ResendMarker(from_));
      Joined(v, a, w1, b, end);
    } else {
      InvIsSound(w);
      HarmlessResend(w, from_);
      forall acts, end | Reaches(v, acts, end) ensures NothingLost(end) {
        SoundRun(v, acts, end);
      }
    }
  }

  /** What the peer can check: it asks for a number at most one past one it was sent on this connection. */
  lemma PeerAskIsSafe(w: World, t: nat, from_: nat)
    requires Inv(w) && w.session.Some? && t in w.session.value.sent && from_ <= t + 1
    ensures ResendSafe(w, from_) && !CanLose(w, from_) && LosesNothing(AnyResend(w, from_))
  {
    SafeIsHarmless(w, from_);
    ResendLosesNothingIff(w, from_);
  }

  /** The guard under which resends are taken in runs rules the danger out. */
  lemma SafeIsHarmless(w: World, from_: nat)
    requires Inv(w) && w.session.Some? && ResendSafe(w, from_)
    ensures !CanLose(w, from_)
  {
    var s := w.session.value;
    var m := ResendMarker(from_);
    KeptInRange(w.db);
    QueuedInRange(w.db);
    forall n | n in Passed(Kept(w.db), s, m) ensures n in Applied(w.peer, s.stream) {
      assert n in s.sent;
      if n in Nums(s.wire) {
        assert Covered(s, n);
      }
    }
  }

  /**
   The danger is real: from a new file a run leads to a state where asking for
   number 2 loses the only message, which waits unsent.
   */
  lemma ResendBeyondSentLoses(w: World, token: string) returns (acts: seq<Action>, mid: World)
    requires Init(w) && NewFile(w, token)
    ensures Reaches(w, acts, mid) && mid.session.Some? && CanLose(mid, 2)
    ensures exists rest, end :: Reaches(AnyResend(mid, 2), rest, end) && !NothingLost(end)
  {
    acts, mid := OneWaits(w, token);
    hide Inv, Init, NewFile, CanLose, Reaches, NothingLost;
    InitHolds(w);
    RunKeeps(w, acts, mid);
    ResendLosesNothingIff(mid, 2);
  }

  lemma OneWaits(w: World, token: string) returns (acts: seq<Action>, mid: World)
    requires NewFile(w, token) && w.session == None
    ensures Reaches(w, acts, mid) && mid.session.Some? && CanLose(mid, 2)
  {
    var emit := Emitted("sms_in", Text("code"));
    var w1 := Next(w, Connected);
    mid := Next(w1, emit);
    assert Kept(w1.db) == {};
    EmitKept(w1.db, "sms_in", Text("code"), w1.cap);
    hide Emit, Kept;
    assert Kept(mid.db) == {1};
    assert Passed({1}, mid.session.value, 1) == {1};
    assert 1 in Passed(Kept(mid.db), mid.session.value, 1) && 1 !in Applied(mid.peer, StreamId(mid.db));
    RunNone(mid);
    RunOne(w1, emit, [], mid);
    RunOne(w, Connected, [emit], mid);
    acts := [Connected] + [emit];
  }
}
