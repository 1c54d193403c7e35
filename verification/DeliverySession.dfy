/** What each step keeps of one connection, over numbers only. */
module DeliverySession {
  import opened Basics
  import opened Database
  import opened Queue
  import opened Delivery

  lemma {:induction false} SubsetSize<T>(a: set<T>, b: set<T>)
    requires a <= b
    ensures |a| <= |b|
  {
    if a != {} {
      var x :| x in a;
      SubsetSize(a - {x}, b - {x});
    }
  }

  /** The distinct numbers of a sequence are at most as many as its length, and exactly so when it ascends. */
  lemma {:induction false} NumsSize(es: seq<Event>)
    ensures |Nums(es)| <= |es|
    ensures AscendingEvents(es) ==> |Nums(es)| == |es|
  {
    if es == [] {
      assert Nums(es) == {};
    } else {
      NumsSize(es[1..]);
      NumsSplit(es);
      hide Nums;
    }
  }

  lemma NumsSplit(es: seq<Event>)
    requires es != []
    ensures Nums(es) == {es[0].num} + Nums(es[1..])
    ensures AscendingEvents(es) ==> AscendingEvents(es[1..]) && es[0].num !in Nums(es[1..])
  {
    assert es == [es[0]] + es[1..];
  }

  /** Queue changes, new numbers above the counter, and applying events keep a connection sound. */
  lemma QueueChanges(q: set<nat>, top: nat, done: set<nat>, sentThrough: nat, s: Session,
                     q': set<nat>, top': nat, done': set<nat>)
    requires SessionOk(q, top, done, sentThrough, s)
    requires top <= top' && done <= done'
    requires forall n :: n in q' ==> n in q || n > top
    ensures SessionOk(q', top', done', sentThrough, s)
  {
    forall t: nat | t <= top ensures |Below(q', t)| <= |Below(q, t)| {
      SubsetSize(Below(q', t), Below(q, t));
    }
  }

  lemma NewConnection(q: set<nat>, top: nat, done: set<nat>, stream: string)
    requires 0 !in q
    ensures SessionOk(q, top, done, 0, Session(stream, [], false, false, [], [], {}))
  {
  }

  lemma {:induction false} FilterAscends(es: seq<Event>, keep: Event -> bool)
    requires AscendingEvents(es)
    ensures AscendingEvents(Filter(es, keep))
  {
    if es != [] {
      FilterAscends(es[1..], keep);
      forall e | e in Filter(es[1..], keep) ensures es[0].num < e.num {
        assert e in es[1..];
      }
    }
  }

  lemma LowestFirst(db: Db, b: Event, n: nat)
    requires QueueOk(db) && b in UnackedEvents(db, BATCH) && n in Queued(db) && n <= b.num
    ensures n in Nums(UnackedEvents(db, BATCH))
  {
    var e :| e in Unacked(db.events) && e.num == n;
    UnackedMember(db.events, e);
    BatchIsLowest(db, BATCH, e, b);
  }

  /** At most a batch of queued numbers lies at or below a member of the oldest batch. */
  lemma OldestBatchBound(db: Db, e: Event)
    requires QueueOk(db) && e in UnackedEvents(db, BATCH)
    ensures e.num <= db.counter && |Below(Queued(db), e.num)| <= BATCH
  {
    var oldest := UnackedEvents(db, BATCH);
    assert e in Unacked(db.events);
    UnackedMember(db.events, e);
    forall n | n in Below(Queued(db), e.num) ensures n in Nums(oldest) {
      LowestFirst(db, e, n);
    }
    SubsetSize(Below(Queued(db), e.num), Nums(oldest));
    NumsSize(oldest);
  }

  /** A fresh connection replays the whole oldest batch: marker zero filters nothing out. */
  lemma FreshMarkerReplaysAll(db: Db)
    requires QueueOk(db)
    ensures NextBatch(db, 0) == UnackedEvents(db, BATCH)
  {
    forall e | e in UnackedEvents(db, BATCH) ensures e.num > 0 {
      assert e in Unacked(db.events);
      UnackedMember(db.events, e);
    }
    var zero: nat := 0;
    FilterAll(UnackedEvents(db, BATCH), (e: Event) => e.num > zero);
  }

  lemma {:induction false} FilterAll(es: seq<Event>, keep: Event -> bool)
    requires forall e :: e in es ==> keep(e)
    ensures Filter(es, keep) == es
  {
    if es != [] {
      FilterAll(es[1..], keep);
    }
  }

  /** Everything queued at or below a member of the next batch was sent, or is in that batch. */
  lemma NextBatchCovers(db: Db, q: set<nat>, sentThrough: nat, sent: set<nat>, e: Event, n: nat)
    requires QueueOk(db) && q <= Queued(db) && AllSentThrough(q, db.counter, sentThrough, sent)
    requires e in NextBatch(db, sentThrough) && n in q && n <= e.num
    ensures n in sent || n in Nums(NextBatch(db, sentThrough))
  {
    LowestFirst(db, e, n);
    if n > sentThrough {
      var x :| x in UnackedEvents(db, BATCH) && x.num == n;
      assert x in NextBatch(db, sentThrough);
    }
  }

  /** Looking at the queue between batches, for any part q of what is queued. */
  lemma LookKeeps(db: Db, q: set<nat>, done: set<nat>, sentThrough: nat, s: Session)
    requires QueueOk(db) && q <= Queued(db) && SessionOk(q, db.counter, done, sentThrough, s) && s.batch == []
    ensures var found := NextBatch(db, sentThrough);
      SessionOk(q, db.counter, done, sentThrough, s.(batch := found, parked := found == []))
  {
    var found := NextBatch(db, sentThrough);
    NextBatchAscends(db, sentThrough);
    forall i | 0 <= i < |found| ensures found[i].num <= db.counter && |Below(q, found[i].num)| <= BATCH {
      OldestBatchBound(db, found[i]);
      SubsetSize(Below(q, found[i].num), Below(Queued(db), found[i].num));
    }
    forall i, n | 0 <= i < |found| && n in q && n <= found[i].num ensures n in s.sent || n in Nums(found) {
      NextBatchCovers(db, q, sentThrough, s.sent, found[i], n);
    }
    hide NextBatch, SentOk, WireOk, AcksOk;
  }

  lemma NextBatchAscends(db: Db, sentThrough: nat)
    requires QueueOk(db)
    ensures AscendingEvents(NextBatch(db, sentThrough))
  {
    UnackedAscending(db.events);
    FilterAscends(UnackedEvents(db, BATCH), (e: Event) => e.num > sentThrough);
  }

  lemma SendStartKeeps(q: set<nat>, top: nat, done: set<nat>, sentThrough: nat, s: Session)
    requires SessionOk(q, top, done, sentThrough, s) && s.batch != [] && !s.written
    ensures SessionOk(q, top, done, sentThrough,
      s.(written := true, wire := s.wire + [s.batch[0]], sent := s.sent + {s.batch[0].num}))
  {
    var head := s.batch[0];
    HeadIsNext(q, top, s);
    var s' := s.(written := true, wire := s.wire + [head], sent := s.sent + {head.num});
    assert BatchOk(q, top, s');
    hide BatchOk, WireOk, SentOk, AcksOk, Below;
    WireGrows(q, top, done, s.wire, head);
    SentGrows(q, top, done, s.wire, s.sent, head);
  }

  /** Everything queued below the head of a batch was sent. */
  lemma HeadIsNext(q: set<nat>, top: nat, s: Session)
    requires BatchOk(q, top, s) && s.batch != []
    ensures s.batch[0].num <= top && |Below(q, s.batch[0].num)| <= BATCH
    ensures forall n :: n in q && n <= s.batch[0].num ==> n in s.sent || n == s.batch[0].num
  {
    hide Below;
    forall n | n in q && n <= s.batch[0].num && n !in s.sent ensures n == s.batch[0].num {
      var e :| e in s.batch && e.num == n;
    }
  }

  lemma SentGrows(q: set<nat>, top: nat, done: set<nat>, wire: seq<Event>, sent: set<nat>, head: Event)
    requires SentOk(q, top, done, wire, sent) && head.num <= top && |Below(q, head.num)| <= BATCH
    requires forall n :: n in q && n <= head.num ==> n in sent || n == head.num
    ensures SentOk(q, top, done, wire + [head], sent + {head.num})
  {
    assert Nums(wire + [head]) == Nums(wire) + {head.num};
    hide Nums, Below;
  }

  lemma WireGrows(q: set<nat>, top: nat, done: set<nat>, wire: seq<Event>, head: Event)
    requires WireOk(q, top, done, wire) && head.num <= top
    requires forall n :: n in q && n <= head.num ==> n in done || n in Nums(wire) || n == head.num
    ensures WireOk(q, top, done, wire + [head])
  {
    var longer := wire + [head];
    assert Nums(longer) == Nums(wire) + {head.num};
    hide Nums;
    forall i, n | 0 <= i < |longer| && n in q && n <= longer[i].num
      ensures n in done || n in Nums(longer[..i + 1])
    {
      if i < |wire| {
        assert longer[..i + 1] == wire[..i + 1];
      } else {
        assert longer[..i + 1] == longer;
      }
    }
  }

  lemma SendReturnKeeps(q: set<nat>, top: nat, done: set<nat>, sentThrough: nat, s: Session)
    requires SessionOk(q, top, done, sentThrough, s) && s.batch != [] && s.written
    ensures SessionOk(q, top, done, s.batch[0].num, s.(batch := s.batch[1..], written := false))
  {
    HeadIsNext(q, top, s);
    BatchAdvances(q, top, s, s.(batch := s.batch[1..], written := false));
    hide BatchOk, WireOk, SentOk, AcksOk;
  }

  lemma BatchAdvances(q: set<nat>, top: nat, s: Session, s': Session)
    requires BatchOk(q, top, s) && s.written && s' == s.(batch := s.batch[1..], written := false)
    ensures BatchOk(q, top, s') && s.batch[0].num in s.sent
  {
    hide Below;
    assert s.batch == [s.batch[0]] + s'.batch;
    forall i, n | 0 <= i < |s'.batch| && n in q && n <= s'.batch[i].num ensures n in s'.sent || n in Nums(s'.batch) {
      assert s'.batch[i] == s.batch[i + 1];
      if n !in s.sent {
        var e :| e in s.batch && e.num == n;
        assert e in s'.batch;
      }
    }
  }

  lemma PeerKeeps(q: set<nat>, top: nat, done: set<nat>, done': set<nat>, sentThrough: nat, s: Session, ack: bool)
    requires SessionOk(q, top, done, sentThrough, s) && s.wire != []
    requires done' == done + {s.wire[0].num}
    ensures SessionOk(q, top, done', sentThrough,
      s.(wire := s.wire[1..], acks := if ack then s.acks + [s.wire[0].num] else s.acks))
  {
    var acks := if ack then s.acks + [s.wire[0].num] else s.acks;
    assert BatchOk(q, top, s.(wire := s.wire[1..], acks := acks));
    hide BatchOk, SentOk;
    SentAdvances(q, top, done, s.wire, s.sent);
    assert s.wire[0].num <= top;
    WireAdvances(q, top, done, s.wire);
    hide WireOk;
  }

  lemma SentAdvances(q: set<nat>, top: nat, done: set<nat>, wire: seq<Event>, sent: set<nat>)
    requires SentOk(q, top, done, wire, sent) && wire != []
    ensures SentOk(q, top, done + {wire[0].num}, wire[1..], sent)
  {
    assert wire == [wire[0]] + wire[1..];
    assert Nums(wire) == {wire[0].num} + Nums(wire[1..]);
    hide Nums, Below;
  }

  /** The head frame is applied: all up to it is done, and the rest of the wire stays in order. */
  lemma WireAdvances(q: set<nat>, top: nat, done: set<nat>, wire: seq<Event>)
    requires WireOk(q, top, done, wire) && wire != []
    ensures WireOk(q, top, done + {wire[0].num}, wire[1..])
    ensures forall n :: n in q && n <= wire[0].num ==> n in done + {wire[0].num}
  {
    var rest := wire[1..];
    var done' := done + {wire[0].num};
    forall i, n | 0 <= i < |rest| && n in q && n <= rest[i].num ensures n in done' || n in Nums(rest[..i + 1]) {
      assert rest[i] == wire[i + 1];
      assert wire[..i + 2] == [wire[0]] + rest[..i + 1];
    }
    forall n | n in q && n <= wire[0].num ensures n in done' {
      assert wire[..0 + 1] == [wire[0]];
      assert n in done || n in Nums(wire[..0 + 1]);
    }
  }

  lemma AckReceived(q: set<nat>, top: nat, done: set<nat>, sentThrough: nat, s: Session)
    requires SessionOk(q, top, done, sentThrough, s) && s.acks != []
    ensures SessionOk(q, top, done, sentThrough, s.(acks := s.acks[1..]))
  {
    forall a | a in s.acks[1..] ensures a in s.acks {
    }
  }

  /** Rewinding is safe when everything queued below the requested number was sent on this connection. */
  lemma ResendKeeps(q: set<nat>, top: nat, done: set<nat>, sentThrough: nat, s: Session, from_: nat)
    requires SessionOk(q, top, done, sentThrough, s)
    requires forall n :: n in q && n < from_ ==> n in s.sent
    requires from_ <= top + 1
    ensures SessionOk(q, top, done, ResendMarker(from_), s)
  {
  }
}
