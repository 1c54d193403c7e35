/** What the statements on the outbound queue keep, add and remove. */
module Queue {
  import opened Basics
  import opened Database

  ghost predicate Ascending(rows: seq<Row>) {
    forall i, j :: 0 <= i < j < |rows| ==> rows[i].event.num < rows[j].event.num
  }

  /** The queue table of a well-formed file. */
  ghost predicate QueueOk(db: Db) {
    && Ascending(db.events)
    && forall r :: r in db.events ==> 1 <= r.event.num <= db.counter
  }

  ghost predicate AscendingEvents(es: seq<Event>) {
    forall i, j :: 0 <= i < j < |es| ==> es[i].num < es[j].num
  }

  // --------------------------------------------------------- reading

  lemma {:induction false} UnackedMember(rows: seq<Row>, e: Event)
    ensures e in Unacked(rows) <==> Row(e, false) in rows
  {
    if rows != [] {
      assert rows == [rows[0]] + rows[1..];
      UnackedMember(rows[1..], e);
    }
  }

  lemma {:induction false} UnackedAppend(a: seq<Row>, b: seq<Row>)
    ensures Unacked(a + b) == Unacked(a) + Unacked(b)
  {
    if a == [] {
      assert a + b == b;
    } else {
      assert (a + b)[1..] == a[1..] + b;
      UnackedAppend(a[1..], b);
    }
  }

  lemma {:induction false} UnackedAscending(rows: seq<Row>)
    requires Ascending(rows)
    ensures AscendingEvents(Unacked(rows))
  {
    if rows != [] {
      UnackedAscending(rows[1..]);
      forall e | e in Unacked(rows[1..]) ensures rows[0].event.num < e.num {
        UnackedMember(rows[1..], e);
      }
    }
  }

  /** A batch is the lowest-numbered unacked events: none outside it lies below one inside. */
  lemma BatchIsLowest(db: Db, limit: nat, e: Event, b: Event)
    requires QueueOk(db) && Row(e, false) in db.events
    requires b in UnackedEvents(db, limit) && e.num <= b.num
    ensures e in UnackedEvents(db, limit)
  {
    var all := Unacked(db.events);
    UnackedAscending(db.events);
    UnackedMember(db.events, e);
    var i :| 0 <= i < |all| && all[i] == e;
    var j :| 0 <= j < |UnackedEvents(db, limit)| && UnackedEvents(db, limit)[j] == b;
    assert all[j] == b;
    assert i <= j;
    assert UnackedEvents(db, limit)[i] == e;
  }

  // --------------------------------------------------------- appending

  lemma AppendKeepsQueueOk(db: Db, kind: string, payload: Payload)
    requires QueueOk(db)
    ensures QueueOk(AppendEvent(db, kind, payload))
  {
  }

  /** last_seq answers zero exactly for a file that never issued a number. */
  lemma LastSeqZeroIffFresh(db: Db)
    requires QueueOk(db)
    ensures LastSeq(db) == 0 <==> db.counter == 0
  {
    if db.events != [] {
      assert db.events[|db.events| - 1] in db.events;
    }
  }

  /** b is a with further events queued under the next numbers and the stream label kept. */
  ghost predicate Extends(a: Db, b: Db) {
    && |a.events| <= |b.events|
    && a.events == b.events[..|a.events|]
    && b.counter == a.counter + (|b.events| - |a.events|)
    && (forall i :: |a.events| <= i < |b.events| ==>
          b.events[i].event.num == a.counter + 1 + i - |a.events| && !b.events[i].acked)
    && (STREAM_ID_KEY in a.kv <==> STREAM_ID_KEY in b.kv)
    && StreamId(a) == StreamId(b)
  }

  lemma ExtendsTransitive(a: Db, b: Db, c: Db)
    requires Extends(a, b) && Extends(b, c)
    ensures Extends(a, c)
  {
    assert a.events == b.events[..|a.events|] == c.events[..|b.events|][..|a.events|] == c.events[..|a.events|];
    forall i | |a.events| <= i < |c.events|
      ensures c.events[i].event.num == a.counter + 1 + i - |a.events| && !c.events[i].acked
    {
      if i < |b.events| {
        assert c.events[i] == b.events[i];
      }
    }
  }

  lemma ExtendsKeepsQueueOk(a: Db, b: Db)
    requires QueueOk(a) && Extends(a, b)
    ensures QueueOk(b)
  {
    forall i | 0 <= i < |b.events| ensures 1 <= b.events[i].event.num <= b.counter {
      if i < |a.events| { assert b.events[i] == a.events[i]; assert a.events[i] in a.events; }
    }
    forall i, j | 0 <= i < j < |b.events| ensures b.events[i].event.num < b.events[j].event.num {
      if i < |a.events| { assert b.events[i] == a.events[i]; assert a.events[i] in a.events; }
      if j < |a.events| { assert b.events[j] == a.events[j]; }
    }
  }

  // --------------------------------------------------------- acknowledging

  lemma {:induction false} FilterAscending(rows: seq<Row>, keep: Row -> bool)
    requires Ascending(rows)
    ensures Ascending(Filter(rows, keep))
  {
    if rows != [] {
      FilterAscending(rows[1..], keep);
      forall r | r in Filter(rows[1..], keep) ensures rows[0].event.num < r.event.num {
      }
    }
  }

  lemma {:induction false} AckMember(rows: seq<Row>, upTo: int, r: Row)
    ensures r in DeleteAcked(MarkAcked(rows, upTo), upTo) <==> r in rows && r.event.num > upTo
  {
    var marked := MarkAcked(rows, upTo);
    if r in marked && r.event.num > upTo {
      var i :| 0 <= i < |marked| && marked[i] == r;
      assert rows[i] == r;
    }
    if r in rows && r.event.num > upTo {
      var i :| 0 <= i < |rows| && rows[i] == r;
      assert marked[i] == r;
    }
    if r in marked && r.event.num <= upTo {
      var i :| 0 <= i < |marked| && marked[i] == r;
      assert r.acked;
    }
  }

  /** A cumulative ack removes exactly the rows at or below it and changes no other. */
  lemma AckRemovesPrefix(db: Db, upTo: int)
    requires QueueOk(db)
    ensures QueueOk(AckThrough(db, upTo))
    ensures forall r :: r in AckThrough(db, upTo).events <==> r in db.events && r.event.num > upTo
  {
    forall r ensures r in AckThrough(db, upTo).events <==> r in db.events && r.event.num > upTo {
      AckMember(db.events, upTo, r);
    }
    assert Ascending(MarkAcked(db.events, upTo));
    FilterAscending(MarkAcked(db.events, upTo), (r: Row) => !(r.acked && r.event.num <= upTo));
  }

  /** Between its two statements an ack has only set flags at or below it. */
  lemma MarkedRows(db: Db, upTo: int)
    requires QueueOk(db)
    ensures QueueOk(db.(events := MarkAcked(db.events, upTo)))
    ensures forall e :: Row(e, false) in MarkAcked(db.events, upTo) <==> Row(e, false) in db.events && e.num > upTo
  {
    var marked := MarkAcked(db.events, upTo);
    forall r | r in marked ensures 1 <= r.event.num <= db.counter {
      var i :| 0 <= i < |marked| && marked[i] == r;
      assert db.events[i] in db.events;
    }
    MarkedUnacked(db, upTo);
  }

  lemma MarkedUnacked(db: Db, upTo: int)
    ensures forall e :: Row(e, false) in MarkAcked(db.events, upTo) <==> Row(e, false) in db.events && e.num > upTo
  {
    var marked := MarkAcked(db.events, upTo);
    forall e ensures Row(e, false) in marked <==> Row(e, false) in db.events && e.num > upTo {
      if Row(e, false) in marked {
        var i :| 0 <= i < |marked| && marked[i] == Row(e, false);
        assert db.events[i] == Row(e, false);
      }
      if Row(e, false) in db.events && e.num > upTo {
        var i :| 0 <= i < |db.events| && db.events[i] == Row(e, false);
        assert marked[i] == Row(e, false);
      }
    }
  }

  // --------------------------------------------------------- trimming

  function StatusCount(rows: seq<Row>): nat {
    if rows == [] then 0 else (if IsStatus(rows[0]) then 1 else 0) + StatusCount(rows[1..])
  }

  lemma {:induction false} NoStatusLeft(rows: seq<Row>)
    requires StatusCount(rows) == 0
    ensures forall r :: r in rows ==> !IsStatus(r)
  {
    if rows != [] {
      NoStatusLeft(rows[1..]);
      assert rows == [rows[0]] + rows[1..];
    }
  }

  /** Dropping n status rows removes as many as there are, up to n. */
  lemma {:induction false} DropCount(rows: seq<Row>, n: nat)
    ensures |Unacked(DropOldestStatus(rows, n))| == |Unacked(rows)| - Min(n, StatusCount(rows))
    ensures StatusCount(DropOldestStatus(rows, n)) == StatusCount(rows) - Min(n, StatusCount(rows))
  {
    if rows == [] || n == 0 {
    } else if IsStatus(rows[0]) {
      DropCount(rows[1..], n - 1);
    } else {
      DropCount(rows[1..], n);
      assert DropOldestStatus(rows, n)[1..] == DropOldestStatus(rows[1..], n);
    }
  }

  /** What a drop leaves was there before, and what goes is an unacked status row. */
  lemma {:induction false} DropMembers(rows: seq<Row>, n: nat)
    ensures forall r :: r in DropOldestStatus(rows, n) ==> r in rows
    ensures forall r :: r in rows && r !in DropOldestStatus(rows, n) ==> IsStatus(r)
  {
    if rows == [] || n == 0 {
    } else {
      assert rows == [rows[0]] + rows[1..];
      DropMembers(rows[1..], if IsStatus(rows[0]) then n - 1 else n);
    }
  }

  /** Every status row dropped is older than every status row kept. */
  lemma {:induction false} DropsOldestFirst(rows: seq<Row>, n: nat)
    requires Ascending(rows)
    ensures Ascending(DropOldestStatus(rows, n))
    ensures var left := DropOldestStatus(rows, n);
      forall r, s :: r in rows && r !in left && s in left && IsStatus(s) ==> r.event.num < s.event.num
  {
    if rows == [] || n == 0 {
    } else {
      assert rows == [rows[0]] + rows[1..];
      var m := if IsStatus(rows[0]) then n - 1 else n;
      DropsOldestFirst(rows[1..], m);
      DropMembers(rows[1..], m);
      var rest := DropOldestStatus(rows[1..], m);
      assert DropOldestStatus(rows, n) == if IsStatus(rows[0]) then rest else [rows[0]] + rest;
      hide DropOldestStatus;
    }
  }

  /** Trimming loses nothing but status samples, oldest first, and no more of them than the excess. */
  lemma TrimLosesOnlyStatus(db: Db, keep: int)
    requires QueueOk(db)
    ensures var left := TrimEvents(db, keep);
      && QueueOk(left)
      && (forall r :: r in left.events ==> r in db.events)
      && (forall r :: r in db.events && r !in left.events ==> IsStatus(r))
      && (forall r, s :: r in db.events && r !in left.events && s in left.events && IsStatus(s) ==>
            r.event.num < s.event.num)
      && |Unacked(left.events)| == |Unacked(db.events)|
         - Min(Max(0, |Unacked(db.events)| - keep), StatusCount(db.events))
  {
    var excess := |Unacked(db.events)| - keep;
    if excess > 0 {
      DropCount(db.events, excess);
      DropMembers(db.events, excess);
      DropsOldestFirst(db.events, excess);
      hide DropOldestStatus, Unacked, StatusCount, IsStatus;
    }
  }

  /** After every emit the queue is within its cap or holds no status sample. */
  lemma EmitRespectsCap(db: Db, kind: string, payload: Payload, keep: int)
    requires QueueOk(db)
    ensures var after := Emit(db, kind, payload, keep);
      || |Unacked(after.events)| <= keep
      || forall r :: r in after.events ==> !IsStatus(r)
  {
    var mid := AppendEvent(db, kind, payload);
    AppendKeepsQueueOk(db, kind, payload);
    var excess := |Unacked(mid.events)| - keep;
    if excess > 0 {
      DropCount(mid.events, excess);
      var left := DropOldestStatus(mid.events, excess);
      if StatusCount(left) == 0 {
        NoStatusLeft(left);
      }
    }
  }
}
