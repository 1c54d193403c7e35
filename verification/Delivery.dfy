/**
 Durable event delivery: the agent's sender and receiver (link.py), a lossy
 connection and a peer that applies its frames in order, late frames of dead
 connections at any time, and drops duplicates.
 A step runs from one await of the agent to the next, or is a fault.
 */
module Delivery {
  import opened Basics
  import opened Database
  import opened Queue
  import opened Journal

  const BATCH: nat := 200

  // ------------------------------------------------------------- state

  /** An event together with the stream it was numbered under. */
  datatype Issued = Issued(stream: string, event: Event)

  /**
   One connection. batch is what the sender's current for-loop still has to
   send; written says that its head has been handed to the socket and the send
   has not returned yet. wire and acks are the two directions of the socket.
   sent is history: the numbers handed to the socket on this connection.
   */
  datatype Session = Session(
    stream: string, batch: seq<Event>, written: bool, parked: bool,
    wire: seq<Event>, acks: seq<nat>, sent: set<nat>)

  /** ServerLink's own fields. */
  datatype Link = Link(sentThrough: nat, wake: bool)

  /** ingested is the peer's idempotency table; effects is what it applied, in order. */
  datatype Peer = Peer(ingested: set<(string, nat)>, effects: seq<Issued>)

  /**
   issued and labels are history: every event ever numbered, every stream ever
   used. stale holds the frames a dead connection still had on the wire: the
   peer may get to them at any later time, but their acks go nowhere. cap is
   the configured queue length emits trim to.
   */
  datatype World = World(
    db: Db, link: Link, session: Option<Session>, stale: set<Issued>, peer: Peer,
    issued: seq<Issued>, labels: set<string>, cap: int)

  datatype Action =
    | Emitted(kind: string, payload: Payload)
    | Wrote(db: Db)
    | Connected
    | Looked
    | SendStarted
    | SendReturned
    | PeerApplied(ack: bool)
    | StaleApplied(frame: Issued)
    | AckArrived
    | ResendArrived(from_: nat)
    | Disconnected
    | Restarted(token: string, ids: seq<string>)
    | CrashedInAck(token: string, ids: seq<string>)
    | Rebuilt(token: string)

  // -------------------------------------------------- the link's functions

  function Nums(es: seq<Event>): set<nat> {
    set e | e in es :: e.num
  }

  /** What the sender finds to send: the oldest BATCH queued events, less those already sent. */
  function NextBatch(db: Db, sentThrough: nat): seq<Event> {
    Filter(UnackedEvents(db, BATCH), (e: Event) => e.num > sentThrough)
  }

  function ResendMarker(from_: nat): nat {
    if from_ == 0 then 0 else from_ - 1
  }

  /** Numbers waiting in the queue. */
  function Queued(db: Db): set<nat> {
    Nums(Unacked(db.events))
  }

  // ------------------------------------------------------------- steps

  /** The history entries of newly queued rows. */
  function Numbered(events: seq<Row>, stream: string): seq<Issued> {
    if events == [] then [] else [Issued(stream, events[0].event)] + Numbered(events[1..], stream)
  }

  ghost predicate FreshLabel(w: World, token: string) {
    token != "" && token !in w.labels
  }

  ghost predicate Enabled(w: World, a: Action) {
    match a
    case Emitted(_, _) => true
    case Wrote(db) => Extends(w.db, db) && JournalOk(db)
    case Connected => w.session.None?
    case Looked => w.session.Some? && w.session.value.batch == []
    case SendStarted => w.session.Some? && w.session.value.batch != [] && !w.session.value.written
    case SendReturned => w.session.Some? && w.session.value.batch != [] && w.session.value.written
    case PeerApplied(_) => w.session.Some? && w.session.value.wire != []
    case StaleApplied(frame) => frame in w.stale
    case AckArrived => w.session.Some? && w.session.value.acks != []
    case ResendArrived(from_) => w.session.Some? && ResendSafe(w, from_)
    case Disconnected => w.session.Some?
    case Restarted(token, ids) => FreshLabel(w, token) && JournalOk(w.db) && ListsRunning(w.db, ids)
    case CrashedInAck(token, ids) =>
      w.session.Some? && w.session.value.acks != []
      && FreshLabel(w, token) && JournalOk(w.db) && ListsRunning(w.db, ids)
    case Rebuilt(token) => FreshLabel(w, token)
  }

  /** The peer asks again from an issued number such that everything queued below it was sent on this connection. */
  ghost predicate ResendSafe(w: World, from_: nat)
    requires w.session.Some?
  {
    && from_ <= w.db.counter + 1
    && forall n :: n in Queued(w.db) && n < from_ ==> n in w.session.value.sent
  }

  function Wake(w: World): Link {
    Link(w.link.sentThrough, true)
  }

  /** Opening the file again after the process died. */
  ghost function Reopen(db: Db, token: string, ids: seq<string>): (after: Db)
    requires JournalOk(db) && ListsRunning(db, ids)
    ensures |db.events| <= |after.events|
  {
    RecoverKeeps(EnsureStreamId(db, token), ids);
    RecoverCommands(EnsureStreamId(db, token), ids)
  }

  /** Frames no live connection carries, once the connection of w is gone. */
  function Dead(w: World): set<Issued> {
    w.stale
    + if w.session.None? then {} else set e | e in w.session.value.wire :: Issued(w.session.value.stream, e)
  }

  /** The history after the rows of after beyond those of before were queued. */
  function Record(w: World, before: Db, after: Db): seq<Issued>
    requires |before.events| <= |after.events|
  {
    w.issued + Numbered(after.events[|before.events|..], StreamId(after))
  }

  ghost function Next(w: World, a: Action): World
    requires Enabled(w, a)
  {
    match a
    case Emitted(kind, payload) =>
      w.(db := Emit(w.db, kind, payload, w.cap), link := Wake(w),
         issued := w.issued + [Issued(StreamId(w.db), Event(w.db.counter + 1, kind, payload))])
    case Wrote(db) =>
      w.(db := db, link := Wake(w),
         issued := Record(w, w.db, db))
    case Connected =>
      w.(link := Link(0, w.link.wake),
         session := Some(Session(StreamId(w.db), [], false, false, [], [], {})))
    case Looked =>
      var s := w.session.value;
      var found := NextBatch(w.db, w.link.sentThrough);
      w.(link := Link(w.link.sentThrough, false), session := Some(s.(batch := found, parked := found == [])))
    case SendStarted =>
      var s := w.session.value;
      w.(session := Some(s.(written := true, wire := s.wire + [s.batch[0]], sent := s.sent + {s.batch[0].num})))
    case SendReturned =>
      var s := w.session.value;
      w.(link := Link(s.batch[0].num, w.link.wake),
         session := Some(s.(batch := s.batch[1..], written := false)))
    case PeerApplied(ack) =>
      var s := w.session.value;
      var e := s.wire[0];
      w.(peer := Apply(w.peer, s.stream, e),
         session := Some(s.(wire := s.wire[1..], acks := if ack then s.acks + [e.num] else s.acks)))
    case StaleApplied(frame) => w.(peer := Apply(w.peer, frame.stream, frame.event))
    case AckArrived =>
      var s := w.session.value;
      w.(db := AckThrough(w.db, s.acks[0]),
         link := Link(w.link.sentThrough, w.link.wake || NewlyAcked(w.db.events, s.acks[0]) > 0),
         session := Some(s.(acks := s.acks[1..])))
    case ResendArrived(from_) => w.(link := Link(ResendMarker(from_), true))
    case Disconnected => w.(session := None, stale := Dead(w))
    case Restarted(token, ids) =>
      var db := Reopen(w.db, token, ids);
      w.(db := db, link := Link(0, false), session := None, stale := Dead(w),
         issued := Record(w, w.db, db), labels := w.labels + {token})
    case CrashedInAck(token, ids) =>
      var db := w.db.(events := MarkAcked(w.db.events, w.session.value.acks[0]));
      var after := Reopen(db, token, ids);
      w.(db := after, link := Link(0, false), session := None, stale := Dead(w),
         issued := Record(w, db, after), labels := w.labels + {token})
    case Rebuilt(token) =>
      w.(db := EnsureStreamId(EMPTY, token), link := Link(0, false), session := None, stale := Dead(w),
         labels := w.labels + {token})
  }

  /** The peer claims the key and applies the event in one transaction, or skips a duplicate. */
  function Apply(p: Peer, stream: string, e: Event): Peer {
    if (stream, e.num) in p.ingested then p
    else Peer(p.ingested + {(stream, e.num)}, p.effects + [Issued(stream, e)])
  }

  // ------------------------------------------------------------- invariant

  /** Numbers of the current stream that the peer has applied. */
  function Applied(p: Peer, stream: string): set<nat> {
    set k | k in p.ingested && k.0 == stream :: k.1
  }

  ghost predicate FileOk(w: World) {
    && QueueOk(w.db)
    && STREAM_ID_KEY in w.db.kv
    && StreamId(w.db) in w.labels
    && forall r :: r in w.db.events ==> Issued(StreamId(w.db), r.event) in w.issued
  }

  /** No stream and number were ever given to two events. */
  ghost predicate UniqueNumbers(issued: seq<Issued>) {
    forall i, j :: 0 <= i < j < |issued| ==>
      issued[i].stream != issued[j].stream || issued[i].event.num != issued[j].event.num
  }

  ghost predicate HistoryOk(w: World) {
    && UniqueNumbers(w.issued)
    && (forall x :: x in w.issued ==> x.stream in w.labels)
    && (forall x :: x in w.stale ==> x in w.issued)
    && (forall x :: x in w.issued && x.stream == StreamId(w.db) ==> 1 <= x.event.num <= w.db.counter)
  }

  /** Nothing was applied twice, and only issued events were applied. */
  ghost predicate AppliedOnce(w: World) {
    && UniqueNumbers(w.peer.effects)
    && (forall x :: x in w.peer.effects ==> x in w.issued)
  }

  ghost predicate PeerOk(w: World) {
    && AppliedOnce(w)
    && (forall x :: x in w.peer.effects ==> (x.stream, x.event.num) in w.peer.ingested)
    && (forall k :: k in w.peer.ingested ==> exists x :: x in w.peer.effects && k == (x.stream, x.event.num))
  }

  /** Every event of the current file that is no status sample is queued or applied. */
  ghost predicate NothingLost(w: World) {
    forall x :: x in w.issued && x.stream == StreamId(w.db) && x.event.kind != STATUS_KIND ==>
      Row(x.event, false) in w.db.events || x in w.peer.effects
  }

  ghost predicate Accounted(w: World) {
    forall x :: x in w.issued && x.stream == StreamId(w.db) && x.event.kind != STATUS_KIND ==>
      x.event.num in Queued(w.db) || x.event.num in Applied(w.peer, x.stream)
  }

  function Below(q: set<nat>, n: nat): set<nat> {
    set m | m in q && m <= n
  }

  /** The key invariant: every queued number up to the marker was sent on this connection. */
  ghost predicate AllSentThrough(q: set<nat>, top: nat, sentThrough: nat, sent: set<nat>) {
    sentThrough <= top && forall n :: n in q && n <= sentThrough ==> n in sent
  }

  /** What was sent is applied or on the wire, and has no gap among what is queued. */
  ghost predicate SentOk(q: set<nat>, top: nat, done: set<nat>, wire: seq<Event>, sent: set<nat>) {
    && Nums(wire) <= sent <= done + Nums(wire)
    && (forall n :: n in sent ==> n <= top)
    && (forall n, t :: n in q && t in sent && n <= t ==> n in sent)
    && (forall t :: t in sent ==> |Below(q, t)| <= BATCH)
  }

  /** When the peer gets to a frame, everything queued up to it was applied or precedes it. */
  ghost predicate WireOk(q: set<nat>, top: nat, done: set<nat>, wire: seq<Event>) {
    && (forall i :: 0 <= i < |wire| ==> wire[i].num <= top)
    && (forall i, n :: 0 <= i < |wire| && n in q && n <= wire[i].num ==> n in done || n in Nums(wire[..i + 1]))
  }

  ghost predicate AcksOk(q: set<nat>, top: nat, done: set<nat>, acks: seq<nat>) {
    && (forall a, n :: a in acks && n in q && n <= a ==> n in done)
    && (forall a :: a in acks ==> a <= top)
  }

  ghost predicate BatchOk(q: set<nat>, top: nat, s: Session) {
    && AscendingEvents(s.batch)
    && (forall i :: 0 <= i < |s.batch| ==> s.batch[i].num <= top && |Below(q, s.batch[i].num)| <= BATCH)
    && (forall i, n :: 0 <= i < |s.batch| && n in q && n <= s.batch[i].num ==> n in s.sent || n in Nums(s.batch))
    && (s.written ==> s.batch != [] && s.batch[0].num in s.sent)
  }

  /** The connection's part of the invariant, over numbers only: q queued, top the counter, done applied. */
  ghost predicate SessionOk(q: set<nat>, top: nat, done: set<nat>, sentThrough: nat, s: Session) {
    && AllSentThrough(q, top, sentThrough, s.sent)
    && SentOk(q, top, done, s.wire, s.sent) && WireOk(q, top, done, s.wire)
    && AcksOk(q, top, done, s.acks) && BatchOk(q, top, s)
  }

  ghost predicate FramesIssued(w: World, es: seq<Event>) {
    forall e :: e in es ==> Issued(StreamId(w.db), e) in w.issued
  }

  ghost predicate NoLostWake(w: World, s: Session) {
    s.parked && !w.link.wake ==> NextBatch(w.db, w.link.sentThrough) == []
  }

  ghost predicate ConnectionOk(w: World, s: Session) {
    && s.stream == StreamId(w.db)
    && FramesIssued(w, s.wire) && FramesIssued(w, s.batch)
    && SessionOk(Queued(w.db), w.db.counter, Applied(w.peer, s.stream), w.link.sentThrough, s)
    && (s.parked ==> s.batch == [])
    && NoLostWake(w, s)
  }

  ghost predicate Inv(w: World) {
    && JournalOk(w.db) && FileOk(w) && HistoryOk(w) && PeerOk(w) && Accounted(w)
    && (w.session.Some? ==> ConnectionOk(w, w.session.value))
  }
}
