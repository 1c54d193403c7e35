/** The link object of link.py: its marker, its wake flag and its two handlers. */
module ServerLink {
  import opened Basics
  import opened Database
  import opened Queue
  import opened Delivery
  import opened DeliverySession
  import opened LocalStore

  /** The seq field of a server frame. */
  datatype Json = Int(number: int) | Bool(truth: bool) | Absent | OtherValue(text: string)

  /** What passes isinstance(seq, int): integers, and the booleans as 0 and 1. */
  function AsNumber(value: Json): Option<int> {
    match value
    case Int(n) => Some(n)
    case Bool(b) => Some(if b then 1 else 0)
    case Absent => None
    case OtherValue(_) => None
  }

  class Sender {
    const store: Store
    var connected: bool
    var sentThrough: nat
    var wake: bool

    ghost function View(): Link
      reads this
    {
      Link(sentThrough, wake)
    }

    constructor (store: Store)
      ensures this.store == store && View() == Link(0, false) && !connected
    {
      this.store := store;
      connected, sentThrough, wake := false, 0, false;
    }

    /** A new connection replays from the oldest unacked event. */
    method StartSession()
      modifies this
      ensures connected && View() == Link(0, old(wake))
      ensures QueueOk(store.File()) ==> NextBatch(store.File(), sentThrough) == UnackedEvents(store.File(), BATCH)
    {
      if QueueOk(store.File()) {
        FreshMarkerReplaysAll(store.File());
      }
      connected := true;
      sentThrough := 0;
    }

    method EndSession()
      modifies this`connected
      ensures !connected
    {
      connected := false;
    }

    method Nudge()
      modifies this`wake
      ensures wake
    {
      wake := true;
    }

    /** The sender's look at the queue: clear the flag first, then query. */
    method Look() returns (batch: seq<Event>)
      requires QueueOk(store.File())
      modifies this`wake
      ensures batch == NextBatch(store.File(), sentThrough) && !wake
      ensures forall e :: e in batch ==> Row(e, false) in store.events && e.num > sentThrough
    {
      wake := false;
      var oldest := store.ReadUnacked(BATCH);
      var marker := sentThrough;
      batch := Filter(oldest, (e: Event) => e.num > marker);
    }

    /** The send of one event returned. */
    method Sent(event: Event)
      modifies this`sentThrough
      ensures sentThrough == event.num
    {
      sentThrough := event.num;
    }

    /**
     A cumulative ack: what is no integer is ignored, and an integer too wide
     for SQLite raises before anything changes, which ends the connection.
     */
    method HandleAck(field: Json) returns (raised: bool)
      requires QueueOk(store.File())
      modifies this`wake, store`events
      ensures raised <==> AsNumber(field).Some? && !Bindable(AsNumber(field).value)
      ensures AsNumber(field).None? || raised ==> store.File() == old(store.File()) && wake == old(wake)
      ensures AsNumber(field).Some? && !raised ==>
        var upTo := AsNumber(field).value;
        && store.File() == AckThrough(old(store.File()), upTo)
        && (forall r :: r in store.events <==> r in old(store.events) && r.event.num > upTo)
        && (wake <==> old(wake) || NewlyAcked(old(store.events), upTo) > 0)
    {
      raised := false;
      var num := AsNumber(field);
      if num.None? {
        return;
      }
      if !Bindable(num.value) {
        return true;
      }
      var removed := store.AckUpTo(num.value);
      if removed > 0 {
        Nudge();
      }
    }

    /** A resend request only rewinds the marker, to just below the number asked for. */
    method HandleResend(field: Json)
      modifies this`wake, this`sentThrough
      ensures AsNumber(field).None? ==> View() == old(View())
      ensures AsNumber(field).Some? ==>
        var asked := AsNumber(field).value;
        wake && (if asked <= 1 then sentThrough == 0 else sentThrough + 1 == asked)
    {
      var num := AsNumber(field);
      if num.None? {
        return;
      }
      sentThrough := Max(0, num.value - 1);
      Nudge();
    }
  }
}
