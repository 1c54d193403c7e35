/** Conservation, limits, order and fates of submitted commands over every run. */
module DispatchSafety {
  import opened Basics
  import opened Database
  import opened Dispatch

  // ------------------------------------------------------------ counting

  ghost function Total(queues: map<Key, DeviceQueue>): nat
    decreases |queues|
  {
    if queues == map[] then 0
    else
      var key :| key in queues;
      |queues[key].frames| + Total(queues - {key})
  }

  lemma {:induction false} TotalWithout(queues: map<Key, DeviceQueue>, key: Key)
    requires key in queues
    ensures Total(queues) == |queues[key].frames| + Total(queues - {key})
    decreases |queues|
  {
    var first :| first in queues && Total(queues) == |queues[first].frames| + Total(queues - {first});
    if first != key {
      TotalWithout(queues - {first}, key);
      TotalWithout(queues - {key}, first);
      assert queues - {first} - {key} == queues - {key} - {first};
    }
  }

  lemma TotalSet(queues: map<Key, DeviceQueue>, key: Key, q: DeviceQueue)
    ensures Total(queues[key := q]) == Total(queues - {key}) + |q.frames|
    ensures key in queues ==> Total(queues[key := q]) == Total(queues) - |queues[key].frames| + |q.frames|
    ensures key !in queues ==> Total(queues[key := q]) == Total(queues) + |q.frames|
  {
    TotalWithout(queues[key := q], key);
    assert queues[key := q] - {key} == queues - {key};
    if key in queues {
      TotalWithout(queues, key);
    } else {
      assert queues - {key} == queues;
    }
  }

  // ------------------------------------------------------------ invariant

  ghost predicate Conserved(s: State) {
    s.pending == Total(s.queues)
  }

  ghost predicate WithinLimits(s: State) {
    && s.pending <= s.limits.maxPending
    && |s.queues| <= s.limits.maxWorkers
    && forall key :: key in s.queues ==> |s.queues[key].frames| <= Max(1, s.limits.maxPerDevice)
  }

  /** The key a submission was queued under. */
  function KeyAt(submitted: seq<Frame>, n: nat): Key {
    if n < |submitted| then KeyOf(submitted[n]) else None
  }

  /** Serial numbers waiting in a queue, and in any queue. */
  function Serials(frames: seq<Job>): set<nat> {
    set j | j in frames :: j.serial
  }

  function In(q: DeviceQueue): set<nat> {
    Serials(q.frames)
  }

  function Queued(queues: map<Key, DeviceQueue>): set<nat> {
    set key, n | key in queues && n in In(queues[key]) :: n
  }

  function Resolved(fates: seq<(nat, Fate)>): set<nat> {
    set x | x in fates :: x.0
  }

  /** A queue holds submissions of its own key in the order they were made. */
  ghost predicate QueueOk(submitted: seq<Frame>, key: Key, q: DeviceQueue) {
    && (forall j :: j in q.frames ==>
          j.serial < |submitted| && j.frame == submitted[j.serial] && KeyAt(submitted, j.serial) == key)
    && (forall i, j :: 0 <= i < j < |q.frames| ==> q.frames[i].serial < q.frames[j].serial)
    && (q.running ==> q.frames != [] && q.entered)
  }

  ghost predicate QueuesOk(s: State) {
    forall key :: key in s.queues ==> QueueOk(s.submitted, key, s.queues[key])
  }

  ghost predicate DistinctFates(fates: seq<(nat, Fate)>) {
    forall i, j :: 0 <= i < j < |fates| ==> fates[i].0 != fates[j].0
  }

  /** Every submission has exactly one fate, or none yet and waits in a queue. */
  ghost predicate OneFate(s: State) {
    && DistinctFates(s.fates)
    && (forall n :: n in Resolved(s.fates) ==> n < |s.submitted| && n !in Queued(s.queues))
    && (forall n :: n in Queued(s.queues) ==> n < |s.submitted|)
    && (forall n: nat :: n < |s.submitted| ==> n in Resolved(s.fates) || n in Queued(s.queues))
  }

  /** Starts under one key come in submission order. */
  ghost predicate StartsInOrder(submitted: seq<Frame>, starts: seq<nat>) {
    && (forall n :: n in starts ==> n < |submitted|)
    && (forall i, j :: 0 <= i < j < |starts| && KeyAt(submitted, starts[i]) == KeyAt(submitted, starts[j]) ==>
          starts[i] < starts[j])
  }

  /** Of a queue's jobs exactly the running head has started, and what waits was submitted after all that started. */
  ghost predicate HeadStarted(submitted: seq<Frame>, starts: seq<nat>, key: Key, q: DeviceQueue) {
    && (q.running && q.frames != [] ==> q.frames[0].serial in starts)
    && (forall i, n :: Kept(q) <= i < |q.frames| && n in starts && KeyAt(submitted, n) == key ==>
          n < q.frames[i].serial)
  }

  ghost predicate HeadsStarted(s: State) {
    forall key :: key in s.queues ==> HeadStarted(s.submitted, s.starts, key, s.queues[key])
  }

  /** A fate tells whether the command started, and a start belongs to a fate or to a running head. */
  ghost predicate FatesHonest(s: State) {
    forall x :: x in s.fates ==> (x.0 in s.starts <==> x.1 != RejectedUnstarted)
  }

  ghost predicate Inv(s: State) {
    && Conserved(s) && WithinLimits(s) && QueuesOk(s) && OneFate(s)
    && StartsInOrder(s.submitted, s.starts) && HeadsStarted(s) && FatesHonest(s)
  }

  // ------------------------------------------------------------ sets of serials

  lemma QueuedWithout(queues: map<Key, DeviceQueue>, key: Key)
    requires key in queues
    ensures Queued(queues) == Queued(queues - {key}) + In(queues[key])
  {
    forall n | n in Queued(queues) ensures n in Queued(queues - {key}) + In(queues[key]) {
      var k :| k in queues && n in In(queues[k]);
      assert k == key || (k in queues - {key} && (queues - {key})[k] == queues[k]);
    }
    forall n | n in Queued(queues - {key}) ensures n in Queued(queues) {
      var k :| k in queues - {key} && n in In((queues - {key})[k]);
      assert k in queues && n in In(queues[k]);
    }
    forall n | n in In(queues[key]) ensures n in Queued(queues) {
    }
  }

  lemma QueuedSet(queues: map<Key, DeviceQueue>, key: Key, q: DeviceQueue)
    ensures Queued(queues[key := q]) == Queued(queues - {key}) + In(q)
    ensures key in queues ==> Queued(queues) == Queued(queues - {key}) + In(queues[key])
    ensures key !in queues ==> Queued(queues - {key}) == Queued(queues)
  {
    QueuedWithout(queues[key := q], key);
    assert queues[key := q] - {key} == queues - {key};
    if key in queues {
      QueuedWithout(queues, key);
    } else {
      assert queues - {key} == queues;
    }
  }

  /** A submission waits under its own key only. */
  lemma OwnKey(s: State, key: Key, n: nat)
    requires QueuesOk(s) && key in s.queues && n in In(s.queues[key])
    ensures n !in Queued(s.queues - {key}) && KeyAt(s.submitted, n) == key && n < |s.submitted|
  {
    assert QueueOk(s.submitted, key, s.queues[key]);
    forall k | k in s.queues - {key} ensures n !in In((s.queues - {key})[k]) {
      assert QueueOk(s.submitted, k, s.queues[k]);
    }
  }

  lemma QueueOkGrows(submitted: seq<Frame>, f: Frame, key: Key, q: DeviceQueue)
    requires QueueOk(submitted, key, q)
    ensures QueueOk(submitted + [f], key, q)
  {
  }

  lemma HeadStartedGrows(submitted: seq<Frame>, f: Frame, starts: seq<nat>, key: Key, q: DeviceQueue)
    requires HeadStarted(submitted, starts, key, q) && StartsInOrder(submitted, starts)
    ensures HeadStarted(submitted + [f], starts, key, q) && StartsInOrder(submitted + [f], starts)
  {
    assert forall n :: n in starts ==> KeyAt(submitted + [f], n) == KeyAt(submitted, n);
  }

  // ------------------------------------------------------------ submit

  lemma RefuseKeeps(s: State, f: Frame)
    requires Inv(s) && Refuses(s, f)
    ensures Inv(Submit(s, f))
  {
    hide Total;
    var s' := Submit(s, f);
    var n := |s.submitted|;
    assert Resolved(s'.fates) == Resolved(s.fates) + {n};
    assert n !in Resolved(s.fates) && n !in Queued(s.queues);
    HeadStartedGrows(s.submitted, f, s.starts, None, DeviceQueue([], false, false));
    forall key | key in s.queues
      ensures QueueOk(s'.submitted, key, s.queues[key]) && HeadStarted(s'.submitted, s.starts, key, s.queues[key])
    {
      QueueOkGrows(s.submitted, f, key, s.queues[key]);
      HeadStartedGrows(s.submitted, f, s.starts, key, s.queues[key]);
    }
  }

  lemma AcceptQueue(s: State, f: Frame, q: DeviceQueue)
    requires Inv(s) && q == if KeyOf(f) in s.queues then s.queues[KeyOf(f)] else DeviceQueue([], false, false)
    ensures var q' := q.(frames := q.frames + [Job(|s.submitted|, f)]);
      && QueueOk(s.submitted + [f], KeyOf(f), q') && HeadStarted(s.submitted + [f], s.starts, KeyOf(f), q')
      && In(q') == In(q) + {|s.submitted|}
  {
    assert QueueOk(s.submitted, KeyOf(f), q) && HeadStarted(s.submitted, s.starts, KeyOf(f), q);
    hide OneFate, QueuesOk, HeadsStarted, FatesHonest, Conserved, WithinLimits, StartsInOrder, KeyOf;
    QueueGains(s.submitted, f, q);
    HeadGains(s.submitted, f, s.starts, q) by {
      StartsKnown(s);
    }
  }

  lemma StartsKnown(s: State)
    requires StartsInOrder(s.submitted, s.starts)
    ensures forall n :: n in s.starts ==> n < |s.submitted|
  {
  }

  lemma QueueGains(submitted: seq<Frame>, f: Frame, q: DeviceQueue)
    requires QueueOk(submitted, KeyOf(f), q)
    ensures var q' := q.(frames := q.frames + [Job(|submitted|, f)]);
      QueueOk(submitted + [f], KeyOf(f), q') && In(q') == In(q) + {|submitted|}
  {
    SerialsAppend(q.frames, [Job(|submitted|, f)]);
    assert Serials([Job(|submitted|, f)]) == {|submitted|};
    hide Serials, KeyOf;
  }

  lemma HeadGains(submitted: seq<Frame>, f: Frame, starts: seq<nat>, q: DeviceQueue)
    requires HeadStarted(submitted, starts, KeyOf(f), q) && forall n :: n in starts ==> n < |submitted|
    requires q.running ==> q.frames != []
    ensures HeadStarted(submitted + [f], starts, KeyOf(f), q.(frames := q.frames + [Job(|submitted|, f)]))
  {
  }

  lemma AcceptCounts(s: State, f: Frame)
    requires Inv(s) && !Refuses(s, f)
    ensures Conserved(Submit(s, f)) && WithinLimits(Submit(s, f))
  {
    hide Total, OneFate, QueuesOk, StartsInOrder, HeadsStarted, FatesHonest;
    var s' := Submit(s, f);
    var key := KeyOf(f);
    TotalSet(s.queues, key, s'.queues[key]);
    assert s'.queues.Keys == s.queues.Keys + {key};
  }

  lemma AcceptAccounts(s: State, f: Frame)
    requires Inv(s) && !Refuses(s, f)
    ensures OneFate(Submit(s, f))
  {
    var s' := Submit(s, f);
    var key := KeyOf(f);
    var q := if key in s.queues then s.queues[key] else DeviceQueue([], false, false);
    hide OneFate, Queued, In, QueuesOk, HeadsStarted, Total, Conserved, WithinLimits, StartsInOrder, FatesHonest;
    hide QueueOk, HeadStarted;
    AcceptQueue(s, f, q);
    QueuedGains(s.queues, key, q, s'.queues[key], |s.submitted|);
    NewcomerAccounts(s, s');
  }

  lemma QueuedGains(queues: map<Key, DeviceQueue>, key: Key, q: DeviceQueue, q': DeviceQueue, n: nat)
    requires if key in queues then q == queues[key] else q.frames == []
    requires In(q') == In(q) + {n}
    ensures Queued(queues[key := q']) == Queued(queues) + {n}
  {
    QueuedSet(queues, key, q');
    if key !in queues {
      assert In(q) == {};
    }
    hide Queued, In;
  }

  lemma NewcomerAccounts(s: State, s': State)
    requires OneFate(s) && s'.fates == s.fates && |s'.submitted| == |s.submitted| + 1
    requires Queued(s'.queues) == Queued(s.queues) + {|s.submitted|}
    ensures OneFate(s')
  {
    hide Queued, Resolved, DistinctFates;
  }

  lemma AcceptKeeps(s: State, f: Frame)
    requires Inv(s) && !Refuses(s, f)
    ensures Inv(Submit(s, f))
  {
    var s' := Submit(s, f);
    var key := KeyOf(f);
    var q := if key in s.queues then s.queues[key] else DeviceQueue([], false, false);
    AcceptCounts(s, f);
    AcceptQueue(s, f, q);
    AcceptAccounts(s, f);
    HeadStartedGrows(s.submitted, f, s.starts, None, DeviceQueue([], false, false));
    forall k | k in s'.queues
      ensures QueueOk(s'.submitted, k, s'.queues[k]) && HeadStarted(s'.submitted, s.starts, k, s'.queues[k])
    {
      if k != key {
        QueueOkGrows(s.submitted, f, k, s.queues[k]);
        HeadStartedGrows(s.submitted, f, s.starts, k, s.queues[k]);
      }
    }
  }

  // ------------------------------------------------------------ start

  lemma BeginOrder(s: State, key: Key)
    requires Inv(s) && CanBegin(s, key)
    ensures var s' := Begin(s, key); StartsInOrder(s'.submitted, s'.starts) && FatesHonest(s')
  {
    var s' := Begin(s, key);
    var head := s.queues[key].frames[0];
    assert QueueOk(s.submitted, key, s.queues[key]) && HeadStarted(s.submitted, s.starts, key, s.queues[key]);
    assert head in s.queues[key].frames;
    assert head.serial in In(s.queues[key]);
    QueuedWithout(s.queues, key);
    forall x | x in s.fates ensures x.0 in s'.starts <==> x.1 != RejectedUnstarted {
      assert x.0 in Resolved(s.fates);
    }
    forall i, j | 0 <= i < j < |s'.starts| && KeyAt(s.submitted, s'.starts[i]) == KeyAt(s.submitted, s'.starts[j])
      ensures s'.starts[i] < s'.starts[j]
    {
      assert s'.starts[i] in s.starts;
    }
  }

  lemma BeginCounts(s: State, key: Key)
    requires Inv(s) && CanBegin(s, key)
    ensures var s' := Begin(s, key); Conserved(s') && WithinLimits(s') && OneFate(s')
  {
    var s' := Begin(s, key);
    TotalSet(s.queues, key, s'.queues[key]);
    QueuedSet(s.queues, key, s'.queues[key]);
    assert In(s'.queues[key]) == In(s.queues[key]);
    assert s'.queues.Keys == s.queues.Keys;
  }

  lemma BeginHead(s: State, key: Key)
    requires Inv(s) && CanBegin(s, key)
    ensures QueueOk(s.submitted, key, Begin(s, key).queues[key])
    ensures HeadStarted(s.submitted, Begin(s, key).starts, key, Begin(s, key).queues[key])
  {
    var q := s.queues[key];
    assert QueueOk(s.submitted, key, q) && HeadStarted(s.submitted, s.starts, key, q);
  }

  lemma BeginKeeps(s: State, key: Key)
    requires Inv(s) && CanBegin(s, key)
    ensures Inv(Begin(s, key))
  {
    var s' := Begin(s, key);
    var head := s.queues[key].frames[0];
    BeginCounts(s, key);
    BeginOrder(s, key);
    BeginHead(s, key);
    assert QueueOk(s.submitted, key, s.queues[key]) && head in s.queues[key].frames;
    forall k | k in s'.queues && k != key
      ensures QueueOk(s'.submitted, k, s'.queues[k]) && HeadStarted(s'.submitted, s'.starts, k, s'.queues[k])
    {
      assert QueueOk(s.submitted, k, s.queues[k]) && HeadStarted(s.submitted, s.starts, k, s.queues[k]);
      assert KeyAt(s.submitted, head.serial) == key;
    }
  }

  // ------------------------------------------------------------ resolving one job

  /** s' is s with job p of one queue, the first or the last, taken out and given its fate. */
  ghost predicate Resolves(s: State, key: Key, p: nat, q': DeviceQueue, fate: Fate, s': State) {
    && key in s.queues && p < |s.queues[key].frames|
    && q'.frames == s.queues[key].frames[..p] + s.queues[key].frames[p + 1..]
    && s' == s.(queues := s.queues[key := q'], pending := s.pending - 1,
                fates := s.fates + [(s.queues[key].frames[p].serial, fate)])
  }

  lemma ResolveCounts(s: State, key: Key, p: nat, q': DeviceQueue, fate: Fate, s': State)
    requires Inv(s) && Resolves(s, key, p, q', fate, s')
    ensures Conserved(s') && WithinLimits(s')
  {
    TotalSet(s.queues, key, q');
    assert s'.queues.Keys == s.queues.Keys;
  }

  lemma SerialsAppend(a: seq<Job>, b: seq<Job>)
    ensures Serials(a + b) == Serials(a) + Serials(b)
  {
    assert forall j :: j in a + b <==> j in a || j in b;
  }

  /** Taking out job p takes out its number, which no other job of the queue carries. */
  lemma TakeOut(frames: seq<Job>, p: nat)
    requires p < |frames|
    requires forall i, j :: 0 <= i < j < |frames| ==> frames[i].serial < frames[j].serial
    ensures Serials(frames[..p] + frames[p + 1..]) == Serials(frames) - {frames[p].serial}
    ensures frames[p].serial in Serials(frames)
  {
    var before, after := frames[..p], frames[p + 1..];
    assert frames == before + ([frames[p]] + after);
    SerialsAppend(before, [frames[p]] + after);
    SerialsAppend([frames[p]], after);
    SerialsAppend(before, after);
    assert frames[p].serial !in Serials(before);
    assert frames[p].serial !in Serials(after);
  }

  lemma ResolveAccounts(s: State, key: Key, p: nat, q': DeviceQueue, fate: Fate, s': State)
    requires Inv(s) && Resolves(s, key, p, q', fate, s')
    ensures OneFate(s')
  {
    hide Conserved, WithinLimits, StartsInOrder, HeadsStarted, FatesHonest;
    var n := s.queues[key].frames[p].serial;
    assert QueueOk(s.submitted, key, s.queues[key]);
    TakeOut(s.queues[key].frames, p);
    OwnKey(s, key, n);
    QueuedSet(s.queues, key, q');
    assert forall m :: m in Queued(s'.queues) <==> m in Queued(s.queues) && m != n;
    assert n in Queued(s.queues);
    assert Resolved(s'.fates) == Resolved(s.fates) + {n};
    forall i | 0 <= i < |s.fates| ensures s.fates[i].0 != n {
      assert s.fates[i] in s.fates;
    }
  }

  lemma EndQueues(s: State, key: Key, returned: bool)
    requires Inv(s) && CanEnd(s, key)
    ensures QueuesOk(End(s, key, returned)) && HeadsStarted(End(s, key, returned))
    ensures StartsInOrder(s.submitted, s.starts) && FatesHonest(End(s, key, returned))
  {
    hide Conserved, WithinLimits, OneFate;
    var s' := End(s, key, returned);
    var q := s.queues[key];
    assert QueueOk(s.submitted, key, q) && HeadStarted(s.submitted, s.starts, key, q);
    forall k | k in s'.queues
      ensures QueueOk(s.submitted, k, s'.queues[k]) && HeadStarted(s.submitted, s.starts, k, s'.queues[k])
    {
      assert QueueOk(s.submitted, k, s.queues[k]) && HeadStarted(s.submitted, s.starts, k, s.queues[k]);
    }
  }

  lemma EndKeeps(s: State, key: Key, returned: bool)
    requires Inv(s) && CanEnd(s, key)
    ensures Inv(End(s, key, returned))
  {
    hide Total, OneFate, QueuesOk, HeadsStarted, FatesHonest, StartsInOrder, WithinLimits, Conserved;
    var s' := End(s, key, returned);
    var q := s.queues[key];
    assert q.frames[..0] + q.frames[1..] == q.frames[1..];
    ResolveCounts(s, key, 0, s'.queues[key], if returned then Completed else RejectedUnknown, s');
    ResolveAccounts(s, key, 0, s'.queues[key], if returned then Completed else RejectedUnknown, s');
    EndQueues(s, key, returned);
  }

  lemma DropKeeps(s: State, key: Key)
    requires Inv(s) && CanDrop(s, key)
    ensures Inv(DropLast(s, key))
  {
    hide Total, OneFate, QueuesOk, HeadsStarted, FatesHonest, StartsInOrder, WithinLimits, Conserved;
    var s' := DropLast(s, key);
    var q := s.queues[key];
    var last := |q.frames| - 1;
    assert q.frames[..last] + q.frames[last + 1..] == q.frames[..last];
    ResolveCounts(s, key, last, s'.queues[key], RejectedUnstarted, s');
    ResolveAccounts(s, key, last, s'.queues[key], RejectedUnstarted, s');
    DropQueues(s, key);
  }

  lemma DropQueues(s: State, key: Key)
    requires Inv(s) && CanDrop(s, key)
    ensures QueuesOk(DropLast(s, key)) && HeadsStarted(DropLast(s, key)) && FatesHonest(DropLast(s, key))
  {
    hide Conserved, WithinLimits, OneFate, StartsInOrder;
    var s' := DropLast(s, key);
    var q := s.queues[key];
    assert QueueOk(s.submitted, key, q) && HeadStarted(s.submitted, s.starts, key, q);
    assert q.frames[|q.frames| - 1] in q.frames;
    forall k | k in s'.queues
      ensures QueueOk(s.submitted, k, s'.queues[k]) && HeadStarted(s.submitted, s.starts, k, s'.queues[k])
    {
      assert QueueOk(s.submitted, k, s.queues[k]) && HeadStarted(s.submitted, s.starts, k, s.queues[k]);
    }
  }

  lemma RemoveAccounts(s: State, key: Key)
    requires Inv(s) && key in s.queues && s.queues[key].frames == []
    ensures OneFate(s.(queues := s.queues - {key}))
  {
    QueuedWithout(s.queues, key);
    assert In(s.queues[key]) == {};
  }

  /** Taking an emptied queue out of the dictionary. */
  lemma RemoveKeeps(s: State, key: Key)
    requires Inv(s) && key in s.queues && s.queues[key].frames == []
    ensures Inv(s.(queues := s.queues - {key}))
  {
    TotalWithout(s.queues, key);
    RemoveAccounts(s, key);
    assert (s.queues - {key}).Keys == s.queues.Keys - {key};
    forall k | k in s.queues - {key} ensures (s.queues - {key})[k] == s.queues[k] {
    }
  }

  // ------------------------------------------------------------ discard and stop

  /** What a discard leaves alone: the commands running, the history so far, the dictionary's keys. */
  ghost predicate Later(s: State, s': State) {
    && s'.queues.Keys == s.queues.Keys && s'.limits == s.limits && s'.stopped == s.stopped
    && s'.submitted == s.submitted && s'.starts == s.starts && s.fates <= s'.fates
    && forall key :: key in s.queues ==> Shortened(s.queues[key], s'.queues[key])
  }

  ghost predicate Shortened(q: DeviceQueue, q': DeviceQueue) {
    && q'.running == q.running && q'.entered == q.entered && q'.frames <= q.frames
    && (q.running && q.frames != [] ==> q'.frames != [])
  }

  lemma LaterTransitive(a: State, b: State, c: State)
    requires Later(a, b) && Later(b, c)
    ensures Later(a, c)
  {
    forall key | key in a.queues ensures Shortened(a.queues[key], c.queues[key]) {
      assert Shortened(a.queues[key], b.queues[key]) && Shortened(b.queues[key], c.queues[key]);
    }
  }

  /** Discarding one queue keeps the other queues and empties this one down to a running head. */
  lemma {:induction false} DiscardQueueLater(s: State, key: Key)
    ensures var s' := DiscardQueue(s, key);
      && Later(s, s')
      && (forall k :: k in s.queues && k != key ==> s'.queues[k] == s.queues[k])
      && (key in s.queues ==> |s'.queues[key].frames| <= Kept(s'.queues[key]))
    decreases if key in s.queues then |s.queues[key].frames| else 0
  {
    if CanDrop(s, key) {
      DiscardQueueLater(DropLast(s, key), key);
      assert Later(s, DropLast(s, key));
      LaterTransitive(s, DropLast(s, key), DiscardQueue(s, key));
    }
  }

  lemma {:induction false} DiscardQueueKeeps(s: State, key: Key)
    requires Inv(s)
    ensures Inv(DiscardQueue(s, key))
    decreases if key in s.queues then |s.queues[key].frames| else 0
  {
    if CanDrop(s, key) {
      DropKeeps(s, key);
      DiscardQueueKeeps(DropLast(s, key), key);
    }
  }

  lemma {:induction false} DiscardLater(s: State, order: seq<Key>)
    ensures var s' := Discard(s, order);
      && Later(s, s')
      && (forall key :: key in order && key in s.queues ==> |s'.queues[key].frames| <= Kept(s'.queues[key]))
    decreases |order|
  {
    if order != [] {
      var s1 := DiscardQueue(s, order[0]);
      DiscardQueueLater(s, order[0]);
      DiscardLater(s1, order[1..]);
      LaterTransitive(s, s1, Discard(s, order));
      assert order == [order[0]] + order[1..];
      if order[0] in s.queues {
        assert Shortened(s1.queues[order[0]], Discard(s, order).queues[order[0]]);
      }
    }
  }

  /** After a discard only the running commands remain, in their places, whatever order the queues came in. */
  lemma {:induction false} DiscardKeeps(s: State, order: seq<Key>)
    requires Inv(s)
    ensures var s' := Discard(s, order);
      && Inv(s') && Later(s, s')
      && (forall key :: key in order && key in s.queues ==> |s'.queues[key].frames| <= Kept(s'.queues[key]))
    decreases |order|
  {
    DiscardLater(s, order);
    if order != [] {
      DiscardQueueKeeps(s, order[0]);
      DiscardKeeps(DiscardQueue(s, order[0]), order[1..]);
    }
  }

  /** Once stopped nothing waits behind a running command. */
  ghost predicate Quiet(s: State) {
    s.stopped ==> forall key :: key in s.queues ==> |s.queues[key].frames| <= Kept(s.queues[key])
  }

  ghost predicate Safe(s: State) {
    Inv(s) && Quiet(s)
  }

  lemma CancelKeeps(s: State, key: Key)
    requires Safe(s) && s.stopped && CanEnd(s, key)
    ensures Safe(Cancel(s, key))
  {
    EndKeeps(s, key, false);
    assert |s.queues[key].frames| <= 1;
    hide OneFate, WithinLimits, FatesHonest;
    RemoveKeeps(End(s, key, false), key);
  }

  lemma StoppedKeeps(s: State)
    requires Inv(s)
    ensures Inv(s.(stopped := true))
  {
  }

  /** Every step keeps the invariant. */
  lemma StepKeeps(s: State, a: Action)
    requires Safe(s) && Enabled(s, a)
    ensures Safe(Next(s, a))
  {
    hide OneFate, WithinLimits, FatesHonest;
    match a
    case Submitted(f) =>
      if Refuses(s, f) { RefuseKeeps(s, f); } else { AcceptKeeps(s, f); }
    case Began(key) => BeginKeeps(s, key);
    case Ended(key, returned) => EndKeeps(s, key, returned);
    case Left(key) => RemoveKeeps(s, key);
    case WasCancelled(key) => CancelKeeps(s, key);
    case Discarded(order) => DiscardKeeps(s, order);
    case StopBegan(order) =>
      if !s.stopped {
        StoppedKeeps(s);
        DiscardKeeps(s.(stopped := true), order);
      }
    case StopEnded => EndStopKeeps(s);
  }

  lemma EndStopKeeps(s: State)
    requires Safe(s) && CanEndStop(s)
    ensures Safe(EndStop(s)) && Queued(s.queues) == {}
  {
    forall key | key in s.queues ensures In(s.queues[key]) == {} {
      assert QueueOk(s.submitted, key, s.queues[key]);
      assert s.queues[key].frames == [];
    }
    assert Queued(map[]) == {};
  }

  // ------------------------------------------------------------ over every run

  lemma StartSafe(limits: Limits)
    ensures Safe(Start(limits))
  {
  }

  lemma {:induction false} PathKeeps(worlds: seq<State>, acts: seq<Action>, k: nat)
    requires Path(worlds, acts) && k <= |acts| && Safe(worlds[0])
    ensures Safe(worlds[k])
  {
    hide Safe;
    if k > 0 {
      PathKeeps(worlds, acts, k - 1);
      assert Moves(worlds, acts, k - 1);
      StepKeeps(worlds[k - 1], acts[k - 1]);
    }
  }

  lemma RunKeeps(s: State, acts: seq<Action>, end: State)
    requires Safe(s) && Reaches(s, acts, end)
    ensures Safe(end)
  {
    hide Safe;
    var worlds :| Path(worlds, acts) && worlds[0] == s && worlds[|acts|] == end;
    PathKeeps(worlds, acts, |acts|);
  }

  /** No step changes the limits. */
  lemma LimitsStay(s: State, a: Action)
    requires Enabled(s, a)
    ensures Next(s, a).limits == s.limits
  {
    match a
    case Discarded(order) => DiscardLater(s, order);
    case StopBegan(order) => DiscardLater(s.(stopped := true), order);
    case _ =>
  }

  lemma {:induction false} PathLimits(worlds: seq<State>, acts: seq<Action>, k: nat)
    requires Path(worlds, acts) && k <= |acts|
    ensures worlds[k].limits == worlds[0].limits
  {
    hide Next, Enabled;
    if k > 0 {
      PathLimits(worlds, acts, k - 1);
      assert Moves(worlds, acts, k - 1);
      LimitsStay(worlds[k - 1], acts[k - 1]);
    }
  }

  lemma RunLimits(s: State, acts: seq<Action>, end: State)
    requires Reaches(s, acts, end)
    ensures end.limits == s.limits
  {
    var worlds :| Path(worlds, acts) && worlds[0] == s && worlds[|acts|] == end;
    PathLimits(worlds, acts, |acts|);
  }

  /**
   The pending count is the sum of the queue lengths and the configured limits
   hold, a queue being allowed one frame at least; one command runs per key.
   */
  lemma ConservedWithinLimits(limits: Limits, acts: seq<Action>, end: State)
    requires Reaches(Start(limits), acts, end)
    ensures end.limits == limits
    ensures end.pending == Total(end.queues) && WithinLimits(end)
    ensures forall key :: key in end.queues && end.queues[key].running ==>
      end.queues[key].frames != [] && end.queues[key].frames[0].serial in end.starts
  {
    StartSafe(limits);
    RunKeeps(Start(limits), acts, end);
    RunLimits(Start(limits), acts, end);
    forall key | key in end.queues && end.queues[key].running
      ensures end.queues[key].frames != [] && end.queues[key].frames[0].serial in end.starts
    {
      assert QueueOk(end.submitted, key, end.queues[key]);
      assert HeadStarted(end.submitted, end.starts, key, end.queues[key]);
    }
  }

  /** No queue is longer than the per-device limit. */
  ghost predicate PerDevice(s: State, limits: Limits) {
    forall key :: key in s.queues ==> |s.queues[key].frames| <= limits.maxPerDevice
  }

  lemma {:induction false} PartOfTotal(queues: map<Key, DeviceQueue>, key: Key)
    requires key in queues
    ensures |queues[key].frames| <= Total(queues)
  {
    TotalWithout(queues, key);
  }

  /** The first frame of a new queue is not held against the per-device limit. */
  lemma OneFrameOver(limits: Limits, frame: Frame) returns (end: State)
    requires limits.maxPerDevice == 0 && limits.maxPending > 0 && limits.maxWorkers > 0
    ensures Reaches(Start(limits), [Submitted(frame)], end) && !PerDevice(end, limits)
  {
    var start, acts := Start(limits), [Submitted(frame)];
    end := Next(start, acts[0]);
    assert KeyOf(frame) in end.queues && |end.queues[KeyOf(frame)].frames| == 1;
    assert Moves([start, end], acts, 0);
    assert Path([start, end], acts);
  }

  /**
   Every run keeps every queue within the per-device limit if and only if that
   limit is at least one, or the other limits admit nothing at all.
   */
  lemma PerDeviceIff(limits: Limits)
    ensures (forall acts, end :: Reaches(Start(limits), acts, end) ==> PerDevice(end, limits))
      <==> limits.maxPerDevice >= 1 || limits.maxPending == 0 || limits.maxWorkers == 0
  {
    if limits.maxPerDevice >= 1 || limits.maxPending == 0 || limits.maxWorkers == 0 {
      forall acts, end | Reaches(Start(limits), acts, end) ensures PerDevice(end, limits) {
        ConservedWithinLimits(limits, acts, end);
        hide Reaches, Total;
        forall key | key in end.queues ensures |end.queues[key].frames| <= limits.maxPerDevice {
          PartOfTotal(end.queues, key);
          assert |end.queues| > 0;
        }
      }
    } else {
      var frame := Frame("", Missing, None, "", None, "", "", Malformed, "");
      var end := OneFrameOver(limits, frame);
    }
  }

  /** No submission is ever given two fates, and a fate of "not started" is the truth. */
  lemma ExactlyOneFate(limits: Limits, acts: seq<Action>, end: State)
    requires Reaches(Start(limits), acts, end)
    ensures DistinctFates(end.fates)
    ensures forall n: nat :: n < |end.submitted| ==> (n in Resolved(end.fates) <==> n !in Queued(end.queues))
    ensures forall x :: x in end.fates ==> (x.1 == RejectedUnstarted <==> x.0 !in end.starts)
  {
    StartSafe(limits);
    RunKeeps(Start(limits), acts, end);
  }

  /** When stop has returned every submission has its one fate and nothing is pending. */
  lemma StopResolvesAll(limits: Limits, acts: seq<Action>, end: State)
    requires Reaches(Start(limits), acts, end) && CanEndStop(end)
    ensures var done := EndStop(end);
      && done.pending == 0 && done.queues == map[]
      && DistinctFates(done.fates)
      && forall n: nat :: n < |done.submitted| ==> n in Resolved(done.fates)
  {
    StartSafe(limits);
    RunKeeps(Start(limits), acts, end);
    EndStopKeeps(end);
  }

  /**
   Starts under one key follow submission order, and a command starts only
   once every earlier submission under its key has its fate; so a run_task
   never overtakes an earlier sync_tasks.
   */
  lemma NoOvertaking(limits: Limits, acts: seq<Action>, end: State, key: Key)
    requires Reaches(Start(limits), acts, end) && CanBegin(end, key)
    ensures StartsInOrder(end.submitted, Begin(end, key).starts)
    ensures var head := end.queues[key].frames[0].serial;
      forall n: nat :: n < head && KeyAt(end.submitted, n) == key ==> n in Resolved(end.fates)
  {
    StartSafe(limits);
    RunKeeps(Start(limits), acts, end);
    BeginKeeps(end, key);
    var head := end.queues[key].frames[0];
    assert QueueOk(end.submitted, key, end.queues[key]) && head in end.queues[key].frames;
    hide Conserved, WithinLimits, HeadsStarted, FatesHonest, StartsInOrder, Begin;
    forall n: nat | n < head.serial && KeyAt(end.submitted, n) == key ensures n !in Queued(end.queues) {
      OlderNotQueued(end, key, n);
    }
  }

  /** Nothing older than the head of a queue waits under its key. */
  lemma OlderNotQueued(s: State, key: Key, n: nat)
    requires QueuesOk(s) && key in s.queues && s.queues[key].frames != []
    requires n < s.queues[key].frames[0].serial && KeyAt(s.submitted, n) == key
    ensures n !in Queued(s.queues)
  {
    forall k | k in s.queues ensures n !in In(s.queues[k]) {
      assert QueueOk(s.submitted, k, s.queues[k]);
    }
  }

  /** A manual run starts only once every task configuration submitted before it is resolved. */
  lemma ConfigurationBeforeRun(limits: Limits, acts: seq<Action>, end: State, key: Key, n: nat)
    requires Reaches(Start(limits), acts, end) && CanBegin(end, key)
    requires end.queues[key].frames[0].frame.kind == "run_task"
    requires n < end.queues[key].frames[0].serial && n < |end.submitted| && end.submitted[n].kind == "sync_tasks"
    ensures n in Resolved(end.fates)
  {
    NoOvertaking(limits, acts, end, key);
    StartSafe(limits);
    RunKeeps(Start(limits), acts, end);
    var head := end.queues[key].frames[0];
    assert QueueOk(end.submitted, key, end.queues[key]);
    assert head in end.queues[key].frames;
    assert KeyOf(head.frame) == None == KeyOf(end.submitted[n]);
  }
}
