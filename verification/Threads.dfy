/** Merging overlapping pages of one conversation (messages.ts). */
module Threads {
  import opened Basics

  /** time is the parsed timestamp; content is everything a later copy may differ in. */
  datatype Message = Message(id: int, time: Option<int>, content: string)

  // ------------------------------------------------------------ what is collected

  function Flatten(pages: seq<seq<Message>>): seq<Message> {
    if pages == [] then [] else Flatten(pages[..|pages| - 1]) + pages[|pages| - 1]
  }

  /** The Map by id: the first copy wins. */
  function FirstCopies(messages: seq<Message>): (m: map<int, Message>)
    ensures forall id :: id in m ==> m[id].id == id && m[id] in messages
  {
    if messages == [] then map[]
    else
      var before, last := FirstCopies(messages[..|messages| - 1]), messages[|messages| - 1];
      if last.id in before then before else before[last.id := last]
  }

  /** An id is collected when some message carries it, and the copy is the earliest one. */
  lemma {:induction false} FirstCopyIsFirst(messages: seq<Message>, i: nat)
    requires i < |messages|
    ensures messages[i].id in FirstCopies(messages)
    ensures (forall j :: 0 <= j < i ==> messages[j].id != messages[i].id) ==>
      FirstCopies(messages)[messages[i].id] == messages[i]
  {
    var last := |messages| - 1;
    if i < last {
      FirstCopyIsFirst(messages[..last], i);
    } else if messages[last].id in FirstCopies(messages[..last]) {
      var copy := FirstCopies(messages[..last])[messages[last].id];
      var j :| 0 <= j < last && messages[..last][j] == copy;
      assert messages[j].id == messages[i].id;
    }
  }

  /** The comparator: time, then id. */
  predicate Precedes(a: Message, b: Message) {
    if a.time.None? || b.time.None? || a.time == b.time then a.id < b.id else a.time.value < b.time.value
  }

  ghost predicate Ordered(s: seq<Message>) {
    forall i, j :: 0 <= i < j < |s| ==> Precedes(s[i], s[j])
  }

  /** Every copy once, in whatever order. */
  ghost predicate Collects(copies: map<int, Message>, s: seq<Message>) {
    && (forall i :: 0 <= i < |s| ==> s[i].id in copies && copies[s[i].id] == s[i])
    && (forall i, j :: 0 <= i < j < |s| ==> s[i].id != s[j].id)
    && (forall id :: id in copies ==> exists i :: 0 <= i < |s| && s[i].id == id)
  }

  /** Every copy once, in order. */
  ghost predicate Lists(copies: map<int, Message>, s: seq<Message>) {
    Collects(copies, s) && Ordered(s)
  }

  /** merged is the pages' union: every id once, in the first copy. */
  ghost predicate UnionOf(messages: seq<Message>, merged: seq<Message>) {
    Collects(FirstCopies(messages), merged)
  }

  // ------------------------------------------------------------ when the comparator is an order

  ghost predicate Keyed(copies: map<int, Message>) {
    forall id :: id in copies ==> copies[id].id == id
  }

  /**
   a, x and b go round in a circle: x does not parse and its id
   lies between two whose times run against their ids.
   */
  predicate Circle(a: Message, x: Message, b: Message) {
    && a.time.Some? && x.time.None? && b.time.Some?
    && a.id < x.id < b.id && b.time.value < a.time.value
  }

  predicate Sortable(copies: map<int, Message>) {
    forall i, j, k :: i in copies && j in copies && k in copies ==> !Circle(copies[i], copies[j], copies[k])
  }

  ghost predicate Transitive(copies: map<int, Message>) {
    forall i, j, k :: i in copies && j in copies && k in copies && Precedes(copies[i], copies[j]) &&
      Precedes(copies[j], copies[k])
      ==> Precedes(copies[i], copies[k])
  }

  /** A broken chain of the comparator is a circle, and a circle breaks the chain. */
  lemma ChainBreaksIff(a: Message, b: Message, c: Message)
    requires a.id != c.id && Precedes(a, b) && Precedes(b, c)
    ensures !Precedes(a, c) <==> Circle(a, b, c) || Circle(b, c, a) || Circle(c, a, b)
  {
  }

  /** The comparator is transitive on messages with distinct ids if and only if no three of them form a circle. */
  lemma TransitiveIff(copies: map<int, Message>)
    requires Keyed(copies)
    ensures Transitive(copies) <==> Sortable(copies)
  {
    hide Precedes, Circle;
    if Sortable(copies) {
      forall i, j, k | i in copies && j in copies && k in copies
          && Precedes(copies[i], copies[j]) && Precedes(copies[j], copies[k])
        ensures Precedes(copies[i], copies[k])
      {
        NotBoth(copies[i], copies[j]);
        ChainBreaksIff(copies[i], copies[j], copies[k]);
      }
    }
    if i, j, k :| i in copies && j in copies && k in copies && Circle(copies[i], copies[j], copies[k]) {
      CircleBreaks(copies[i], copies[j], copies[k]);
    }
  }

  lemma CircleBreaks(a: Message, x: Message, b: Message)
    requires Circle(a, x, b)
    ensures Precedes(a, x) && Precedes(x, b) && !Precedes(a, b)
  {
  }

  lemma NotBoth(a: Message, b: Message)
    ensures !(Precedes(a, b) && Precedes(b, a))
  {
  }

  // ------------------------------------------------------------ the merge

  lemma {:induction false} Earliest(copies: map<int, Message>, ids: set<int>) returns (first: int)
    requires ids != {} && ids <= copies.Keys && Keyed(copies) && Sortable(copies)
    ensures first in ids && forall id :: id in ids && id != first ==> Precedes(copies[first], copies[id])
    decreases |ids|
  {
    hide Sortable, Transitive, Precedes;
    var some := AnyOf(ids);
    var rest := ids - {some};
    if rest == {} {
      assert ids == {some};
      first := some;
    } else {
      var least := Earliest(copies, rest);
      TransitiveIff(copies);
      first := if Precedes(copies[least], copies[some]) then least else some;
      EarlierOfTwo(copies, rest, some, least);
    }
  }

  /** Of the least of a set and one more, the earlier is the least of all. */
  lemma EarlierOfTwo(copies: map<int, Message>, rest: set<int>, some: int, least: int)
    requires rest + {some} <= copies.Keys && Keyed(copies) && Transitive(copies) && least in rest && some !in rest
    requires forall id :: id in rest && id != least ==> Precedes(copies[least], copies[id])
    ensures var first := if Precedes(copies[least], copies[some]) then least else some;
      forall id :: id in rest + {some} && id != first ==> Precedes(copies[first], copies[id])
  {
    OneOf(copies[least], copies[some]);
    hide Precedes;
  }

  lemma OneOf(a: Message, b: Message)
    requires a.id != b.id
    ensures Precedes(a, b) || Precedes(b, a)
  {
  }

  /** s lists the copies outside left once. */
  ghost predicate Picked(copies: map<int, Message>, left: set<int>, s: seq<Message>) {
    && left <= copies.Keys
    && (forall i :: 0 <= i < |s| ==> s[i].id in copies && s[i].id !in left && copies[s[i].id] == s[i])
    && (forall i, j :: 0 <= i < j < |s| ==> s[i].id != s[j].id)
    && (forall id :: id in copies && id !in left ==> exists i :: 0 <= i < |s| && s[i].id == id)
  }

  /** s is in order and all of left comes later. */
  ghost predicate InOrderSoFar(copies: map<int, Message>, left: set<int>, s: seq<Message>)
    requires left <= copies.Keys
  {
    Ordered(s) && forall i, id :: 0 <= i < |s| && id in left ==> Precedes(s[i], copies[id])
  }

  lemma PickNext(copies: map<int, Message>, left: set<int>, s: seq<Message>, id: int)
    requires Picked(copies, left, s) && id in left && copies[id].id == id
    ensures Picked(copies, left - {id}, s + [copies[id]])
    ensures InOrderSoFar(copies, left, s) &&
      (forall other :: other in left && other != id ==> Precedes(copies[id], copies[other]))
      ==> InOrderSoFar(copies, left - {id}, s + [copies[id]])
  {
    hide Precedes;
    var after := s + [copies[id]];
    assert after[|s|].id == id;
    forall key | key in copies && key !in left - {id} ensures exists i :: 0 <= i < |after| && after[i].id == key {
      if key != id {
        var i :| 0 <= i < |s| && s[i].id == key;
        assert after[i].id == key;
      }
    }
  }

  /**
   [...values].sort(comparator): some arrangement of the values, the one in
   order when there is one. Otherwise the arrangement is the engine's own.
   */
  method SortMessages(copies: map<int, Message>) returns (s: seq<Message>)
    requires Keyed(copies)
    ensures Collects(copies, s) && (Ordered(s) <==> Sortable(copies))
  {
    assert Picked(copies, copies.Keys, []) && InOrderSoFar(copies, copies.Keys, []);
    hide Precedes, Sortable, Picked, InOrderSoFar;
    s := [];
    var left := copies.Keys;
    while left != {}
      invariant left <= copies.Keys && Picked(copies, left, s) && (Sortable(copies) ==> InOrderSoFar(copies, left, s))
      decreases |left|
    {
      ghost var any := AnyOf(left);
      if Sortable(copies) {
        any := Earliest(copies, left);
      }
      var id :| id in left
        && (Sortable(copies) ==> forall other :: other in left && other != id ==> Precedes(copies[id], copies[other]));
      PickNext(copies, left, s, id);
      s := s + [copies[id]];
      left := left - {id};
    }
    AllPicked(copies, s);
    if Ordered(s) {
      OrderedMeansSortable(copies, s);
    }
  }

  lemma AllPicked(copies: map<int, Message>, s: seq<Message>)
    requires Picked(copies, {}, s)
    ensures Collects(copies, s) && (InOrderSoFar(copies, {}, s) ==> Ordered(s))
  {
  }

  /** An arrangement in order rules circles out. */
  lemma OrderedMeansSortable(copies: map<int, Message>, s: seq<Message>)
    requires Lists(copies, s)
    ensures Sortable(copies)
  {
    forall i, j, k | i in copies && j in copies && k in copies ensures !Circle(copies[i], copies[j], copies[k]) {
      var a :| 0 <= a < |s| && s[a].id == i;
      var b :| 0 <= b < |s| && s[b].id == j;
      var c :| 0 <= c < |s| && s[c].id == k;
      assert copies[i] == s[a] && copies[j] == s[b] && copies[k] == s[c];
      assert a < b ==> Precedes(s[a], s[b]);
      assert b < c ==> Precedes(s[b], s[c]);
      assert a < c ==> Precedes(s[a], s[c]);
      assert c < a ==> Precedes(s[c], s[a]);
    }
  }

  lemma OneMoreCopy(messages: seq<Message>, m: Message)
    ensures var before := FirstCopies(messages);
      FirstCopies(messages + [m]) == if m.id in before then before else before[m.id := m]
  {
    assert (messages + [m])[..|messages|] == messages;
  }

  /** The inner loop: one page into the map. */
  method AddPage(byId: map<int, Message>, page: seq<Message>, ghost before: seq<Message>)
      returns (after: map<int, Message>)
    requires byId == FirstCopies(before)
    ensures after == FirstCopies(before + page)
  {
    hide FirstCopies;
    after := byId;
    assert before + page[..0] == before;
    for k := 0 to |page|
      invariant after == FirstCopies(before + page[..k])
    {
      assert before + page[..k + 1] == (before + page[..k]) + [page[k]];
      OneMoreCopy(before + page[..k], page[k]);
      if page[k].id !in after {
        after := after[page[k].id := page[k]];
      }
    }
    assert page[..|page|] == page;
  }

  /** mergeThreadPages: every id once, in its first copy, and in order exactly when the comparator allows one. */
  method MergeThreadPages(pages: Option<seq<seq<Message>>>) returns (merged: seq<Message>)
    ensures var messages := if pages.Some? then Flatten(pages.value) else [];
      UnionOf(messages, merged) && (Ordered(merged) <==> Sortable(FirstCopies(messages)))
  {
    var all := if pages.Some? then pages.value else [];
    var byId: map<int, Message> := map[];
    for p := 0 to |all|
      invariant byId == FirstCopies(Flatten(all[..p]))
    {
      assert all[..p + 1][..p] == all[..p];
      byId := AddPage(byId, all[p], Flatten(all[..p]));
    }
    assert all[..|all|] == all;
    merged := SortMessages(byId);
  }

  // ------------------------------------------------------------ what it means

  /** The ids of a merge are the ids of the pages. */
  lemma UnionOfIds(messages: seq<Message>, merged: seq<Message>, id: int)
    requires UnionOf(messages, merged)
    ensures (exists i :: 0 <= i < |merged| && merged[i].id == id) <==>
      (exists j :: 0 <= j < |messages| && messages[j].id == id)
  {
    if j :| 0 <= j < |messages| && messages[j].id == id {
      FirstCopyIsFirst(messages, j);
    }
    if i :| 0 <= i < |merged| && merged[i].id == id {
      var copy := FirstCopies(messages)[id];
      var j :| 0 <= j < |messages| && messages[j] == copy;
      assert messages[j].id == id;
    }
  }

  function Ids(s: seq<Message>): seq<int> {
    seq(|s|, i requires 0 <= i < |s| => s[i].id)
  }

  /** The copies in two merges have the same ids and the same times. */
  ghost predicate SameRows(a: map<int, Message>, b: map<int, Message>) {
    a.Keys == b.Keys && forall id :: id in a ==> a[id].time == b[id].time
  }

  lemma FrontLists(copies: map<int, Message>, s: seq<Message>)
    requires Lists(copies, s) && s != []
    ensures Lists(copies - {s[|s| - 1].id}, s[..|s| - 1])
  {
    var last := |s| - 1;
    hide Precedes;
    forall id | id in copies - {s[last].id} ensures exists i :: 0 <= i < |s[..last]| && s[..last][i].id == id {
      var i :| 0 <= i < |s| && s[i].id == id;
      assert s[..last][i].id == id;
    }
  }

  lemma LastsAgree(a: map<int, Message>, b: map<int, Message>, s: seq<Message>, t: seq<Message>)
    requires SameRows(a, b) && Lists(a, s) && Lists(b, t) && s != [] && t != []
    ensures s[|s| - 1].id == t[|t| - 1].id
  {
    var i, j := |s| - 1, |t| - 1;
    assert s[i].id in b && t[j].id in a;
    var k :| 0 <= k < |t| && t[k].id == s[i].id;
    var l :| 0 <= l < |s| && s[l].id == t[j].id;
    assert s[i].time == t[k].time && s[l].time == t[j].time;
    if k < j && l < i {
      assert Precedes(t[k], t[j]) && Precedes(s[l], s[i]);
      hide Ordered, Collects;
      Asymmetric(t[k], t[j], s[l], s[i]);
    }
  }

  /** Only ids and times matter to the comparator, and it never holds both ways. */
  lemma Asymmetric(a: Message, b: Message, b': Message, a': Message)
    requires Precedes(a, b) && a'.id == a.id && a'.time == a.time && b'.id == b.id && b'.time == b.time
    ensures !Precedes(b', a')
  {
  }

  lemma {:induction false} OneOrder(a: map<int, Message>, b: map<int, Message>, s: seq<Message>, t: seq<Message>)
    requires SameRows(a, b) && Lists(a, s) && Lists(b, t)
    ensures Ids(s) == Ids(t)
    decreases |s|
  {
    if s == [] {
      assert forall id :: id !in a;
      assert forall id :: id !in b;
      assert t == [];
    } else {
      assert s[0].id in b;
      assert t != [];
      var i, j := |s| - 1, |t| - 1;
      assert s[i].id in b && t[j].id in a;
      LastsAgree(a, b, s, t);
      hide Precedes, Ordered;
      FrontLists(a, s);
      FrontLists(b, t);
      OneOrder(a - {s[i].id}, b - {t[j].id}, s[..i], t[..j]);
      assert Ids(s) == Ids(s[..i]) + [s[i].id] && Ids(t) == Ids(t[..j]) + [t[j].id];
    }
  }

  /**
   The order does not depend on the pages: any two merges over the same ids
   at the same times list them alike, wherever the boundaries fell and
   whatever overlapped.
   */
  lemma BoundariesDoNotMatter(a: seq<Message>, b: seq<Message>, merged: seq<Message>, other: seq<Message>)
    requires UnionOf(a, merged) && UnionOf(b, other) && SameRows(FirstCopies(a), FirstCopies(b))
    requires Ordered(merged) && Ordered(other)
    ensures Ids(merged) == Ids(other)
  {
    OneOrder(FirstCopies(a), FirstCopies(b), merged, other);
  }

  /** One timestamp that does not parse is enough: then no arrangement is in order, whatever the engine does. */
  lemma ComparatorCircle() returns (messages: seq<Message>)
    ensures !Sortable(FirstCopies(messages)) && |messages| == 3
    ensures forall merged :: UnionOf(messages, merged) ==> !Ordered(merged)
  {
    var a, b, c := Message(1, Some(2), ""), Message(2, None, ""), Message(3, Some(1), "");
    messages := [a, b, c];
    var copies := FirstCopies(messages);
    FirstCopyIsFirst(messages, 0);
    FirstCopyIsFirst(messages, 1);
    FirstCopyIsFirst(messages, 2);
    assert Circle(copies[1], copies[2], copies[3]);
    forall merged | UnionOf(messages, merged) ensures !Ordered(merged) {
      if Ordered(merged) {
        OrderedMeansSortable(copies, merged);
        assert false;
      }
    }
  }
}
