/**
 * Notification aggregation of the dashboard shell: events reported by the child
 * panels are grouped by their (level, type, target) triple, and the group that
 * received the latest event is moved to the end of the list.
 */
module Notifications {
  import opened Wrappers

  /** The triple a notification is grouped by: severity level, category and target. */
  datatype Key = Key(level: string, kind: string, target: string)

  /** One reported event; `date` is the timestamp the caller supplies. */
  datatype Entry = Entry(date: int, notification: string)

  /** A group: its triple and the events received for it, oldest first. */
  datatype Group = Group(key: Key, notifications: seq<Entry>)

  /** Some group of `gs` has triple `k`. */
  ghost predicate Has(gs: seq<Group>, k: Key) {
    exists g :: g in gs && g.key == k
  }

  /** No two groups share a triple: the invariant the list keeps. */
  ghost predicate Distinct(gs: seq<Group>) {
    forall i, j :: 0 <= i < j < |gs| ==> gs[i].key != gs[j].key
  }

  /** The set of triples that occur in `gs`. */
  ghost function Keys(gs: seq<Group>): set<Key> {
    if gs == [] then {} else {gs[0].key} + Keys(gs[1..])
  }

  /** A triple is among `Keys(gs)` exactly when some group of `gs` has it. */
  lemma {:induction false} KeysHas(gs: seq<Group>, k: Key)
    ensures k in Keys(gs) <==> Has(gs, k)
  {
    if gs != [] {
      KeysHas(gs[1..], k);
      assert forall g :: g in gs <==> g == gs[0] || g in gs[1..];
    }
  }

  /** The groups of `gs` whose triple is not `k`, in their original order. */
  function Others(gs: seq<Group>, k: Key): (r: seq<Group>)
    ensures |r| <= |gs|
    ensures forall g :: g in r <==> g in gs && g.key != k
  {
    if gs == [] then []
    else
      assert forall g :: g in gs <==> g == gs[0] || g in gs[1..];
      (if gs[0].key == k then [] else [gs[0]]) + Others(gs[1..], k)
  }

  /** The index of the first group with triple `k` (`Array.prototype.find` on the triple). */
  function Find(gs: seq<Group>, k: Key): (r: Option<nat>)
    ensures r.None? <==> !Has(gs, k)
    ensures r.Some? ==> r.value < |gs| && gs[r.value].key == k
    ensures r.Some? ==> forall j :: 0 <= j < r.value ==> gs[j].key != k
  {
    if gs == [] then None
    else if gs[0].key == k then Some(0)
    else
      assert forall g :: g in gs <==> g == gs[0] || g in gs[1..];
      match Find(gs[1..], k)
      case None => None
      case Some(i) => Some(i + 1)
  }

  /** The events already recorded for triple `k`: those of the group `find` returns, or none. */
  function History(gs: seq<Group>, k: Key): (h: seq<Entry>)
    ensures !Has(gs, k) ==> h == []
    ensures Distinct(gs) ==> forall i :: 0 <= i < |gs| && gs[i].key == k ==> h == gs[i].notifications
  {
    match Find(gs, k)
    case None => []
    case Some(i) => gs[i].notifications
  }

  /**
   * addNotification's state update: take the group with triple `k` (or a new
   * empty one), append `e` to its events, and rebuild the list as every other
   * group followed by that group.
   */
  function Add(gs: seq<Group>, k: Key, e: Entry): (r: seq<Group>)
    ensures |r| == if Has(gs, k) then |gs| else |gs| + 1
    ensures r[|r| - 1] == Group(k, History(gs, k) + [e])
  {
    match Find(gs, k)
    case None => gs + [Group(k, [e])]
    case Some(i) => gs[..i] + gs[i + 1..] + [Group(k, gs[i].notifications + [e])]
  }

  lemma {:induction false} OthersConcat(a: seq<Group>, b: seq<Group>, k: Key)
    ensures Others(a + b, k) == Others(a, k) + Others(b, k)
  {
    if a == [] {
      assert a + b == b;
    } else {
      assert (a + b)[1..] == a[1..] + b;
      OthersConcat(a[1..], b, k);
    }
  }

  lemma {:induction false} OthersOfFree(s: seq<Group>, k: Key)
    requires forall j :: 0 <= j < |s| ==> s[j].key != k
    ensures Others(s, k) == s
  {
    if s != [] {
      OthersOfFree(s[1..], k);
    }
  }

  lemma OthersOfOne(g: Group, k: Key)
    ensures Others([g], k) == if g.key == k then [] else [g]
  {
    assert [g][1..] == [];
  }

  /** Filtering a list without repeated triples leaves a list without repeated triples. */
  lemma {:induction false} OthersDistinct(gs: seq<Group>, k: Key)
    requires Distinct(gs)
    ensures Distinct(Others(gs, k))
  {
    if gs != [] {
      var rest := Others(gs[1..], k);
      OthersDistinct(gs[1..], k);
      forall g | g in rest ensures g.key != gs[0].key {
        var j :| 0 <= j < |gs[1..]| && gs[1..][j] == g;
        assert gs[j + 1] == g;
      }
    }
  }

  /** Splits a list at a group: the part before it, the group, the part after it. */
  lemma OthersAround(gs: seq<Group>, i: nat, k: Key)
    requires i < |gs| && gs[i].key == k
    ensures Others(gs, k) == Others(gs[..i], k) + Others(gs[i + 1..], k)
  {
    var a, b := gs[..i], gs[i + 1..];
    assert gs == (a + [gs[i]]) + b;
    OthersConcat(a + [gs[i]], b, k);
    OthersConcat(a, [gs[i]], k);
    OthersOfOne(gs[i], k);
  }

  /** Groups whose triple differs from `k` keep their contents and their relative order. */
  lemma AddKeepsOthers(gs: seq<Group>, k: Key, e: Entry)
    ensures Others(Add(gs, k, e), k) == Others(gs, k)
  {
    var r := Add(gs, k, e);
    match Find(gs, k)
    case None =>
      var g := Group(k, [e]);
      assert r == gs + [g];
      OthersConcat(gs, [g], k);
      OthersOfOne(g, k);
    case Some(i) =>
      var a, b := gs[..i], gs[i + 1..];
      var g := Group(k, gs[i].notifications + [e]);
      assert r == (a + b) + [g];
      OthersConcat(a + b, [g], k);
      OthersOfOne(g, k);
      OthersConcat(a, b, k);
      OthersAround(gs, i, k);
  }

  /**
   * On a list without repeated triples, adding is exactly "every other group in
   * order, then the target group with the new event appended".
   */
  lemma AddIsFilterThenAppend(gs: seq<Group>, k: Key, e: Entry)
    requires Distinct(gs)
    ensures Add(gs, k, e) == Others(gs, k) + [Group(k, History(gs, k) + [e])]
  {
    match Find(gs, k)
    case None =>
      OthersOfFree(gs, k);
    case Some(i) =>
      var a, b := gs[..i], gs[i + 1..];
      assert Add(gs, k, e) == a + b + [Group(k, History(gs, k) + [e])];
      OthersAround(gs, i, k);
      OthersOfFree(a, k);
      forall j | 0 <= j < |b| ensures b[j].key != k {
        assert b[j] == gs[i + 1 + j];
      }
      OthersOfFree(b, k);
  }

  /** The uniqueness invariant survives every call. */
  lemma AddPreservesDistinct(gs: seq<Group>, k: Key, e: Entry)
    requires Distinct(gs)
    ensures Distinct(Add(gs, k, e))
  {
    AddIsFilterThenAppend(gs, k, e);
    OthersDistinct(gs, k);
    var rest := Others(gs, k);
    assert forall i :: 0 <= i < |rest| ==> rest[i] in rest;
  }

  /** Adding introduces the triple `k` and no other. */
  lemma AddKeys(gs: seq<Group>, k: Key, e: Entry)
    ensures Keys(Add(gs, k, e)) == Keys(gs) + {k}
  {
    var r := Add(gs, k, e);
    AddKeepsOthers(gs, k, e);
    forall k' ensures k' in Keys(r) <==> k' in Keys(gs) + {k} {
      KeysHas(r, k');
      KeysHas(gs, k');
      if k' != k {
        if Has(r, k') {
          var g :| g in r && g.key == k';
          assert g in Others(r, k);
        }
        if Has(gs, k') {
          var g :| g in gs && g.key == k';
          assert g in Others(gs, k);
        }
      } else {
        assert r[|r| - 1] in r;
      }
    }
  }

  /** In a list without repeated triples there are as many triples as groups. */
  lemma {:induction false} DistinctCount(gs: seq<Group>)
    requires Distinct(gs)
    ensures |Keys(gs)| == |gs|
  {
    if gs != [] {
      var head, tail := gs[0], gs[1..];
      assert Distinct(tail) by {
        forall i, j | 0 <= i < j < |tail| ensures tail[i].key != tail[j].key {
          assert tail[i] == gs[i + 1] && tail[j] == gs[j + 1];
        }
      }
      DistinctCount(tail);
      KeysHas(tail, head.key);
      assert !Has(tail, head.key) by {
        forall g | g in tail ensures g.key != head.key {
          var j :| 0 <= j < |tail| && tail[j] == g;
          assert gs[j + 1] == g;
        }
      }
    }
  }

  /** One call of addNotification, as a value. */
  datatype Event = Event(key: Key, entry: Entry)

  /** The list after the calls `events`, oldest first, starting from the empty list. */
  function Replay(events: seq<Event>): seq<Group> {
    if events == [] then []
    else
      var last := events[|events| - 1];
      Add(Replay(events[..|events| - 1]), last.key, last.entry)
  }

  /** The triples named by `events`. */
  ghost function EventKeys(events: seq<Event>): set<Key> {
    if events == [] then {} else EventKeys(events[..|events| - 1]) + {events[|events| - 1].key}
  }

  /**
   * For every sequence of calls from the empty list, the groups have pairwise
   * distinct triples, they are exactly the triples the calls named, and their
   * number equals the number of groups.
   */
  lemma {:induction false} ReplayDistinct(events: seq<Event>)
    ensures Distinct(Replay(events))
    ensures Keys(Replay(events)) == EventKeys(events)
    ensures |EventKeys(events)| == |Replay(events)|
  {
    if events != [] {
      var init := events[..|events| - 1];
      var last := events[|events| - 1];
      ReplayDistinct(init);
      AddPreservesDistinct(Replay(init), last.key, last.entry);
      AddKeys(Replay(init), last.key, last.entry);
    }
    DistinctCount(Replay(events));
  }

  /**
   * Two "error" events and one "info" event for the same sensor and strip: two
   * groups, the "error" group last, holding its two events in call order.
   */
  lemma ErrorInfoErrorExample()
    ensures var error, info := Key("error", "sensor", "strip1"), Key("info", "sensor", "strip1");
      Replay([Event(error, Entry(1, "disconnected")),
              Event(info, Entry(2, "reconnected")),
              Event(error, Entry(3, "disconnected again"))])
      == [Group(info, [Entry(2, "reconnected")]),
          Group(error, [Entry(1, "disconnected"), Entry(3, "disconnected again")])]
  {
    var error, info := Key("error", "sensor", "strip1"), Key("info", "sensor", "strip1");
    var e1, e2, e3 := Event(error, Entry(1, "disconnected")), Event(info, Entry(2, "reconnected")),
                      Event(error, Entry(3, "disconnected again"));
    var events := [e1, e2, e3];
    assert error != info by { assert |error.level| != |info.level|; }
    var g1 := [Group(error, [e1.entry])];
    assert Replay([e1]) == g1 by {
      assert [e1][..0] == [];
      assert Add([], error, e1.entry) == g1;
    }
    var g2 := g1 + [Group(info, [e2.entry])];
    assert Replay([e1, e2]) == g2 by {
      assert [e1, e2][..1] == [e1];
      assert Find(g1, info) == None;
    }
    assert Replay(events) == Add(g2, error, e3.entry) by {
      assert events[..2] == [e1, e2];
    }
    assert Find(g2, error) == Some(0);
    assert g2[..0] + g2[1..] == [Group(info, [e2.entry])];
    assert [e1.entry] + [e3.entry] == [Entry(1, "disconnected"), Entry(3, "disconnected again")];
  }
}
