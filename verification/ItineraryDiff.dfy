/** The itinerary diff of `run_regeneration_qa.py`: what a regenerated plan adds, removes, moves and reorders. */
module ItineraryDiff {
  import opened Wrappers

  type Id = string

  /** The ids of each day of a plan: a dictionary, which keeps the order its days were entered in. */
  datatype Plan = Plan(order: seq<int>, ids: map<int, seq<Id>>) {
    ghost predicate WellFormed() {
      && Distinct(order)
      && (forall d :: d in order <==> d in ids)
    }

    /** No id is listed twice, on one day or on two. */
    ghost predicate UniqueIds() {
      && (forall d | d in ids :: Distinct(ids[d]))
      && (forall d, e | d in ids && e in ids && d != e :: forall i | i in ids[d] :: i !in ids[e])
    }

    /** The day of each id, a later day replacing an earlier one. */
    function Where(): map<Id, int> {
      DayOfIds(order, ids)
    }

    function Size(): nat {
      Listed(order, ids)
    }
  }

  /** What is listed on day `d`: nothing if there is no such day. */
  function On(ids: map<int, seq<Id>>, d: int): seq<Id> {
    if d in ids then ids[d] else []
  }

  function DayOfIds(order: seq<int>, ids: map<int, seq<Id>>): map<Id, int> {
    if order == [] then map[]
    else
      var last := order[|order| - 1];
      DayOfIds(order[..|order| - 1], ids) + (map i | i in On(ids, last) :: last)
  }

  function Listed(order: seq<int>, ids: map<int, seq<Id>>): nat {
    if order == [] then 0
    else Listed(order[..|order| - 1], ids) + |On(ids, order[|order| - 1])|
  }

  /** The reported diff; its lists are sorted and free of repeats, so they are sets here. */
  datatype Diff = Diff(added: set<Id>, removed: set<Id>, moved: set<Id>, reordered: set<int>, changed: set<int>)

  function Between(before: Plan, after: Plan): Diff
    requires before.WellFormed() && after.WellFormed()
  {
    var b, a := before.Where(), after.Where();
    Diff(
      a.Keys - b.Keys,
      b.Keys - a.Keys,
      set i | i in a.Keys * b.Keys && a[i] != b[i],
      set d | d in before.ids.Keys * after.ids.Keys &&
              before.ids[d] != after.ids[d] && multiset(before.ids[d]) == multiset(after.ids[d]),
      set d | d in before.ids.Keys + after.ids.Keys && !SameOn(before, after, d))
  }

  predicate SameOn(before: Plan, after: Plan, d: int) {
    (d in before.ids <==> d in after.ids) && (d in before.ids ==> before.ids[d] == after.ids[d])
  }

  // -- where an id is ----------------------------------------------------------------------------------------------

  /** Every placed id is listed on its day, and every listed id is placed. */
  ghost predicate PlacedRight(order: seq<int>, ids: map<int, seq<Id>>, w: map<Id, int>) {
    && (forall i | i in w :: w[i] in order && i in On(ids, w[i]))
    && (forall d, i | d in order && i in On(ids, d) :: i in w)
  }

  lemma {:induction false} IdsArePlaced(order: seq<int>, ids: map<int, seq<Id>>)
    ensures PlacedRight(order, ids, DayOfIds(order, ids))
  {
    if order != [] {
      var n := |order| - 1;
      IdsArePlaced(order[..n], ids);
      assert forall d :: d in order <==> d in order[..n] || d == order[n] by {
        assert order == order[..n] + [order[n]];
      }
    }
  }

  /** An id listed on several days is placed on the last of them. */
  lemma {:induction false} LastDayWins(order: seq<int>, ids: map<int, seq<Id>>, k: nat, i: Id)
    requires k < |order| && i in On(ids, order[k])
    requires forall m | k < m < |order| :: i !in On(ids, order[m])
    ensures i in DayOfIds(order, ids) && DayOfIds(order, ids)[i] == order[k]
  {
    var n := |order| - 1;
    if k < n {
      assert i !in On(ids, order[n]);
      forall m | k < m < n ensures i !in On(ids, order[..n][m]) {
        assert i !in On(ids, order[m]);
      }
      LastDayWins(order[..n], ids, k, i);
    }
  }

  lemma PlacedOnItsDay(p: Plan)
    requires p.WellFormed()
    ensures forall i | i in p.Where() :: p.Where()[i] in p.ids && i in p.ids[p.Where()[i]]
    ensures forall d, i | d in p.ids && i in p.ids[d] :: i in p.Where()
    ensures p.UniqueIds() ==> forall d, i | d in p.ids && i in p.ids[d] :: p.Where()[i] == d
  {
    IdsArePlaced(p.order, p.ids);
    forall d, i | d in p.ids && i in p.ids[d] ensures i in p.Where() {
      assert i in On(p.ids, d);
    }
  }

  // -- counting ----------------------------------------------------------------------------------------------------

  function Elements(s: seq<Id>): set<Id> {
    set x | x in s
  }

  lemma {:induction false} DistinctByCount(s: seq<Id>)
    ensures |Elements(s)| <= |s|
    ensures |Elements(s)| == |s| <==> Distinct(s)
  {
    if s != [] {
      var n := |s| - 1;
      var init, last := s[..n], s[n];
      DistinctByCount(init);
      assert Elements(s) == Elements(init) + {last};
      if last in init {
        var k :| 0 <= k < n && init[k] == last;
        assert s[k] == s[n] && Elements(s) == Elements(init);
      } else {
        assert Distinct(s) <==> Distinct(init) by {
          assert forall i | 0 <= i < n :: s[i] == init[i] && init[i] in init;
        }
      }
    }
  }

  lemma UnionCount(a: set<Id>, b: set<Id>)
    ensures |a + b| <= |a| + |b|
    ensures |a + b| == |a| + |b| <==> a !! b
    ensures |a| + |b - a| == |b| + |a - b|
  {
    assert |a + b| + |a * b| == |a| + |b|;
    assert a * b == b * a;
    if a !! b {
      assert a * b == {};
    } else {
      var x :| x in a && x in b;
      assert x in a * b;
    }
  }

  ghost predicate UniqueOn(order: seq<int>, ids: map<int, seq<Id>>) {
    && (forall j | 0 <= j < |order| :: Distinct(On(ids, order[j])))
    && (forall j, k | 0 <= j < k < |order| :: Elements(On(ids, order[j])) !! Elements(On(ids, order[k])))
  }

  /** The placed ids are exactly the listed ones. */
  lemma PlacedIsListed(order: seq<int>, ids: map<int, seq<Id>>, today: set<Id>)
    ensures DayOfIds(order, ids).Keys !! today <==>
              forall j | 0 <= j < |order| :: Elements(On(ids, order[j])) !! today
  {
    IdsArePlaced(order, ids);
    var w := DayOfIds(order, ids);
    if forall j | 0 <= j < |order| :: Elements(On(ids, order[j])) !! today {
      forall i | i in w.Keys ensures i !in today {
        var j :| 0 <= j < |order| && order[j] == w[i];
        assert i in Elements(On(ids, order[j]));
      }
    } else {
      var j :| 0 <= j < |order| && !(Elements(On(ids, order[j])) !! today);
      var i :| i in Elements(On(ids, order[j])) && i in today;
      assert i in On(ids, order[j]) && i in w.Keys;
    }
  }

  lemma UniqueOnStep(order: seq<int>, ids: map<int, seq<Id>>)
    requires order != []
    ensures var n := |order| - 1;
            UniqueOn(order, ids) <==>
              && UniqueOn(order[..n], ids)
              && Distinct(On(ids, order[n]))
              && DayOfIds(order[..n], ids).Keys !! Elements(On(ids, order[n]))
  {
    var n := |order| - 1;
    PlacedIsListed(order[..n], ids, Elements(On(ids, order[n])));
    assert forall j | 0 <= j < n :: order[j] == order[..n][j];
  }

  lemma PlacedGrow(order: seq<int>, ids: map<int, seq<Id>>)
    requires order != []
    ensures DayOfIds(order, ids).Keys ==
              DayOfIds(order[..|order| - 1], ids).Keys + Elements(On(ids, order[|order| - 1]))
  {
  }

  lemma {:induction false} UniqueByCount(order: seq<int>, ids: map<int, seq<Id>>)
    ensures |DayOfIds(order, ids).Keys| <= Listed(order, ids)
    ensures |DayOfIds(order, ids).Keys| == Listed(order, ids) <==> UniqueOn(order, ids)
  {
    if order != [] {
      var n := |order| - 1;
      UniqueByCount(order[..n], ids);
      DistinctByCount(On(ids, order[n]));
      UniqueOnStep(order, ids);
      PlacedGrow(order, ids);
      UnionCount(DayOfIds(order[..n], ids).Keys, Elements(On(ids, order[n])));
    }
  }

  lemma ListedTwice(p: Plan, d: int, e: int, i: Id)
    requires p.WellFormed() && UniqueOn(p.order, p.ids)
    requires d in p.ids && e in p.ids && d != e && i in p.ids[d]
    ensures i !in p.ids[e]
  {
    assert d in p.order && e in p.order;
    var j :| 0 <= j < |p.order| && p.order[j] == d;
    var k :| 0 <= k < |p.order| && p.order[k] == e;
    assert Elements(On(p.ids, p.order[j])) !! Elements(On(p.ids, p.order[k]));
    assert i in Elements(On(p.ids, d));
  }

  lemma UniqueEitherWay(p: Plan)
    requires p.WellFormed()
    ensures UniqueOn(p.order, p.ids) <==> p.UniqueIds()
  {
    if UniqueOn(p.order, p.ids) {
      forall d | d in p.ids ensures Distinct(p.ids[d]) {
        assert d in p.order;
      }
      forall d, e, i | d in p.ids && e in p.ids && d != e && i in p.ids[d] ensures i !in p.ids[e] {
        ListedTwice(p, d, e, i);
      }
    }
  }

  /** A plan lists as many entries as it has ids exactly when no id is listed twice. */
  lemma UniqueExactly(p: Plan)
    requires p.WellFormed()
    ensures |p.Where().Keys| <= p.Size()
    ensures |p.Where().Keys| == p.Size() <==> p.UniqueIds()
  {
    UniqueByCount(p.order, p.ids);
    UniqueEitherWay(p);
  }

  /** Nothing is lost: the entries after are those before, plus the added, less the removed. */
  lemma EntriesAreConserved(before: Plan, after: Plan)
    requires before.WellFormed() && after.WellFormed() && before.UniqueIds() && after.UniqueIds()
    ensures var diff := Between(before, after);
            after.Size() == before.Size() + |diff.added| - |diff.removed|
  {
    UniqueExactly(before);
    UniqueExactly(after);
    UnionCount(before.Where().Keys, after.Where().Keys);
  }

  // -- the algebra of the diff -------------------------------------------------------------------------------------

  /** Undoing a change adds what it removed, removes what it added, and touches the same days. */
  lemma Undone(before: Plan, after: Plan)
    requires before.WellFormed() && after.WellFormed()
    ensures var diff := Between(before, after);
            Between(after, before) == diff.(added := diff.removed, removed := diff.added)
  {
    var diff, back := Between(before, after), Between(after, before);
    assert diff.moved == back.moved && diff.reordered == back.reordered;
    assert forall d :: SameOn(before, after, d) == SameOn(after, before, d);
    assert diff.changed == back.changed;
  }

  lemma SameListsSamePlaces(p: Plan, q: Plan)
    requires p.WellFormed() && q.WellFormed() && p.ids == q.ids && q.UniqueIds()
    ensures forall i | i in p.Where() :: i in q.Where() && q.Where()[i] == p.Where()[i]
  {
    PlacedOnItsDay(p);
    PlacedOnItsDay(q);
    forall i | i in p.Where() ensures i in q.Where() && q.Where()[i] == p.Where()[i] {
      var d := p.Where()[i];
      assert d in q.ids && i in q.ids[d];
    }
  }

  /** An empty diff means the same plan, and the changed days alone decide it. */
  lemma NoChangeExactly(before: Plan, after: Plan)
    requires before.WellFormed() && after.WellFormed()
    ensures var diff := Between(before, after);
            && (diff.changed == {} <==> before.ids == after.ids)
            && (before.UniqueIds() && diff.changed == {} ==> diff == Diff({}, {}, {}, {}, {}))
  {
    var diff := Between(before, after);
    if diff.changed == {} {
      forall d ensures (d in before.ids <==> d in after.ids) && (d in before.ids ==> before.ids[d] == after.ids[d]) {
        assert SameOn(before, after, d) by {
          assert d !in diff.changed;
        }
      }
      assert before.ids == after.ids;
      if before.UniqueIds() {
        assert after.UniqueIds();
        SameListsSamePlaces(before, after);
        SameListsSamePlaces(after, before);
      }
    }
  }

  /** What a changed day has to show for it. */
  ghost predicate Accounted(before: Plan, after: Plan, d: int)
    requires before.WellFormed() && after.WellFormed()
  {
    var diff := Between(before, after);
    || (d in before.ids && exists i | i in before.ids[d] :: i in diff.removed || i in diff.moved)
    || (d in after.ids && exists i | i in after.ids[d] :: i in diff.added || i in diff.moved)
    || d in diff.reordered
    || (d in before.ids && d !in after.ids && before.ids[d] == [])
    || (d in after.ids && d !in before.ids && after.ids[d] == [])
  }

  /** Day `d` lists each of its ids once, and is the day they are placed on: no later day lists them too. */
  ghost predicate Owns(p: Plan, d: int)
    requires p.WellFormed()
  {
    d in p.ids ==> Distinct(p.ids[d]) && forall i | i in p.ids[d] :: i in p.Where() && p.Where()[i] == d
  }

  /** So it is if no other day lists an id of that day. */
  lemma ListedOnceIsOwned(p: Plan, d: int)
    requires p.WellFormed()
    requires d in p.ids ==> Distinct(p.ids[d])
    requires d in p.ids ==> forall e, i | e in p.ids && e != d && i in p.ids[e] :: i !in p.ids[d]
    ensures Owns(p, d)
  {
    PlacedOnItsDay(p);
  }

  /** A listed id that the other plan does not list on the same day is gone from there, or moved. */
  lemma GoneOrMoved(before: Plan, after: Plan, d: int, i: Id)
    requires before.WellFormed() && after.WellFormed() && Owns(before, d)
    requires d in before.ids && i in before.ids[d] && (d in after.ids ==> i !in after.ids[d])
    ensures var diff := Between(before, after);
            i in diff.removed || i in diff.moved
  {
    PlacedOnItsDay(after);
  }

  lemma SameIdsSameCounts(s: seq<Id>, t: seq<Id>)
    requires Distinct(s) && Distinct(t) && forall i :: i in s <==> i in t
    ensures multiset(s) == multiset(t)
  {
    CountsOfDistinct(s);
    CountsOfDistinct(t);
    assert forall i :: multiset(s)[i] == multiset(t)[i];
  }

  lemma {:induction false} CountsOfDistinct(s: seq<Id>)
    requires Distinct(s)
    ensures forall i :: multiset(s)[i] == if i in s then 1 else 0
  {
    if s != [] {
      var n := |s| - 1;
      CountsOfDistinct(s[..n]);
      assert s == s[..n] + [s[n]];
      assert s[n] !in s[..n];
    }
  }

  lemma ChangedIsAccounted(before: Plan, after: Plan, d: int)
    requires before.WellFormed() && after.WellFormed() && Owns(before, d) && Owns(after, d)
    requires d in Between(before, after).changed
    ensures Accounted(before, after, d)
  {
    var b := if d in before.ids then before.ids[d] else [];
    var a := if d in after.ids then after.ids[d] else [];
    Undone(before, after);
    if d !in after.ids {
      if b != [] {
        GoneOrMoved(before, after, d, b[0]);
      }
    } else if d !in before.ids {
      if a != [] {
        GoneOrMoved(after, before, d, a[0]);
      }
    } else if i :| i in b && i !in a {
      GoneOrMoved(before, after, d, i);
    } else if i :| i in a && i !in b {
      GoneOrMoved(after, before, d, i);
    } else {
      SameIdsSameCounts(b, a);
    }
  }

  lemma AccountedIsChanged(before: Plan, after: Plan, d: int)
    requires before.WellFormed() && after.WellFormed() && Owns(before, d) && Owns(after, d)
    requires Accounted(before, after, d)
    ensures d in Between(before, after).changed
  {
    var diff := Between(before, after);
    assert forall i | i in diff.removed :: i !in after.Where();
    assert forall i | i in diff.added :: i !in before.Where();
  }

  /** A day is reported as changed exactly when it lists an added, removed or moved id, is reordered, or is
      an empty day that only one of the plans has, if both plans own that day. */
  lemma ChangedExactly(before: Plan, after: Plan, d: int)
    requires before.WellFormed() && after.WellFormed() && Owns(before, d) && Owns(after, d)
    ensures d in Between(before, after).changed <==> Accounted(before, after, d)
  {
    if d in Between(before, after).changed {
      ChangedIsAccounted(before, after, d);
    } else if Accounted(before, after, d) {
      AccountedIsChanged(before, after, d);
    }
  }

  // -- exactly when the account holds --------------------------------------------------------------------------------

  /** The last day that lists a placed id is its place. */
  lemma {:induction false} LastListing(order: seq<int>, ids: map<int, seq<Id>>, i: Id) returns (k: nat)
    requires i in DayOfIds(order, ids)
    ensures k < |order| && i in On(ids, order[k]) && DayOfIds(order, ids)[i] == order[k]
    ensures forall m | k < m < |order| :: i !in On(ids, order[m])
  {
    var n := |order| - 1;
    if i in On(ids, order[n]) {
      k := n;
    } else {
      k := LastListing(order[..n], ids, i);
      assert forall m | k < m < n :: order[m] == order[..n][m];
    }
  }

  /** The ids of `s` that are placed on `d`, each once. */
  function OwnIds(s: seq<Id>, w: map<Id, int>, d: int): (r: seq<Id>)
    ensures Distinct(r)
    ensures forall i :: i in r <==> i in s && i in w && w[i] == d
  {
    if s == [] then []
    else
      var last, rest := s[|s| - 1], OwnIds(s[..|s| - 1], w, d);
      assert s == s[..|s| - 1] + [last];
      if last in w && w[last] == d && last !in rest then rest + [last] else rest
  }

  /** The plan with day `d` cut down to what it owns. */
  function CutDown(p: Plan, d: int): Plan
    requires d in p.ids
  {
    p.(ids := p.ids[d := OwnIds(p.ids[d], p.Where(), d)])
  }

  /** No id changes its place by that. */
  lemma CutDownPlacesTheSame(p: Plan, d: int)
    requires p.WellFormed() && d in p.ids
    ensures CutDown(p, d).WellFormed() && CutDown(p, d).Where() == p.Where()
  {
    var q := CutDown(p, d);
    forall i | i in p.Where() ensures i in q.Where() && q.Where()[i] == p.Where()[i] {
      var k := LastListing(p.order, p.ids, i);
      forall m | k < m < |q.order| ensures i !in On(q.ids, q.order[m]) {
        assert i !in On(p.ids, p.order[m]);
      }
      LastDayWins(q.order, q.ids, k, i);
    }
    PlacedOnItsDay(p);
    PlacedOnItsDay(q);
    forall i | i in q.Where() ensures i in p.Where() {
      var e := q.Where()[i];
      assert e in p.ids && i in p.ids[e];
    }
  }

  lemma SameCountsSameDistinct(s: seq<Id>, t: seq<Id>)
    requires multiset(s) == multiset(t) && Distinct(s)
    ensures Distinct(t) && forall i | i in t :: i in s
  {
    forall i | i in t ensures i in s {
      assert i in multiset(t);
    }
    CountsOfDistinct(s);
    forall j, k | 0 <= j < k < |t| ensures t[j] != t[k] {
      assert t == t[..j] + [t[j]] + t[j + 1..] && t[k] == t[j + 1..][k - j - 1];
      assert multiset(t) == multiset(t[..j]) + multiset{t[j]} + multiset(t[j + 1..]);
      assert multiset(t)[t[k]] <= 1;
      assert t[k] in multiset(t[j + 1..]);
    }
  }

  /** A day that is not owned is changed by cutting it down, with nothing to show for it. */
  lemma CutDownIsUnaccounted(p: Plan, d: int)
    requires p.WellFormed() && !Owns(p, d)
    ensures var q := CutDown(p, d);
            q.WellFormed() && Owns(q, d) && d in Between(p, q).changed && !Accounted(p, q, d)
  {
    var q := CutDown(p, d);
    CutDownPlacesTheSame(p, d);
    var diff := Between(p, q);
    assert diff.added == {} && diff.removed == {} && diff.moved == {};
    assert q.ids[d] != p.ids[d];
    if multiset(p.ids[d]) == multiset(q.ids[d]) {
      SameCountsSameDistinct(q.ids[d], p.ids[d]);
      assert false;
    }
  }

  /** A plan owns day `d` exactly when, against every plan that owns it, a change of that day has something to show
      for it. */
  lemma OwnsExactly(before: Plan, d: int)
    requires before.WellFormed()
    ensures Owns(before, d) <==>
            forall after: Plan | after.WellFormed() && Owns(after, d) && d in Between(before, after).changed ::
              Accounted(before, after, d)
  {
    if Owns(before, d) {
      forall after: Plan | after.WellFormed() && Owns(after, d) && d in Between(before, after).changed
        ensures Accounted(before, after, d)
      {
        ChangedIsAccounted(before, after, d);
      }
    } else {
      CutDownIsUnaccounted(before, d);
    }
  }

  lemma AccountUndone(before: Plan, after: Plan, d: int)
    requires before.WellFormed() && after.WellFormed()
    ensures d in Between(before, after).changed <==> d in Between(after, before).changed
    ensures Accounted(before, after, d) <==> Accounted(after, before, d)
  {
    Undone(before, after);
  }

  /** And so for the plan that comes after. */
  lemma OwnsExactlyAfter(after: Plan, d: int)
    requires after.WellFormed()
    ensures Owns(after, d) <==>
            forall before: Plan | before.WellFormed() && Owns(before, d) && d in Between(before, after).changed ::
              Accounted(before, after, d)
  {
    if Owns(after, d) {
      forall before: Plan | before.WellFormed() && Owns(before, d) && d in Between(before, after).changed
        ensures Accounted(before, after, d)
      {
        ChangedIsAccounted(before, after, d);
      }
    } else {
      CutDownIsUnaccounted(after, d);
      AccountUndone(CutDown(after, d), after, d);
    }
  }

  /** A plan of two days, the second listing "x" alone. */
  function TwoDays(first: seq<Id>): (p: Plan)
    ensures p.WellFormed()
  {
    var p := Plan([1, 2], map[1 := first, 2 := ["x"]]);
    assert p.order[0] == 1 && p.order[1] == 2;
    p
  }

  lemma PlacedOnDayTwo(first: seq<Id>)
    requires forall i | i in first :: i == "x"
    ensures forall i :: i in TwoDays(first).Where() <==> i == "x"
    ensures TwoDays(first).Where()["x"] == 2
  {
    var p := TwoDays(first);
    assert p.order[1] == 2 && "x" in On(p.ids, p.order[1]);
    LastDayWins(p.order, p.ids, 1, "x");
    PlacedOnItsDay(p);
  }

  /** With an id listed twice a changed day can have nothing to show for it. */
  lemma RepeatedIdHidesAChange()
    ensures 1 in Between(TwoDays(["x"]), TwoDays([])).changed
    ensures !Accounted(TwoDays(["x"]), TwoDays([]), 1)
  {
    var before, after := TwoDays(["x"]), TwoDays([]);
    PlacedOnDayTwo(["x"]);
    PlacedOnDayTwo([]);
    assert before.ids[1] == ["x"] && after.ids[1] == [];
    assert !SameOn(before, after, 1) && 1 in before.ids.Keys + after.ids.Keys;
    assert multiset(before.ids[1])["x"] == 1 && multiset(after.ids[1])["x"] == 0;
    assert forall i :: i !in Between(before, after).removed && i !in Between(before, after).moved;
  }
}
