/** The blinded review: the order and codes of the packets, and the acceptance rule computed from the
    scores the reviewer gave under those codes. */
module Packets {
  import opened Wrappers
  import opened Protocols

  // -- sorting -----------------------------------------------------------------------------------------

  function KeyOf(key: map<ScenarioId, int>, s: ScenarioId): int {
    if s in key then key[s] else 0
  }

  predicate SortedBy(xs: seq<ScenarioId>, key: map<ScenarioId, int>) {
    forall i, j | 0 <= i < j < |xs| :: KeyOf(key, xs[i]) <= KeyOf(key, xs[j])
  }

  /** Into its place, after everything it ties with: the sort is stable. */
  function Place(xs: seq<ScenarioId>, x: ScenarioId, key: map<ScenarioId, int>): (r: seq<ScenarioId>)
    ensures multiset(r) == multiset(xs) + multiset{x}
  {
    if xs == [] then [x]
    else if KeyOf(key, x) < KeyOf(key, xs[|xs| - 1]) then
      assert xs == xs[..|xs| - 1] + [xs[|xs| - 1]];
      Place(xs[..|xs| - 1], x, key) + [xs[|xs| - 1]]
    else xs + [x]
  }

  /** `presentation_order`: the scenario ids by their keys. */
  function PresentationOrder(ids: seq<ScenarioId>, key: map<ScenarioId, int>): (r: seq<ScenarioId>)
    ensures multiset(r) == multiset(ids)
  {
    if ids == [] then []
    else
      assert ids == ids[..|ids| - 1] + [ids[|ids| - 1]];
      Place(PresentationOrder(ids[..|ids| - 1], key), ids[|ids| - 1], key)
  }

  lemma {:induction false} PlaceIsBounded(xs: seq<ScenarioId>, x: ScenarioId, key: map<ScenarioId, int>, top: int)
    requires KeyOf(key, x) <= top && forall i | 0 <= i < |xs| :: KeyOf(key, xs[i]) <= top
    ensures forall i | 0 <= i < |Place(xs, x, key)| :: KeyOf(key, Place(xs, x, key)[i]) <= top
  {
    if xs != [] && KeyOf(key, x) < KeyOf(key, xs[|xs| - 1]) {
      PlaceIsBounded(xs[..|xs| - 1], x, key, top);
    }
  }

  lemma {:induction false} PlaceIsSorted(xs: seq<ScenarioId>, x: ScenarioId, key: map<ScenarioId, int>)
    requires SortedBy(xs, key)
    ensures SortedBy(Place(xs, x, key), key)
  {
    if xs != [] && KeyOf(key, x) < KeyOf(key, xs[|xs| - 1]) {
      var n := |xs| - 1;
      PlaceIsSorted(xs[..n], x, key);
      PlaceIsBounded(xs[..n], x, key, KeyOf(key, xs[n]));
    }
  }

  lemma {:induction false} OrderIsSorted(ids: seq<ScenarioId>, key: map<ScenarioId, int>)
    ensures SortedBy(PresentationOrder(ids, key), key)
  {
    if ids != [] {
      var n := |ids| - 1;
      OrderIsSorted(ids[..n], key);
      PlaceIsSorted(PresentationOrder(ids[..n], key), ids[n], key);
    }
  }

  lemma {:induction false} DistinctByCount<T>(xs: seq<T>)
    ensures Distinct(xs) <==> forall x | x in xs :: multiset(xs)[x] == 1
  {
    if xs != [] {
      var n := |xs| - 1;
      var before := xs[..n];
      assert xs == before + [xs[n]];
      DistinctByCount(before);
      if forall x | x in xs :: multiset(xs)[x] == 1 {
        forall x | x in before ensures multiset(before)[x] == 1 {
          assert x in xs && x in multiset(before);
        }
        assert xs[n] in xs;
        assert xs[n] !in multiset(before);
        forall i | 0 <= i < n ensures xs[i] != xs[n] {
          assert before[i] in multiset(before);
        }
        forall i, j | 0 <= i < j < |xs| ensures xs[i] != xs[j] {
          assert j < n ==> before[i] != before[j];
        }
      }
      if Distinct(xs) {
        forall i, j | 0 <= i < j < n ensures before[i] != before[j] {
          assert xs[i] != xs[j];
        }
        forall x | x in xs ensures multiset(xs)[x] == 1 {
          if x == xs[n] {
            assert x !in before;
          } else {
            assert x in before;
          }
        }
      }
    }
  }

  /** `packet_codes`: packet number (P01, P02, ...) -> scenario id, in presentation order. */
  function PacketCodes(order: seq<ScenarioId>): map<nat, ScenarioId> {
    if order == [] then map[]
    else PacketCodes(order[..|order| - 1])[|order| := order[|order| - 1]]
  }

  lemma {:induction false} CodesCountUp(order: seq<ScenarioId>)
    ensures forall i :: i in PacketCodes(order) <==> 1 <= i <= |order|
    ensures forall i | i in PacketCodes(order) :: PacketCodes(order)[i] == order[i - 1]
  {
    if order != [] {
      CodesCountUp(order[..|order| - 1]);
    }
  }

  lemma OrderIsARearrangement(ids: seq<ScenarioId>, key: map<ScenarioId, int>)
    requires Distinct(ids)
    ensures |PresentationOrder(ids, key)| == |ids| && Distinct(PresentationOrder(ids, key))
    ensures forall s :: s in PresentationOrder(ids, key) <==> s in ids
  {
    var order := PresentationOrder(ids, key);
    DistinctByCount(ids);
    DistinctByCount(order);
    assert |order| == |multiset(order)| == |ids|;
    forall s ensures s in ids <==> s in order {
      assert s in multiset(ids) <==> s in multiset(order);
    }
  }

  /** For every seed, ties included, the codes P01..Pn and the scenarios are in one-to-one
      correspondence, and the packets come in the order of the keys. */
  lemma PacketCodesAreABijection(ids: seq<ScenarioId>, key: map<ScenarioId, int>)
    requires Distinct(ids)
    ensures var codes := PacketCodes(PresentationOrder(ids, key));
            && (forall i :: i in codes <==> 1 <= i <= |ids|)
            && (forall i, j | i in codes && j in codes && codes[i] == codes[j] :: i == j)
            && (forall s | s in ids :: exists i :: i in codes && codes[i] == s)
            && (forall i, j | i in codes && j in codes && i < j :: KeyOf(key, codes[i]) <= KeyOf(key, codes[j]))
  {
    var order := PresentationOrder(ids, key);
    var codes := PacketCodes(order);
    OrderIsARearrangement(ids, key);
    OrderIsSorted(ids, key);
    CodesCountUp(order);
    forall i, j | i in codes && j in codes && codes[i] == codes[j] ensures i == j {
      assert order[i - 1] == order[j - 1];
    }
    forall s | s in ids ensures exists i :: i in codes && codes[i] == s {
      assert s in order;
      var k :| 0 <= k < |order| && order[k] == s;
      assert k + 1 in codes && codes[k + 1] == s;
    }
  }

  // -- the acceptance rule ---------------------------------------------------------------------------------

  function Insert(xs: seq<int>, x: int): (r: seq<int>)
    ensures multiset(r) == multiset(xs) + multiset{x}
  {
    if xs == [] || x <= xs[0] then [x] + xs
    else
      assert xs == [xs[0]] + xs[1..];
      [xs[0]] + Insert(xs[1..], x)
  }

  function Sorted(xs: seq<int>): (r: seq<int>)
    ensures multiset(r) == multiset(xs)
  {
    if xs == [] then []
    else
      assert xs == [xs[0]] + xs[1..];
      Insert(Sorted(xs[1..]), xs[0])
  }

  predicate Ascending(xs: seq<int>) {
    forall i, j | 0 <= i < j < |xs| :: xs[i] <= xs[j]
  }

  lemma {:induction false} InsertKeepsAscending(xs: seq<int>, x: int)
    requires Ascending(xs)
    ensures Ascending(Insert(xs, x))
  {
    if xs != [] && x > xs[0] {
      InsertKeepsAscending(xs[1..], x);
      var rest := Insert(xs[1..], x);
      forall i | 0 <= i < |rest| ensures xs[0] <= rest[i] {
        assert rest[i] in multiset(rest);
        if rest[i] != x {
          assert rest[i] in xs[1..];
        }
      }
    }
  }

  lemma {:induction false} SortedAscends(xs: seq<int>)
    ensures Ascending(Sorted(xs))
  {
    if xs != [] {
      SortedAscends(xs[1..]);
      InsertKeepsAscending(Sorted(xs[1..]), xs[0]);
    }
  }

  lemma LeastIsFirst(a: seq<int>, b: seq<int>)
    requires Ascending(a) && a != [] && b != [] && multiset(a) == multiset(b)
    ensures a[0] <= b[0]
  {
    assert b[0] in multiset(a);
  }

  lemma {:induction false} AscendingIsUnique(a: seq<int>, b: seq<int>)
    requires Ascending(a) && Ascending(b) && multiset(a) == multiset(b)
    ensures a == b
  {
    assert |a| == |multiset(a)| == |multiset(b)| == |b|;
    if a != [] {
      LeastIsFirst(a, b);
      LeastIsFirst(b, a);
      assert a == [a[0]] + a[1..] && b == [b[0]] + b[1..];
      assert multiset(a[1..]) == multiset(a) - multiset{a[0]};
      assert multiset(b[1..]) == multiset(b) - multiset{b[0]};
      AscendingIsUnique(a[1..], b[1..]);
    }
  }

  /** Twice `statistics.median`: the middle value, or the mean of the two middle ones. */
  function DoubledMedian(xs: seq<int>): Option<int> {
    if xs == [] then None
    else
      var s, n := Sorted(xs), |xs|;
      assert |s| == |multiset(s)| == n;
      Some(if n % 2 == 1 then 2 * s[n / 2] else s[n / 2 - 1] + s[n / 2])
  }

  lemma SameLength<T>(a: seq<T>, b: seq<T>)
    requires multiset(a) == multiset(b)
    ensures |a| == |b|
  {
    assert |a| == |multiset(a)| == |multiset(b)| == |b|;
  }

  /** The median does not depend on the order the scores are listed in. */
  lemma MedianOfPermutation(a: seq<int>, b: seq<int>)
    requires multiset(a) == multiset(b)
    ensures DoubledMedian(a) == DoubledMedian(b)
  {
    SameLength(a, b);
    SortedAscends(a);
    SortedAscends(b);
    AscendingIsUnique(Sorted(a), Sorted(b));
  }

  /** `codes` lists the packets that were scored, each once. */
  ghost predicate Enumerates<T(!new)>(xs: seq<T>, s: set<T>) {
    Distinct(xs) && forall x :: x in xs <==> x in s
  }

  function Overall<T(==)>(xs: seq<T>, scores: map<T, Score>): (r: seq<int>)
    requires forall x | x in xs :: x in scores
    ensures |r| == |xs|
  {
    seq(|xs|, i requires 0 <= i < |xs| => scores[xs[i]].overall)
  }

  /** `{unblinding[code]: values for code, values in sorted(scores.items())}`: a later code would win. */
  function ByScenario(codes: seq<nat>, scores: map<nat, Score>, unblinding: map<nat, ScenarioId>)
    : map<ScenarioId, Score>
    requires forall c | c in codes :: c in scores && c in unblinding
  {
    if codes == [] then map[]
    else
      var c := codes[|codes| - 1];
      ByScenario(codes[..|codes| - 1], scores, unblinding)[unblinding[c] := scores[c]]
  }

  function Errors(codes: seq<nat>, scores: map<nat, Score>, unblinding: map<nat, ScenarioId>): map<ScenarioId, nat>
    requires forall c | c in codes :: c in scores && c in unblinding
  {
    if codes == [] then map[]
    else
      var c := codes[|codes| - 1];
      var before := Errors(codes[..|codes| - 1], scores, unblinding);
      if scores[c].factualErrors > 0 then before[unblinding[c] := scores[c].factualErrors] else before
  }

  function AutomatedFailures(records: map<ScenarioId, Stored>): set<ScenarioId> {
    set s | s in records && !(records[s].completed && records[s].passed)
  }

  function VerdictFrom(records: map<ScenarioId, Stored>, runValid: bool, overall: seq<int>, below: set<ScenarioId>,
                       errors: map<ScenarioId, nat>, byScenario: map<ScenarioId, Score>): Verdict
  {
    var median := DoubledMedian(overall);
    Verdict(
      runValid,
      median, median.Some? && median.value >= 8,
      below, overall != [] && forall i | 0 <= i < |overall| :: overall[i] >= 3,
      AutomatedFailures(records), errors, runValid && AutomatedFailures(records) == {} && errors == map[],
      byScenario)
  }

  /** `acceptance`: the three criteria and the scores by scenario, from the scores by packet. `codes`
      lists the scored packets in sorted order. */
  function AcceptanceOf(records: map<ScenarioId, Stored>, runValid: bool, codes: seq<nat>,
                        scores: map<nat, Score>, unblinding: map<nat, ScenarioId>): Verdict
    requires forall c | c in codes :: c in scores && c in unblinding
  {
    VerdictFrom(
      records, runValid, Overall(codes, scores),
      set c | c in codes && scores[c].overall < 3 :: unblinding[c],
      Errors(codes, scores, unblinding), ByScenario(codes, scores, unblinding))
  }

  /** The same rule read off the scores by scenario, with no packet anywhere. */
  function DirectVerdict(records: map<ScenarioId, Stored>, runValid: bool, ids: seq<ScenarioId>,
                         truth: map<ScenarioId, Score>): Verdict
    requires forall s | s in ids :: s in truth
  {
    VerdictFrom(
      records, runValid, Overall(ids, truth),
      set s | s in truth && truth[s].overall < 3,
      map s | s in truth && truth[s].factualErrors > 0 :: truth[s].factualErrors, truth)
  }

  function Unblinded(codes: seq<nat>, unblinding: map<nat, ScenarioId>): (r: seq<ScenarioId>)
    requires forall c | c in codes :: c in unblinding
    ensures |r| == |codes|
  {
    seq(|codes|, i requires 0 <= i < |codes| => unblinding[codes[i]])
  }

  /** Each packet carries the score of the scenario it stands for. */
  ghost predicate Truthful(codes: seq<nat>, scores: map<nat, Score>, unblinding: map<nat, ScenarioId>,
                           truth: map<ScenarioId, Score>)
  {
    && (forall c | c in codes :: c in scores && c in unblinding)
    && (forall c | c in codes :: unblinding[c] in truth && truth[unblinding[c]] == scores[c])
  }

  /** The scores given by packet are the scores of the scenarios, under a one-to-one coding. */
  ghost predicate Carries(codes: seq<nat>, scores: map<nat, Score>, unblinding: map<nat, ScenarioId>,
                          truth: map<ScenarioId, Score>)
  {
    && Truthful(codes, scores, unblinding, truth)
    && Enumerates(Unblinded(codes, unblinding), truth.Keys)
  }

  lemma {:induction false} FoldByScenario(codes: seq<nat>, scores: map<nat, Score>, unblinding: map<nat, ScenarioId>,
                                          truth: map<ScenarioId, Score>)
    requires Truthful(codes, scores, unblinding, truth)
    ensures ByScenario(codes, scores, unblinding) ==
              map s | s in truth && s in Unblinded(codes, unblinding) :: truth[s]
  {
    if codes != [] {
      var n := |codes| - 1;
      FoldByScenario(codes[..n], scores, unblinding, truth);
      assert Unblinded(codes, unblinding) == Unblinded(codes[..n], unblinding) + [unblinding[codes[n]]];
    }
  }

  lemma {:induction false} FoldErrors(codes: seq<nat>, scores: map<nat, Score>, unblinding: map<nat, ScenarioId>,
                                      truth: map<ScenarioId, Score>)
    requires Truthful(codes, scores, unblinding, truth)
    ensures Errors(codes, scores, unblinding) ==
              map s | s in truth && s in Unblinded(codes, unblinding) && truth[s].factualErrors > 0
                :: truth[s].factualErrors
  {
    if codes != [] {
      var n := |codes| - 1;
      FoldErrors(codes[..n], scores, unblinding, truth);
      assert Unblinded(codes, unblinding) == Unblinded(codes[..n], unblinding) + [unblinding[codes[n]]];
      assert codes[n] in codes;
    }
  }

  lemma {:induction false} SameMultiset<T(!new)>(a: seq<T>, b: seq<T>)
    requires Distinct(a) && Distinct(b) && forall x :: x in a <==> x in b
    ensures multiset(a) == multiset(b)
  {
    DistinctByCount(a);
    DistinctByCount(b);
    forall x ensures multiset(a)[x] == multiset(b)[x] {
      assert x in multiset(a) <==> x in a;
      assert x in multiset(b) <==> x in b;
    }
  }

  lemma OverallWithout(b: seq<ScenarioId>, j: nat, truth: map<ScenarioId, Score>)
    requires j < |b| && forall s | s in b :: s in truth
    ensures forall s | s in b[..j] + b[j + 1..] :: s in truth
    ensures multiset(Overall(b, truth)) == multiset(Overall(b[..j] + b[j + 1..], truth)) + multiset{truth[b[j]].overall}
  {
    var rest := b[..j] + b[j + 1..];
    assert Overall(b, truth) == Overall(b[..j], truth) + [truth[b[j]].overall] + Overall(b[j + 1..], truth);
    assert Overall(rest, truth) == Overall(b[..j], truth) + Overall(b[j + 1..], truth);
  }

  lemma {:induction false} OverallOfPermutation(a: seq<ScenarioId>, b: seq<ScenarioId>, truth: map<ScenarioId, Score>)
    requires multiset(a) == multiset(b)
    requires (forall s | s in a :: s in truth) && (forall s | s in b :: s in truth)
    ensures multiset(Overall(a, truth)) == multiset(Overall(b, truth))
  {
    SameLength(a, b);
    if a != [] {
      var n := |a| - 1;
      assert a[n] in multiset(b);
      var j :| 0 <= j < |b| && b[j] == a[n];
      WithoutOne(a, n);
      WithoutOne(b, j);
      OverallWithout(a, n, truth);
      OverallWithout(b, j, truth);
      OverallOfPermutation(a[..n] + a[n + 1..], b[..j] + b[j + 1..], truth);
    }
  }

  lemma WithoutOne<T>(b: seq<T>, j: nat)
    requires j < |b|
    ensures multiset(b[..j] + b[j + 1..]) == multiset(b) - multiset{b[j]}
    ensures |b[..j] + b[j + 1..]| < |b|
  {
    assert b == b[..j] + [b[j]] + b[j + 1..];
  }

  lemma VerdictOfPermutation(records: map<ScenarioId, Stored>, runValid: bool, a: seq<int>, b: seq<int>,
                             below: set<ScenarioId>, errors: map<ScenarioId, nat>, truth: map<ScenarioId, Score>)
    requires multiset(a) == multiset(b)
    ensures VerdictFrom(records, runValid, a, below, errors, truth) ==
              VerdictFrom(records, runValid, b, below, errors, truth)
  {
    MedianOfPermutation(a, b);
    SameLowScores(a, b);
  }

  /** The verdict computed from the packets is the verdict of the scores themselves. */
  lemma VerdictIsUnblinded(records: map<ScenarioId, Stored>, runValid: bool, codes: seq<nat>, scores: map<nat, Score>,
                           unblinding: map<nat, ScenarioId>, ids: seq<ScenarioId>, truth: map<ScenarioId, Score>)
    requires Carries(codes, scores, unblinding, truth) && Enumerates(ids, truth.Keys)
    ensures AcceptanceOf(records, runValid, codes, scores, unblinding) == DirectVerdict(records, runValid, ids, truth)
  {
    var named := Unblinded(codes, unblinding);
    FoldByScenario(codes, scores, unblinding, truth);
    FoldErrors(codes, scores, unblinding, truth);
    LowScenarios(codes, scores, unblinding, truth);
    OverallByName(codes, scores, unblinding, truth);
    SameMultiset(named, ids);
    OverallOfPermutation(named, ids, truth);
    var direct := DirectVerdict(records, runValid, ids, truth);
    assert ByScenario(codes, scores, unblinding) == truth == direct.byScenario;
    assert Errors(codes, scores, unblinding) == direct.factualErrors;
    VerdictOfPermutation(records, runValid, Overall(codes, scores), Overall(ids, truth), direct.belowThree,
                         direct.factualErrors, truth);
  }

  lemma OverallByName(codes: seq<nat>, scores: map<nat, Score>, unblinding: map<nat, ScenarioId>,
                      truth: map<ScenarioId, Score>)
    requires Carries(codes, scores, unblinding, truth)
    ensures forall s | s in Unblinded(codes, unblinding) :: s in truth
    ensures Overall(codes, scores) == Overall(Unblinded(codes, unblinding), truth)
  {}

  lemma LowScenarios(codes: seq<nat>, scores: map<nat, Score>, unblinding: map<nat, ScenarioId>,
                     truth: map<ScenarioId, Score>)
    requires Carries(codes, scores, unblinding, truth)
    ensures (set c | c in codes && scores[c].overall < 3 :: unblinding[c])
            == set s | s in truth && truth[s].overall < 3
  {
    var below := set c | c in codes && scores[c].overall < 3 :: unblinding[c];
    forall s | s in truth && truth[s].overall < 3 ensures s in below {
      assert s in Unblinded(codes, unblinding);
      var i :| 0 <= i < |codes| && unblinding[codes[i]] == s;
      assert codes[i] in codes;
    }
  }

  lemma SameLowScores(a: seq<int>, b: seq<int>)
    requires multiset(a) == multiset(b)
    ensures (a != [] && forall i | 0 <= i < |a| :: a[i] >= 3) <==> (b != [] && forall i | 0 <= i < |b| :: b[i] >= 3)
  {
    SameLength(a, b);
    if forall i | 0 <= i < |a| :: a[i] >= 3 {
      LowIn(a, b);
    }
    if forall i | 0 <= i < |b| :: b[i] >= 3 {
      LowIn(b, a);
    }
  }

  lemma LowIn(a: seq<int>, b: seq<int>)
    requires multiset(a) == multiset(b)
    requires forall i | 0 <= i < |a| :: a[i] >= 3
    ensures forall i | 0 <= i < |b| :: b[i] >= 3
  {
    forall i | 0 <= i < |b| ensures b[i] >= 3 {
      assert b[i] in multiset(a);
    }
  }

  /** Blinding cannot change the release verdict: under any two one-to-one codings that carry the same
      scores, every criterion, the verdict and the scores by scenario are the same. */
  lemma BlindingCannotChangeTheVerdict(
      records: map<ScenarioId, Stored>, runValid: bool, truth: map<ScenarioId, Score>,
      codes: seq<nat>, scores: map<nat, Score>, unblinding: map<nat, ScenarioId>,
      codes': seq<nat>, scores': map<nat, Score>, unblinding': map<nat, ScenarioId>)
    requires Carries(codes, scores, unblinding, truth) && Carries(codes', scores', unblinding', truth)
    ensures AcceptanceOf(records, runValid, codes, scores, unblinding) ==
            AcceptanceOf(records, runValid, codes', scores', unblinding')
  {
    var ids := Unblinded(codes, unblinding);
    VerdictIsUnblinded(records, runValid, codes, scores, unblinding, ids, truth);
    VerdictIsUnblinded(records, runValid, codes', scores', unblinding', ids, truth);
  }
}
