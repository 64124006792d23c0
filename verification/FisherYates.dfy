/**
 The textbook partial Fisher-Yates shuffle on a dense array, as the meaning of the sparse
 one in CreatorFirstVerifiableSortition, and the proof that draws and ordered selections
 are in bijection.
 */
module FisherYates {

  /** Draw r picks a position between r and the end of the array. */
  predicate ValidDraws(n: nat, draws: seq<nat>) {
    |draws| <= n && forall r :: 0 <= r < |draws| ==> r <= draws[r] < n
  }

  predicate OrderedSelection(n: nat, s: seq<nat>) {
    && (forall i :: 0 <= i < |s| ==> s[i] < n)
    && (forall i, j :: 0 <= i < j < |s| ==> s[i] != s[j])
  }

  function Swap(a: seq<nat>, i: nat, j: nat): (b: seq<nat>)
    requires i < |a| && j < |a|
    ensures |b| == |a| && b[i] == a[j] && b[j] == a[i]
    ensures forall p :: 0 <= p < |a| && p != i && p != j ==> b[p] == a[p]
  {
    a[i := a[j]][j := a[i]]
  }

  /** The whole array 0, 1, ..., n-1 after the given draws have been swapped into place. */
  function Shuffled(n: nat, draws: seq<nat>): (a: seq<nat>)
    requires ValidDraws(n, draws)
    ensures |a| == n
  {
    if draws == [] then seq(n, i => i)
    else
      var last := |draws| - 1;
      Swap(Shuffled(n, draws[..last]), last, draws[last])
  }

  /** The ranked list: what the draws selected, in rank order. */
  function Selection(n: nat, draws: seq<nat>): (s: seq<nat>)
    requires ValidDraws(n, draws)
    ensures |s| == |draws|
  {
    Shuffled(n, draws)[..|draws|]
  }

  /** Where value v stands in the shuffled array: the inverse permutation. */
  function Position(n: nat, draws: seq<nat>, v: nat): (p: nat)
    requires ValidDraws(n, draws) && v < n
    ensures p < n
  {
    if draws == [] then v
    else
      var last := |draws| - 1;
      var p := Position(n, draws[..last], v);
      if p == last then draws[last] else if p == draws[last] then last else p
  }

  /** Shuffled and Position are inverse to each other, so the array stays a permutation. */
  lemma {:induction false} PositionInverts(n: nat, draws: seq<nat>)
    requires ValidDraws(n, draws)
    ensures forall v :: 0 <= v < n ==> Shuffled(n, draws)[Position(n, draws, v)] == v
    ensures forall p :: 0 <= p < n ==> Shuffled(n, draws)[p] < n
    ensures forall p :: 0 <= p < n ==> Position(n, draws, Shuffled(n, draws)[p]) == p
  {
    if draws != [] {
      PositionInverts(n, draws[..|draws| - 1]);
    }
  }

  /** Nobody is selected twice and nobody from outside the population is selected. */
  lemma SelectionIsDistinct(n: nat, draws: seq<nat>)
    requires ValidDraws(n, draws)
    ensures OrderedSelection(n, Selection(n, draws))
  {
    PositionInverts(n, draws);
    var a := Shuffled(n, draws);
    forall i, j | 0 <= i < j < |draws| ensures a[i] != a[j] {
      assert Position(n, draws, a[i]) == i && Position(n, draws, a[j]) == j;
    }
  }

  /**
   Who stands at position q after r draws, found by going back from draw to draw: if a draw took the candidate
   at q, its own rank's former candidate stands there now.
   */
  function Trace(draws: seq<nat>, r: nat, q: nat): nat
    requires r <= |draws|
    decreases r
  {
    if r == 0 then q else Trace(draws, r - 1, if draws[r - 1] == q then r - 1 else q)
  }

  lemma {:induction false} TraceFindsWhoStands(n: nat, draws: seq<nat>, r: nat, q: nat)
    requires ValidDraws(n, draws) && r <= |draws| && r <= q < n
    ensures Shuffled(n, draws[..r])[q] == Trace(draws, r, q)
    decreases r
  {
    if r > 0 {
      assert draws[..r][..r - 1] == draws[..r - 1];
      TraceFindsWhoStands(n, draws, r - 1, if draws[r - 1] == q then r - 1 else q);
    }
  }

  /** The candidate at each rank is the one that stood at its drawn position. */
  lemma SelectionTraces(n: nat, draws: seq<nat>, r: nat)
    requires ValidDraws(n, draws) && r < |draws|
    ensures Selection(n, draws)[r] == Trace(draws, r, draws[r])
  {
    SelectionPrefix(n, draws, r + 1);
    assert draws[..r + 1][..r] == draws[..r];
    TraceFindsWhoStands(n, draws, r, draws[r]);
  }

  /** A later draw never changes an earlier rank. */
  lemma {:induction false} SelectionPrefix(n: nat, draws: seq<nat>, k: nat)
    requires ValidDraws(n, draws) && k <= |draws|
    ensures ValidDraws(n, draws[..k])
    ensures Selection(n, draws[..k]) == Selection(n, draws)[..k]
    decreases |draws| - k
  {
    if k == |draws| {
      assert draws[..k] == draws;
    } else {
      SelectionPrefix(n, draws, k + 1);
      assert draws[..k + 1][..k] == draws[..k];
      assert Selection(n, draws[..k]) == Selection(n, draws[..k + 1])[..k];
    }
  }

  /** Drawing the position where v stands selects v next. */
  lemma DrawNext(n: nat, draws: seq<nat>, v: nat)
    requires ValidDraws(n, draws) && v < n && v !in Selection(n, draws)
    ensures ValidDraws(n, draws + [Position(n, draws, v)])
    ensures Selection(n, draws + [Position(n, draws, v)]) == Selection(n, draws) + [v]
  {
    PositionInverts(n, draws);
    var a, p, k := Shuffled(n, draws), Position(n, draws, v), |draws|;
    forall i | 0 <= i < k ensures a[i] != v {
      assert a[i] == Selection(n, draws)[i];
    }
    var later := draws + [p];
    assert later[..k] == draws;
    var b := Swap(a, k, p);
    assert Shuffled(n, later) == b;
    assert forall i :: 0 <= i < k ==> b[i] == a[i];
    assert b[..k] == a[..k] && b[k] == v;
    assert b[..k + 1] == b[..k] + [b[k]];
  }

  /** The draws that produce a wanted ordered selection. */
  function DrawsFor(n: nat, s: seq<nat>): (draws: seq<nat>)
    requires OrderedSelection(n, s)
    ensures ValidDraws(n, draws) && Selection(n, draws) == s
  {
    if s == [] then []
    else
      var last := |s| - 1;
      var before := DrawsFor(n, s[..last]);
      assert s == s[..last] + [s[last]] && s[last] !in s[..last];
      DrawNext(n, before, s[last]);
      before + [Position(n, before, s[last])]
  }

  /** Different draws give different selections: DrawsFor recovers them. */
  lemma {:induction false} DrawsRecovered(n: nat, draws: seq<nat>)
    requires ValidDraws(n, draws)
    ensures OrderedSelection(n, Selection(n, draws))
    ensures DrawsFor(n, Selection(n, draws)) == draws
  {
    SelectionIsDistinct(n, draws);
    if draws != [] {
      var last := |draws| - 1;
      SelectionPrefix(n, draws, last);
      DrawsRecovered(n, draws[..last]);
      PositionInverts(n, draws[..last]);
      assert Selection(n, draws)[..last] == Selection(n, draws[..last]);
      assert Selection(n, draws)[last] == Shuffled(n, draws[..last])[draws[last]];
      assert draws == draws[..last] + [draws[last]];
    }
  }

  /**
   For fixed population and rank count, drawing is a bijection between position vectors and
   ordered selections: every selection is reached by exactly one position vector.
   */
  lemma DrawingIsBijective(n: nat, s: seq<nat>)
    requires OrderedSelection(n, s)
    ensures exists draws ::
      && ValidDraws(n, draws) && |draws| == |s| && Selection(n, draws) == s
      && forall other :: ValidDraws(n, other) && Selection(n, other) == s ==> other == draws
  {
    var draws := DrawsFor(n, s);
    forall other | ValidDraws(n, other) && Selection(n, other) == s ensures other == draws {
      DrawsRecovered(n, other);
    }
  }
}
