/**
 The lazy array behind the draw: an absent or zero entry stands for "position not touched yet",
 anything else for its value plus one. Proved to be the textbook shuffle at every rank.
 */
module SparseShuffle {
  import opened Common
  import opened FisherYates

  type Cells = map<uint32, uint32>

  /** _shuffleValue. */
  function ShuffleValue(cells: Cells, position: uint32): uint32 {
    var encoded := Read(cells, position, 0);
    if encoded == 0 then position else encoded - 1
  }

  /** Untouched and encoded cells together are the undrawn rest of the dense array. */
  ghost predicate HoldsRest(cells: Cells, n: uint32, draws: seq<nat>)
    requires ValidDraws(n as nat, draws)
  {
    forall p: uint32 :: |draws| <= p as nat && p < n ==> ShuffleValue(cells, p) as nat == Shuffled(n as nat, draws)[p]
  }

  /** The selected table holds exactly the drawn ranks, each as candidate index plus one. */
  ghost predicate HoldsList(selected: Cells, n: uint32, draws: seq<nat>)
    requires ValidDraws(n as nat, draws)
  {
    && (forall r :: r in selected <==> r as nat < |draws|)
    && forall r :: r in selected ==> selected[r] as nat == Selection(n as nat, draws)[r] + 1
  }

  ghost predicate Represents(cells: Cells, selected: Cells, n: uint32, draws: seq<nat>) {
    ValidDraws(n as nat, draws) && HoldsRest(cells, n, draws) && HoldsList(selected, n, draws)
  }

  /** Both cells involved decode to the dense array and can be stored plus one without overflow. */
  lemma CellsDecode(cells: Cells, selected: Cells, n: uint32, draws: seq<nat>, position: uint32)
    requires Represents(cells, selected, n, draws) && |draws| <= position as nat && position < n
    ensures ShuffleValue(cells, position) < n
    ensures ShuffleValue(cells, position) as nat == Shuffled(n as nat, draws)[position]
  {
    PositionInverts(n as nat, draws);
  }

  /** One finalization: two sparse writes do what the swap does on the dense array. */
  lemma DrawRepresented(cells: Cells, selected: Cells, n: uint32, draws: seq<nat>, rank: uint32, position: uint32)
    requires Represents(cells, selected, n, draws) && rank as nat == |draws| && rank <= position < n
    requires ShuffleValue(cells, rank) < n && ShuffleValue(cells, position) < n
    ensures Represents(cells[position := ShuffleValue(cells, rank) + 1],
                       selected[rank := ShuffleValue(cells, position) + 1], n, draws + [position as nat])
  {
    var later := draws + [position as nat];
    assert later[..|draws|] == draws;
    var before, after := Shuffled(n as nat, draws), Shuffled(n as nat, later);
    assert after == Swap(before, rank as nat, position as nat);
    var cells' := cells[position := ShuffleValue(cells, rank) + 1];
    forall p: uint32 | |later| <= p as nat && p < n
      ensures ShuffleValue(cells', p) as nat == after[p]
    {
      if p == position {
        assert ShuffleValue(cells', p) == ShuffleValue(cells, rank);
      } else {
        assert ShuffleValue(cells', p) == ShuffleValue(cells, p);
      }
    }
    forall r | r in selected
      ensures Selection(n as nat, later)[r] == Selection(n as nat, draws)[r]
    {
    }
  }
}
