/**
 * The player contract. A player is known to the engine only by its marker
 * ("X", "O", ...): the marker is what a cell records as its occupant and what
 * decides whether two players, or two winners, are the same.
 */
module Players {

  /** A player identity: the handle that cells and game states refer to. */
  datatype Player = Player(marker: string)

  /** Player equality: two players are equal exactly when their markers are. */
  function SamePlayer(p: Player, q: Player): (same: bool)
    ensures same <==> p == q
  {
    p.marker == q.marker
  }

  /** Player equality is an equivalence relation. */
  lemma SamePlayerIsEquivalence(p: Player, q: Player, o: Player)
    ensures SamePlayer(p, p)
    ensures SamePlayer(p, q) <==> SamePlayer(q, p)
    ensures SamePlayer(p, q) && SamePlayer(q, o) ==> SamePlayer(p, o)
  {
  }
}
