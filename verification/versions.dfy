/**
 * TRVersion.Game, the target engine a level is compiled for. The numeric order
 * of the enumeration (used by `>= TR4`, `> TR3`) and the `Legacy()` mapping are
 * defined outside the modelled files, so they are given as a `VersionOrder`.
 */
module Versions {

  datatype Game = TR1 | TR2 | TR3 | TR4 | TR5 | TRNG | TombEngine

  /** The enumeration order and the Legacy() projection of TRVersion.Game. */
  datatype VersionOrder = VersionOrder(rank: Game -> int, legacy: Game -> Game)

  predicate AtLeast(order: VersionOrder, v: Game, w: Game) {
    order.rank(v) >= order.rank(w)
  }

  predicate Above(order: VersionOrder, v: Game, w: Game) {
    order.rank(v) > order.rank(w)
  }
}
