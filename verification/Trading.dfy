/** Notions that several components of the engine share. */
module Trading {
  datatype Option<T> = None | Some(value: T)

  type Symbol = string

  datatype Direction = CALL | PUT

  function Opposite(d: Direction): Direction {
    if d.CALL? then PUT else CALL
  }

  datatype Candle = Candle(epoch: int, open: real, high: real, low: real, close: real)

  /** The newest n entries, or all when there are fewer. */
  function LastN<T>(s: seq<T>, n: nat): seq<T> {
    if |s| <= n then s else s[|s| - n..]
  }
}
