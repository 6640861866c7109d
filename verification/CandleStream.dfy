/**
 Incremental candle buffers, one for each symbol. An update of the open candle replaces it, a new epoch
 closes the previous one. Over a whole run the buffers are a window on the collapsed input.
 */
module CandleStream {
  import opened Numeric
  import opened Trading

  datatype Event = Update | Close | Append
  datatype Result = Result(event: Event, closedEpoch: Option<int>, candle: Candle)

  // ---------- One update ----------

  datatype Buffers = Buffers(histories: map<Symbol, seq<Candle>>, lastEpochs: map<Symbol, Option<int>>) {
    function History(x: Symbol): seq<Candle> {
      if x in histories then histories[x] else []
    }

    function LastEpoch(x: Symbol): Option<int> {
      if x in lastEpochs then lastEpochs[x] else None
    }
  }

  /** The part of the buffers that belongs to one symbol. */
  datatype Track = Track(history: seq<Candle>, lastEpoch: Option<int>)

  function Of(b: Buffers, x: Symbol): Track { Track(b.History(x), b.LastEpoch(x)) }

  predicate Continues(t: Track, c: Candle) {
    t.history != [] && t.history[|t.history| - 1].epoch == c.epoch
  }

  function Bounded(h: seq<Candle>, limit: int): seq<Candle> {
    if |h| > limit && h != [] then h[1..] else h
  }

  function Next(t: Track, c: Candle, limit: int): Track {
    if Continues(t, c) then t.(history := t.history[..|t.history| - 1] + [c])
    else Track(Bounded(t.history + [c], limit), Some(c.epoch))
  }

  function Closed(t: Track, c: Candle): Option<int> {
    if !Continues(t, c) && t.lastEpoch.Some? && t.lastEpoch.value != c.epoch then t.lastEpoch else None
  }

  function Answer(t: Track, c: Candle): Result {
    Result(if Continues(t, c) then Update else if Closed(t, c).Some? then Close else Append, Closed(t, c), c)
  }

  class CandleStore {
    var histories: map<Symbol, seq<Candle>>
    var lastEpochs: map<Symbol, Option<int>>

    function Contents(): Buffers
      reads this
    {
      Buffers(histories, lastEpochs)
    }

    constructor ()
      ensures Contents() == Buffers(map[], map[])
    {
      histories, lastEpochs := map[], map[];
    }

    method ApplyCandleUpdate(symbol: Symbol, candle: Candle, limit: int) returns (r: Result)
      modifies this
      ensures r == Answer(Of(old(Contents()), symbol), candle)
      ensures Of(Contents(), symbol) == Next(Of(old(Contents()), symbol), candle, limit)
      ensures forall y :: y != symbol ==> Of(Contents(), y) == Of(old(Contents()), y)
    {
      if symbol !in histories {
        histories := histories[symbol := []];
      }
      var history := histories[symbol];
      if history != [] && history[|history| - 1].epoch == candle.epoch {
        histories := histories[symbol := history[|history| - 1 := candle]];
        return Result(Update, None, candle);
      }
      var prevEpoch := if symbol in lastEpochs then lastEpochs[symbol] else None;
      var closedEpoch: Option<int> := None;
      if prevEpoch.Some? && prevEpoch.value != candle.epoch {
        closedEpoch := prevEpoch;
      }
      history := history + [candle];
      lastEpochs := lastEpochs[symbol := Some(candle.epoch)];
      if |history| > limit {
        history := history[1..];
      }
      histories := histories[symbol := history];
      r := Result(if closedEpoch.Some? then Close else Append, closedEpoch, candle);
    }

    /** A whole run from empty buffers, with the epochs closed on the way. */
    static method Feed(inputs: seq<Input>, limit: int) returns (store: CandleStore, closed: seq<(Symbol, int)>)
      ensures forall x :: store.Contents().History(x) == LastN(RunEnds(For(x, inputs)), MaxInt(0, limit))
      ensures forall x :: EpochsOf(x, closed) == ClosedEpochs(RunEnds(For(x, inputs)))
    {
      store := new CandleStore();
      closed := [];
      for i := 0 to |inputs|
        invariant fresh(store)
        invariant forall x :: Of(store.Contents(), x) == After(For(x, inputs[..i]), limit)
        invariant forall x :: EpochsOf(x, closed) == ClosedBy(For(x, inputs[..i]), limit)
      {
        assert inputs[..i + 1] == inputs[..i] + [inputs[i]];
        var r := store.ApplyCandleUpdate(inputs[i].symbol, inputs[i].candle, limit);
        ghost var before := closed;
        if r.closedEpoch.Some? {
          closed := closed + [(inputs[i].symbol, r.closedEpoch.value)];
        }
        forall x
          ensures Of(store.Contents(), x) == After(For(x, inputs[..i + 1]), limit)
          ensures EpochsOf(x, closed) == ClosedBy(For(x, inputs[..i + 1]), limit)
        {
          ForSnoc(x, inputs[..i], inputs[i]);
          if x == inputs[i].symbol {
            RunSnoc(For(x, inputs[..i]), inputs[i].candle, limit);
          }
        }
      }
      assert inputs[..|inputs|] == inputs;
      forall x
        ensures store.Contents().History(x) == LastN(RunEnds(For(x, inputs)), MaxInt(0, limit))
        ensures EpochsOf(x, closed) == ClosedEpochs(RunEnds(For(x, inputs)))
      {
        WindowOnCollapsedInput(For(x, inputs), limit);
      }
    }
  }

  // ---------- What a run means ----------

  datatype Input = Input(symbol: Symbol, candle: Candle)

  function For(x: Symbol, inputs: seq<Input>): seq<Candle> {
    if inputs == [] then []
    else For(x, inputs[..|inputs| - 1]) + if inputs[|inputs| - 1].symbol == x then [inputs[|inputs| - 1].candle] else []
  }

  function EpochsOf(x: Symbol, closed: seq<(Symbol, int)>): seq<int> {
    if closed == [] then []
    else EpochsOf(x, closed[..|closed| - 1]) + if closed[|closed| - 1].0 == x then [closed[|closed| - 1].1] else []
  }

  lemma ForSnoc(x: Symbol, inputs: seq<Input>, last: Input)
    ensures For(x, inputs + [last]) == if last.symbol == x then For(x, inputs) + [last.candle] else For(x, inputs)
  {
    assert (inputs + [last])[..|inputs|] == inputs;
  }

  /** Every run of candles with the same epoch is replaced by its last candle. */
  function RunEnds(cs: seq<Candle>): seq<Candle> {
    if |cs| <= 1 then cs
    else (if cs[0].epoch == cs[1].epoch then [] else [cs[0]]) + RunEnds(cs[1..])
  }

  /** All epochs but that of the candle that is still open. */
  function ClosedEpochs(cs: seq<Candle>): seq<int> {
    if cs == [] then [] else seq(|cs| - 1, i requires 0 <= i < |cs| - 1 => cs[i].epoch)
  }

  /** The track of a symbol after its candles, from empty buffers. */
  function After(cs: seq<Candle>, limit: int): Track {
    if cs == [] then Track([], None) else Next(After(cs[..|cs| - 1], limit), cs[|cs| - 1], limit)
  }

  /** The epochs closed on the way. */
  function ClosedBy(cs: seq<Candle>, limit: int): seq<int> {
    if cs == [] then []
    else
      var closed := Closed(After(cs[..|cs| - 1], limit), cs[|cs| - 1]);
      if closed.Some? then ClosedBy(cs[..|cs| - 1], limit) + [closed.value] else ClosedBy(cs[..|cs| - 1], limit)
  }

  lemma RunSnoc(cs: seq<Candle>, c: Candle, limit: int)
    ensures After(cs + [c], limit) == Next(After(cs, limit), c, limit)
    ensures var closed := Closed(After(cs, limit), c);
            ClosedBy(cs + [c], limit) == if closed.Some? then ClosedBy(cs, limit) + [closed.value] else ClosedBy(cs, limit)
  {
    assert (cs + [c])[..|cs|] == cs;
  }

  function Collapse(ends: seq<Candle>, c: Candle): seq<Candle> {
    (if ends != [] && ends[|ends| - 1].epoch == c.epoch then ends[..|ends| - 1] else ends) + [c]
  }

  lemma CollapseAfter(before: seq<Candle>, ends: seq<Candle>, c: Candle)
    requires ends != []
    ensures Collapse(before + ends, c) == before + Collapse(ends, c)
  {
    assert (before + ends)[..|before + ends| - 1] == before + ends[..|ends| - 1];
  }

  lemma {:induction false} RunEndsSnoc(cs: seq<Candle>, c: Candle)
    requires cs != []
    ensures RunEnds(cs) != [] && RunEnds(cs)[|RunEnds(cs)| - 1] == cs[|cs| - 1]
    ensures RunEnds(cs + [c]) == Collapse(RunEnds(cs), c)
  {
    if |cs| > 1 {
      RunEndsSnoc(cs[1..], c);
      assert (cs + [c])[1..] == cs[1..] + [c];
      CollapseAfter(if cs[0].epoch == cs[1].epoch then [] else [cs[0]], RunEnds(cs[1..]), c);
      hide Collapse;
    } else {
      assert (cs + [c])[1..] == [c];
    }
  }

  function OpenEpoch(ends: seq<Candle>): Option<int> {
    if ends == [] then None else Some(ends[|ends| - 1].epoch)
  }

  lemma ReplaceNewest(ends: seq<Candle>, c: Candle, n: nat)
    requires n >= 1 && ends != []
    ensures var kept := LastN(ends, n); kept[..|kept| - 1] + [c] == LastN(ends[..|ends| - 1] + [c], n)
  {
    if |ends| > n {
      var k := |ends| - n;
      assert (ends[..|ends| - 1] + [c])[k..] == ends[k..|ends| - 1] + [c];
      assert ends[k..][..n - 1] == ends[k..|ends| - 1];
    }
  }

  lemma AppendNewest(ends: seq<Candle>, c: Candle, n: nat)
    requires n >= 1
    ensures Bounded(LastN(ends, n) + [c], n) == LastN(ends + [c], n)
  {
    if |ends| >= n {
      assert (ends + [c])[|ends| + 1 - n..] == ends[|ends| - n..][1..] + [c];
    }
  }

  lemma NextHistory(ends: seq<Candle>, c: Candle, limit: int)
    ensures var t := Track(LastN(ends, MaxInt(0, limit)), OpenEpoch(ends));
            Next(t, c, limit) == Track(LastN(Collapse(ends, c), MaxInt(0, limit)), Some(c.epoch))
  {
    var t := Track(LastN(ends, MaxInt(0, limit)), OpenEpoch(ends));
    if limit <= 0 {
      assert t.history == [] && LastN(Collapse(ends, c), 0) == [];
    } else if Continues(t, c) {
      ReplaceNewest(ends, c, limit);
    } else {
      AppendNewest(ends, c, limit);
    }
  }

  lemma ClosedIs(ends: seq<Candle>, c: Candle, limit: int)
    ensures var t := Track(LastN(ends, MaxInt(0, limit)), OpenEpoch(ends));
            Closed(t, c) == if ends != [] && ends[|ends| - 1].epoch != c.epoch then OpenEpoch(ends) else None
  {
  }

  lemma ClosedEpochsCollapse(ends: seq<Candle>, c: Candle)
    requires ends != []
    ensures var last := ends[|ends| - 1].epoch;
            ClosedEpochs(Collapse(ends, c)) == if last == c.epoch then ClosedEpochs(ends) else ClosedEpochs(ends) + [last]
  {
    if ends[|ends| - 1].epoch == c.epoch {
      assert |Collapse(ends, c)| == |ends|;
    } else {
      assert |Collapse(ends, c)| == |ends| + 1;
    }
  }

  lemma NextClosed(ends: seq<Candle>, c: Candle, limit: int)
    ensures var t := Track(LastN(ends, MaxInt(0, limit)), OpenEpoch(ends));
            ClosedEpochs(Collapse(ends, c)) ==
            if Closed(t, c).Some? then ClosedEpochs(ends) + [Closed(t, c).value] else ClosedEpochs(ends)
  {
    ClosedIs(ends, c, limit);
    if ends == [] {
      assert Collapse(ends, c) == [c];
    } else {
      ClosedEpochsCollapse(ends, c);
      hide Closed, ClosedEpochs, Collapse, LastN;
    }
  }

  lemma CollapseIsRunEnds(cs: seq<Candle>, c: Candle)
    ensures RunEnds(cs + [c]) == Collapse(RunEnds(cs), c)
    ensures OpenEpoch(RunEnds(cs)) == OpenEpoch(cs)
  {
    if cs == [] {
      assert cs + [c] == [c];
    } else {
      RunEndsSnoc(cs, c);
    }
  }

  /**
   From empty buffers and whatever the limit, a symbol's buffer is the newest part of its collapsed input and the
   epochs closed are all the collapsed ones but the open one, in order.
   */
  lemma {:induction false} WindowOnCollapsedInput(cs: seq<Candle>, limit: int)
    ensures After(cs, limit).history == LastN(RunEnds(cs), MaxInt(0, limit))
    ensures After(cs, limit).lastEpoch == OpenEpoch(cs)
    ensures ClosedBy(cs, limit) == ClosedEpochs(RunEnds(cs))
  {
    if cs != [] {
      var before, c := cs[..|cs| - 1], cs[|cs| - 1];
      assert cs == before + [c];
      WindowOnCollapsedInput(before, limit);
      CollapseIsRunEnds(before, c);
      RunSnoc(before, c, limit);
      NextHistory(RunEnds(before), c, limit);
      NextClosed(RunEnds(before), c, limit);
      hide RunEnds, Next, Closed, ClosedEpochs, After, ClosedBy, Collapse, LastN;
    }
  }

  lemma LastOfWindow(ends: seq<Candle>, n: nat)
    requires ends != [] && n >= 1
    ensures LastN(ends, n) != [] && LastN(ends, n)[|LastN(ends, n)| - 1] == ends[|ends| - 1]
  {
  }

  /** For a positive limit the newest candle is always in the buffer. */
  lemma NewestIsKept(cs: seq<Candle>, limit: int)
    requires limit >= 1
    ensures var h := After(cs, limit).history;
            (h == [] <==> cs == []) && (cs != [] ==> h[|h| - 1] == cs[|cs| - 1])
  {
    if cs != [] {
      hide *;
      WindowOnCollapsedInput(cs, limit);
      RunEndsSnoc(cs, cs[0]);
      LastOfWindow(RunEnds(cs), limit);
      assert MaxInt(0, limit) == limit by {
        LimitItself(limit);
      }
    }
  }

  lemma LimitItself(limit: int)
    requires limit >= 1
    ensures MaxInt(0, limit) == limit
  {
  }

  /** For a positive limit an update is reported exactly when the candle has the epoch of the one before it. */
  lemma UpdateContinuesRun(cs: seq<Candle>, c: Candle, limit: int)
    requires limit >= 1
    ensures Answer(After(cs, limit), c).event == Update <==> cs != [] && cs[|cs| - 1].epoch == c.epoch
  {
    NewestIsKept(cs, limit);
    hide After, Closed;
  }
}
