/**
 The circular tick buffer, in its Python and its Rust implementation. Both refine a log of the ticks
 pushed since the last clear; the Rust cursor is a 64-bit word that wraps around.
 */
module RingBuffer {
  import opened Numeric
  import opened BitMask
  import opened Trading

  datatype Tick = Tick(epoch: int, price: real)

  // ---------- The log ----------

  function Held(pushes: nat, capacity: nat): nat { MinInt(pushes, capacity) }

  /** The last n entries of the log that are still held. */
  function Window(log: seq<Tick>, capacity: nat, n: int): seq<Tick> {
    log[|log| - MinInt(MaxInt(n, 0), Held(|log|, capacity))..]
  }

  function Epochs(w: seq<Tick>): seq<int> { seq(|w|, i requires 0 <= i < |w| => w[i].epoch) }
  function Prices(w: seq<Tick>): seq<real> { seq(|w|, i requires 0 <= i < |w| => w[i].price) }

  lemma Columns(w: seq<Tick>)
    ensures |Epochs(w)| == |w| == |Prices(w)|
    ensures w == [] ==> Epochs(w) == [] && Prices(w) == []
  {
  }

  lemma ColumnsSnoc(log: seq<Tick>, start: nat, i: nat)
    requires start <= i < |log|
    ensures Epochs(log[start..i + 1]) == Epochs(log[start..i]) + [log[i].epoch]
    ensures Prices(log[start..i + 1]) == Prices(log[start..i]) + [log[i].price]
  {
  }

  function Latest(log: seq<Tick>): Option<Tick> {
    if log == [] then None else Some(log[|log| - 1])
  }

  /** The slots hold every entry of the log that is still held, at its index modulo the capacity. */
  ghost predicate Holds(log: seq<Tick>, epochs: seq<int>, prices: seq<real>) {
    && |epochs| == |prices| && |epochs| > 0
    && forall i: nat :: |log| - |epochs| <= i < |log| ==> StoredAt(log, epochs, prices, i)
  }

  ghost predicate StoredAt(log: seq<Tick>, epochs: seq<int>, prices: seq<real>, i: nat)
    requires |epochs| == |prices| > 0 && i < |log|
  {
    log[i] == Tick(epochs[i % |epochs|], prices[i % |epochs|])
  }

  lemma SlotsDiffer(i: nat, j: nat, capacity: nat)
    requires 0 < j - i < capacity
    ensures i % capacity != j % capacity
  {
    var d := j / capacity - i / capacity;
    assert d * capacity == j - i - (j % capacity - i % capacity);
    MultipleBound(d, capacity);
  }

  /** Writing the next entry over the oldest slot keeps all the others. */
  lemma PushHolds(log: seq<Tick>, epochs: seq<int>, prices: seq<real>, t: Tick)
    requires Holds(log, epochs, prices)
    ensures var slot := |log| % |epochs|; Holds(log + [t], epochs[slot := t.epoch], prices[slot := t.price])
  {
    var slot, log' := |log| % |epochs|, log + [t];
    var epochs', prices' := epochs[slot := t.epoch], prices[slot := t.price];
    forall i: nat | |log'| - |epochs'| <= i < |log'| ensures StoredAt(log', epochs', prices', i) {
      if i < |log| {
        SlotsDiffer(i, |log|, |epochs|);
        assert StoredAt(log, epochs, prices, i);
      }
    }
  }

  // ---------- The Python buffer ----------

  class DisruptorRingBuffer {
    const capacity: nat
    const mask: nat
    var sequence: nat
    const epochs: array<int>
    const prices: array<real>
    ghost const bits: nat
    ghost var log: seq<Tick>

    ghost predicate Valid()
      reads this, epochs, prices
    {
      && capacity == Pow2(bits) && mask == capacity - 1
      && epochs.Length == capacity && prices.Length == capacity
      && sequence == |log| && Holds(log, epochs[..], prices[..])
    }

    constructor (size: nat)
      requires IsPow2(size)
      ensures Valid() && capacity == size && log == [] && fresh(epochs) && fresh(prices)
    {
      ghost var k: nat :| size == Pow2(k);
      capacity, mask, sequence := size, size - 1, 0;
      epochs := new int[size](_ => 0);
      prices := new real[size](_ => 0.0);
      bits, log := k, [];
    }

    /** Nothing but a positive power of two is accepted. */
    static method Create(size: int) returns (b: DisruptorRingBuffer?)
      ensures b == null <==> !(size > 0 && IsPow2(size))
      ensures b != null ==> fresh(b) && fresh(b.epochs) && fresh(b.prices) && b.Valid() && b.capacity == size && b.log == []
    {
      if size <= 0 || BitAnd(size, size - 1) != 0 {
        if size > 0 { BitTest(size); }
        return null;
      }
      BitTest(size);
      b := new DisruptorRingBuffer(size);
    }

    function Count(): (n: nat)
      requires Valid()
      reads this, epochs, prices
      ensures n == Held(|log|, capacity)
    {
      MinInt(sequence, capacity)
    }

    method PushTick(epoch: int, price: real) returns (seqNo: nat)
      requires Valid()
      modifies this`sequence, this`log, epochs, prices
      ensures Valid() && log == old(log) + [Tick(epoch, price)] && seqNo == |old(log)|
    {
      MaskIsRemainder(sequence, bits);
      PushHolds(log, epochs[..], prices[..], Tick(epoch, price));
      var slot := BitAnd(sequence, mask);
      epochs[slot] := epoch;
      prices[slot] := price;
      seqNo := sequence;
      sequence := sequence + 1;
      log := log + [Tick(epoch, price)];
      assert epochs[..] == old(epochs[..])[slot := epoch] && prices[..] == old(prices[..])[slot := price];
    }

    /** Where entry i of the log is, while it is held. */
    lemma SlotOf(i: nat)
      requires Valid() && |log| - capacity <= i < |log|
      ensures var slot := BitAnd(i, mask); slot < capacity && log[i] == Tick(epochs[slot], prices[slot])
    {
      MaskIsRemainder(i, bits);
      assert StoredAt(log, epochs[..], prices[..], i);
    }

    method LatestTick() returns (t: Option<Tick>)
      requires Valid()
      ensures t == Latest(log)
    {
      if sequence == 0 {
        return None;
      }
      SlotOf(sequence - 1);
      var slot := BitAnd(sequence - 1, mask);
      t := Some(Tick(epochs[slot], prices[slot]));
    }

    method LatestWindow(n: int) returns (windowEpochs: seq<int>, windowPrices: seq<real>)
      requires Valid()
      ensures windowEpochs == Epochs(Window(log, capacity, n)) && windowPrices == Prices(Window(log, capacity, n))
    {
      hide BitAnd, Holds, Epochs, Prices, Pow2;
      windowEpochs, windowPrices := [], [];
      Columns([]);
      if n <= 0 || sequence == 0 {
        assert Window(log, capacity, n) == [];
        return;
      }
      var target := MinInt(n, Count());
      var start := sequence - target;
      var i := start;
      assert log[start..start] == [];
      while i < sequence
        invariant start <= i <= sequence
        invariant windowEpochs == Epochs(log[start..i]) && windowPrices == Prices(log[start..i])
      {
        SlotOf(i);
        ColumnsSnoc(log, start, i);
        var slot := BitAnd(i, mask);
        windowEpochs := windowEpochs + [epochs[slot]];
        windowPrices := windowPrices + [prices[slot]];
        i := i + 1;
      }
      assert log[start..sequence] == log[start..];
    }

    method GetPricesArray(n: int) returns (windowPrices: seq<real>)
      requires Valid()
      ensures windowPrices == Prices(Window(log, capacity, n))
    {
      hide BitAnd, Holds, Epochs, Prices, Pow2;
      windowPrices := [];
      Columns([]);
      if n <= 0 || sequence == 0 {
        assert Window(log, capacity, n) == [];
        return;
      }
      var target := MinInt(n, Count());
      var start := sequence - target;
      var i := start;
      assert log[start..start] == [];
      while i < sequence
        invariant start <= i <= sequence
        invariant windowPrices == Prices(log[start..i])
      {
        SlotOf(i);
        ColumnsSnoc(log, start, i);
        windowPrices := windowPrices + [prices[BitAnd(i, mask)]];
        i := i + 1;
      }
      assert log[start..sequence] == log[start..];
    }

    method Clear()
      requires Valid()
      modifies this`sequence, this`log, epochs, prices
      ensures Valid() && log == []
    {
      sequence := 0;
      log := [];
      forall i | 0 <= i < epochs.Length { epochs[i] := 0; }
      forall i | 0 <= i < prices.Length { prices[i] := 0.0; }
    }
  }

  // ---------- The Rust buffer ----------

  const WORD: nat := 0x1_0000_0000_0000_0000

  lemma PowerOfFour()
    ensures Pow2(4) == 16
  {
    assert Pow2(2) == 4;
  }

  lemma WordIsPow2()
    ensures Pow2(64) == WORD
  {
    PowerOfFour();
    PowerSum(4, 4);
    PowerSum(8, 8);
    PowerSum(16, 16);
    PowerSum(32, 32);
  }

  lemma {:induction false} PowerSum(i: nat, j: nat)
    ensures Pow2(i + j) == Pow2(i) * Pow2(j)
  {
    if i > 0 {
      PowerSum(i - 1, j);
    }
  }

  /** A wrapped cursor still selects the right slot. */
  lemma WrappedSlot(pushes: nat, bits: nat)
    requires Pow2(bits) <= WORD
    ensures BitAnd(pushes % WORD, Pow2(bits) - 1) == pushes % Pow2(bits)
  {
    WordIsPow2();
    PowersDivide(bits, 64);
    NestedRemainder(pushes, WORD, Pow2(bits));
    MaskIsRemainder(pushes % WORD, bits);
  }

  class RustRingBuffer {
    const capacity: nat
    const mask: nat
    var sequence: nat
    const epochs: array<int>
    const prices: array<real>
    ghost const bits: nat
    ghost var log: seq<Tick>

    ghost predicate Valid()
      reads this, epochs, prices
    {
      && capacity == Pow2(bits) < WORD && mask == capacity - 1
      && epochs.Length == capacity && prices.Length == capacity
      && sequence == |log| % WORD && Holds(log, epochs[..], prices[..])
    }

    constructor (size: nat)
      requires IsPow2(size) && size < WORD
      ensures Valid() && capacity == size && log == [] && fresh(epochs) && fresh(prices)
    {
      ghost var k: nat :| size == Pow2(k);
      capacity, mask, sequence := size, size - 1, 0;
      epochs := new int[size](_ => 0);
      prices := new real[size](_ => 0.0);
      bits, log := k, [];
    }

    static method Create(size: nat) returns (b: RustRingBuffer?)
      requires size < WORD
      ensures b == null <==> !(size > 0 && IsPow2(size))
      ensures b != null ==> fresh(b) && fresh(b.epochs) && fresh(b.prices) && b.Valid() && b.capacity == size && b.log == []
    {
      if size == 0 || BitAnd(size, size - 1) != 0 {
        if size > 0 { BitTest(size); }
        return null;
      }
      BitTest(size);
      b := new RustRingBuffer(size);
    }

    method PushTick(epoch: int, price: real) returns (seqNo: nat)
      requires Valid()
      modifies this`sequence, this`log, epochs, prices
      ensures Valid() && log == old(log) + [Tick(epoch, price)] && seqNo == |old(log)| % WORD
    {
      WrappedSlot(|log|, bits);
      PushHolds(log, epochs[..], prices[..], Tick(epoch, price));
      var slot := BitAnd(sequence, mask);
      epochs[slot] := epoch;
      prices[slot] := price;
      seqNo := sequence;
      NextWord(|log|);
      sequence := (sequence + 1) % WORD;
      log := log + [Tick(epoch, price)];
      assert epochs[..] == old(epochs[..])[slot := epoch] && prices[..] == old(prices[..])[slot := price];
    }

    method Count() returns (n: nat)
      requires Valid()
      ensures n == WrappedCount(log, capacity)
    {
      n := MinInt(sequence, capacity);
    }

    method LatestTick() returns (t: Option<Tick>)
      requires Valid()
      ensures t == WrappedLatest(log)
    {
      if sequence == 0 {
        return None;
      }
      PreviousWord(|log|);
      WrappedSlot(|log| - 1, bits);
      var slot := BitAnd(sequence - 1, mask);
      assert StoredAt(log, epochs[..], prices[..], |log| - 1);
      t := Some(Tick(epochs[slot], prices[slot]));
    }

    method Clear()
      requires Valid()
      modifies this`sequence, this`log, epochs, prices
      ensures Valid() && log == []
    {
      sequence := 0;
      log := [];
      forall i | 0 <= i < epochs.Length { epochs[i] := 0; }
      forall i | 0 <= i < prices.Length { prices[i] := 0.0; }
    }
  }

  lemma NextWord(n: nat)
    ensures (n % WORD + 1) % WORD == (n + 1) % WORD
  {
  }

  lemma PreviousWord(n: nat)
    requires n % WORD != 0
    ensures n > 0 && n % WORD - 1 == (n - 1) % WORD
  {
  }

  function WrappedCount(log: seq<Tick>, capacity: nat): nat { Held(|log| % WORD, capacity) }
  function WrappedLatest(log: seq<Tick>): Option<Tick> { if |log| % WORD == 0 then None else Latest(log) }

  /** The two buffers report the same count and latest tick exactly until the cursor of the Rust one wraps. */
  lemma BuffersAgree(log: seq<Tick>, capacity: nat)
    requires 0 < capacity < WORD
    ensures WrappedCount(log, capacity) == Held(|log|, capacity) && WrappedLatest(log) == Latest(log) <==>
            |log| < WORD || |log| % WORD >= capacity
  {
    if |log| >= WORD && |log| % WORD < capacity {
      assert WrappedCount(log, capacity) == |log| % WORD;
      assert Held(|log|, capacity) == capacity;
    }
  }

  /** After exactly 2^64 pushes the Rust buffer reports nothing, while every slot is still in use. */
  lemma WrappedBufferLooksEmpty(capacity: nat)
    requires 0 < capacity < WORD
    ensures var log := seq(WORD, _ => Tick(0, 0.0));
            WrappedCount(log, capacity) == 0 && WrappedLatest(log) == None && Held(|log|, capacity) == capacity && Latest(log).Some?
  {
  }

  // ---------- Runs ----------

  datatype Op = Push(tick: Tick) | Clear

  function LogOf(ops: seq<Op>): seq<Tick> {
    if ops == [] then []
    else match ops[|ops| - 1]
      case Push(t) => LogOf(ops[..|ops| - 1]) + [t]
      case Clear => []
  }

  /** Both buffers driven by the same operations hold the same log, whatever the operations are. */
  method Replay(size: nat, ops: seq<Op>) returns (python: DisruptorRingBuffer?, rust: RustRingBuffer?)
    requires size < WORD
    ensures (python == null <==> !(size > 0 && IsPow2(size))) && (rust == null <==> python == null)
    ensures python != null ==> python.Valid() && python.log == LogOf(ops) && python.capacity == size
    ensures rust != null ==> rust.Valid() && rust.log == LogOf(ops) && rust.capacity == size
  {
    python := DisruptorRingBuffer.Create(size);
    rust := RustRingBuffer.Create(size);
    if python == null || rust == null {
      return;
    }
    for i := 0 to |ops|
      invariant python.Valid() && rust.Valid() && python.log == rust.log == LogOf(ops[..i])
      invariant fresh(python) && fresh(rust) && fresh(python.epochs) && fresh(python.prices) && fresh(rust.epochs) && fresh(rust.prices)
      invariant python.epochs != rust.epochs && python.prices != rust.prices
    {
      assert ops[..i + 1][..i] == ops[..i];
      match ops[i] {
        case Push(t) =>
          var _ := python.PushTick(t.epoch, t.price);
          var _ := rust.PushTick(t.epoch, t.price);
        case Clear =>
          python.Clear();
          rust.Clear();
      }
    }
    assert ops[..|ops|] == ops;
  }

  /** The log is what was pushed since the last clear. */
  lemma {:induction false} LogSinceClear(ops: seq<Op>, ticks: seq<Tick>)
    ensures LogOf(ops + [Clear] + Pushes(ticks)) == ticks
  {
    if ticks == [] {
      assert ops + [Clear] + Pushes(ticks) == ops + [Clear];
    } else {
      var n := |ticks| - 1;
      LogSinceClear(ops, ticks[..n]);
      assert (ops + [Clear] + Pushes(ticks))[..|ops| + 1 + n] == ops + [Clear] + Pushes(ticks[..n]);
      assert ticks == ticks[..n] + [ticks[n]];
    }
  }

  function Pushes(ticks: seq<Tick>): seq<Op> {
    seq(|ticks|, i requires 0 <= i < |ticks| => Push(ticks[i]))
  }
}
