/**
 The pending-loss ledger: one amount per symbol, in insertion order, as the source's dictionary
 keeps it. The order matters, because wins pay off the oldest entry first.
 */
module PendingLoss {
  import opened Numeric

  datatype Entry = Entry(symbol: string, amount: real)

  type Ledger = seq<Entry>

  function Total(l: Ledger): real {
    if l == [] then 0.0 else l[0].amount + Total(l[1..])
  }

  ghost predicate NonNegative(l: Ledger) {
    forall i :: 0 <= i < |l| ==> l[i].amount >= 0.0
  }

  /** No two entries share a symbol. */
  ghost predicate Unique(l: Ledger) {
    forall i, j :: 0 <= i < j < |l| ==> l[i].symbol != l[j].symbol
  }

  predicate Has(l: Ledger, symbol: string) {
    exists i :: 0 <= i < |l| && l[i].symbol == symbol
  }

  function Get(l: Ledger, symbol: string): real {
    if l == [] then 0.0
    else if l[0].symbol == symbol then l[0].amount
    else Get(l[1..], symbol)
  }

  /** Overwrites in place, or appends a new entry at the end. */
  function Put(l: Ledger, symbol: string, amount: real): Ledger {
    if l == [] then [Entry(symbol, amount)]
    else if l[0].symbol == symbol then [Entry(symbol, amount)] + l[1..]
    else [l[0]] + Put(l[1..], symbol, amount)
  }

  function Pop(l: Ledger, symbol: string): Ledger {
    if l == [] then []
    else if l[0].symbol == symbol then l[1..]
    else [l[0]] + Pop(l[1..], symbol)
  }

  lemma {:induction false} TotalNonNegative(l: Ledger)
    requires NonNegative(l)
    ensures Total(l) >= 0.0
    ensures Total(l) == 0.0 <==> forall i :: 0 <= i < |l| ==> l[i].amount == 0.0
  {
    if l != [] {
      TotalNonNegative(l[1..]);
      if forall i :: 0 <= i < |l| ==> l[i].amount == 0.0 {
        assert l[0].amount == 0.0;
        assert forall i :: 0 <= i < |l[1..]| ==> l[1..][i].amount == 0.0;
      } else if Total(l) == 0.0 {
        forall i | 0 <= i < |l| ensures l[i].amount == 0.0 {
          assert i > 0 ==> l[i] == l[1..][i - 1];
        }
      }
    }
  }

  lemma {:induction false} PutEffect(l: Ledger, symbol: string, amount: real)
    ensures Total(Put(l, symbol, amount)) == Total(l) - Get(l, symbol) + amount
    ensures Get(Put(l, symbol, amount), symbol) == amount
    ensures NonNegative(l) && amount >= 0.0 ==> NonNegative(Put(l, symbol, amount))
  {
    if l != [] && l[0].symbol != symbol {
      PutEffect(l[1..], symbol, amount);
      assert NonNegative(l) ==> NonNegative(l[1..]);
    }
  }

  lemma {:induction false} PutOthers(l: Ledger, symbol: string, amount: real, other: string)
    requires other != symbol
    ensures Get(Put(l, symbol, amount), other) == Get(l, other)
    ensures Get(Pop(l, symbol), other) == Get(l, other)
  {
    if l != [] {
      if l[0].symbol != symbol {
        PutOthers(l[1..], symbol, amount, other);
      }
    }
  }

  lemma {:induction false} PopEffect(l: Ledger, symbol: string)
    ensures Total(Pop(l, symbol)) == Total(l) - Get(l, symbol)
    ensures NonNegative(l) ==> NonNegative(Pop(l, symbol)) && Get(l, symbol) >= 0.0
  {
    if l != [] && l[0].symbol != symbol {
      PopEffect(l[1..], symbol);
      assert NonNegative(l) ==> NonNegative(l[1..]);
    }
  }

  lemma {:induction false} KeysPreserved(l: Ledger, symbol: string, amount: real)
    ensures forall s :: Has(Put(l, symbol, amount), s) <==> Has(l, s) || s == symbol
    ensures Unique(l) ==> Unique(Put(l, symbol, amount)) && Unique(Pop(l, symbol))
    ensures Unique(l) ==> forall s :: Has(Pop(l, symbol), s) <==> Has(l, s) && s != symbol
  {
    if l == [] {
      HasCons(Entry(symbol, amount), l);
      assert [Entry(symbol, amount)] + l == [Entry(symbol, amount)];
    } else {
      var t := l[1..];
      assert l == [l[0]] + t;
      HasCons(l[0], t);
      if l[0].symbol == symbol {
        HasCons(Entry(symbol, amount), t);
      } else {
        KeysPreserved(t, symbol, amount);
        HasCons(l[0], Put(t, symbol, amount));
        HasCons(l[0], Pop(t, symbol));
      }
    }
  }

  lemma HasCons(e: Entry, l: Ledger)
    ensures forall s :: Has([e] + l, s) <==> e.symbol == s || Has(l, s)
    ensures Unique([e] + l) <==> !Has(l, e.symbol) && Unique(l)
  {
    var m := [e] + l;
    forall s ensures Has(m, s) <==> e.symbol == s || Has(l, s) {
      if Has(l, s) {
        var i :| 0 <= i < |l| && l[i].symbol == s;
        assert m[i + 1].symbol == s;
      }
      if e.symbol == s {
        assert m[0].symbol == s;
      }
    }
    if Unique(m) {
      forall i, j | 0 <= i < j < |l| ensures l[i].symbol != l[j].symbol {
        assert m[i + 1] == l[i] && m[j + 1] == l[j];
      }
      forall i | 0 <= i < |l| ensures l[i].symbol != e.symbol {
        assert m[0].symbol != m[i + 1].symbol;
      }
    }
  }

  // ---------- Paying off with a win ----------

  /** Spends a profit on the entries in order; the entry it runs out on is paid in part. */
  function Waterfall(l: Ledger, profit: real): Ledger {
    if l == [] || profit <= 0.0 then l
    else if l[0].amount <= profit then
      [Entry(l[0].symbol, 0.0)] + Waterfall(l[1..], profit - l[0].amount)
    else
      [Entry(l[0].symbol, l[0].amount - profit)] + l[1..]
  }

  lemma WaterfallHead(l: Ledger, profit: real)
    requires l != [] && profit > 0.0
    ensures Waterfall(l, profit) ==
            if l[0].amount <= profit then [Entry(l[0].symbol, 0.0)] + Waterfall(l[1..], profit - l[0].amount)
            else [Entry(l[0].symbol, l[0].amount - profit)] + Waterfall(l[1..], 0.0)
  {
  }

  lemma WaterfallDone(l: Ledger, profit: real)
    ensures l == [] || profit <= 0.0 ==> Waterfall(l, profit) == l
  {
  }

  /** The amount an entry keeps when the entries before it add up to `before`. */
  function Unpaid(before: real, amount: real, profit: real): real {
    Min(amount, Max(0.0, before + amount - profit))
  }

  /** Every entry of the ledger in closed form: oldest debts are paid first. */
  lemma {:induction false} WaterfallInOrder(l: Ledger, profit: real, i: nat)
    requires NonNegative(l) && profit >= 0.0 && i < |l|
    ensures |Waterfall(l, profit)| == |l| && Waterfall(l, profit)[i].symbol == l[i].symbol
    ensures Waterfall(l, profit)[i].amount == Unpaid(Total(l[..i]), l[i].amount, profit)
  {
    PrefixNonNegative(l, i);
    TotalNonNegative(l[..i]);
    if profit > 0.0 {
      WaterfallLength(l[1..], profit - l[0].amount);
      if i > 0 {
        assert l[..i][1..] == l[1..][..i - 1];
        PrefixNonNegative(l, i);
        TotalNonNegative(l[1..][..i - 1]);
        if l[0].amount <= profit {
          WaterfallInOrder(l[1..], profit - l[0].amount, i - 1);
        }
      }
    }
  }

  lemma PrefixNonNegative(l: Ledger, i: nat)
    requires NonNegative(l) && i <= |l|
    ensures NonNegative(l[..i])
    ensures i > 0 ==> NonNegative(l[1..]) && NonNegative(l[1..][..i - 1])
  {
  }

  lemma {:induction false} WaterfallLength(l: Ledger, profit: real)
    ensures |Waterfall(l, profit)| == |l|
    ensures forall i :: 0 <= i < |l| ==> Waterfall(l, profit)[i].symbol == l[i].symbol
  {
    if l != [] && profit > 0.0 && l[0].amount <= profit {
      WaterfallLength(l[1..], profit - l[0].amount);
    }
  }

  /** A win takes the total debt down by its profit, and never below zero. */
  lemma {:induction false} WaterfallTotal(l: Ledger, profit: real)
    requires NonNegative(l) && profit >= 0.0
    ensures Total(Waterfall(l, profit)) == Max(0.0, Total(l) - profit)
    ensures NonNegative(Waterfall(l, profit))
  {
    TotalNonNegative(l);
    if l != [] && profit > 0.0 {
      assert NonNegative(l[1..]);
      TotalNonNegative(l[1..]);
      if l[0].amount <= profit {
        WaterfallTotal(l[1..], profit - l[0].amount);
      }
    }
  }

  lemma WaterfallUnique(l: Ledger, profit: real)
    requires Unique(l)
    ensures Unique(Waterfall(l, profit))
  {
    WaterfallLength(l, profit);
    hide Waterfall;
  }

  /** Repeated wins of the same size. */
  function Wins(l: Ledger, profit: real, n: nat): Ledger {
    if n == 0 then l else Waterfall(Wins(l, profit, n - 1), profit)
  }

  lemma {:induction false} WinsTotal(l: Ledger, profit: real, n: nat)
    requires NonNegative(l) && profit >= 0.0
    ensures NonNegative(Wins(l, profit, n))
    ensures Total(Wins(l, profit, n)) == Max(0.0, Total(l) - Times(n as real, profit))
  {
    hide Times, Waterfall, Total;
    TotalNonNegative(l);
    TimesSuccessor(if n == 0 then 0 else n - 1, profit);
    if n > 0 {
      WinsTotal(l, profit, n - 1);
      WaterfallTotal(Wins(l, profit, n - 1), profit);
    }
  }

  // ---------- The payoff residual ----------

  /** Corrects a symbol's debt by the cents between the expected and the actual payoff. */
  function ApplyResidual(l: Ledger, symbol: string, residual: real): Ledger {
    if residual == 0.0 then l
    else if residual < 0.0 && -residual <= 0.10 && Get(l, symbol) <= 0.0 then Pop(l, symbol)
    else
      var updated := Max(0.0, Get(l, symbol) - residual);
      if updated <= 0.0 then Pop(l, symbol) else Put(l, symbol, updated)
  }

  /** The residual moves the total by at most its own size, and leaves a cleared ledger cleared. */
  lemma ResidualEffect(l: Ledger, symbol: string, residual: real)
    requires NonNegative(l) && Abs(residual) <= 0.10
    ensures NonNegative(ApplyResidual(l, symbol, residual))
    ensures Abs(Total(ApplyResidual(l, symbol, residual)) - Total(l)) <= Abs(residual)
    ensures Total(l) == 0.0 ==> Total(ApplyResidual(l, symbol, residual)) == 0.0
    ensures Unique(l) ==> Unique(ApplyResidual(l, symbol, residual))
    ensures forall other :: other != symbol ==> Get(ApplyResidual(l, symbol, residual), other) == Get(l, other)
  {
    var updated := Max(0.0, Get(l, symbol) - residual);
    PopEffect(l, symbol);
    PutEffect(l, symbol, updated);
    KeysPreserved(l, symbol, updated);
    forall other | other != symbol
      ensures Get(Put(l, symbol, updated), other) == Get(l, other)
      ensures Get(Pop(l, symbol), other) == Get(l, other)
    {
      PutOthers(l, symbol, updated, other);
    }
    TotalNonNegative(l);
    TotalNonNegative(Pop(l, symbol));
  }
}
