/** The derived metrics of the ledger. The store computes them as the
    backend does, by filtering the transactions on their type and summing the
    amounts; `Tally`, a running ledger that books one transaction at a time,
    is the independent definition they are proved equal to. */
module Metrics {
  import opened JsValues

  datatype Metrics = Metrics(totalRevenue: int, totalExpenses: int, netIncome: int)

  const Zero := Metrics(0, 0, 0)

  function Plus(a: Metrics, b: Metrics): Metrics
  {
    Metrics(a.totalRevenue + b.totalRevenue, a.totalExpenses + b.totalExpenses, a.netIncome + b.netIncome)
  }

  /** `t.type === ty` */
  predicate HasType(t: Record, ty: string)
  {
    Field(t, "type") == Some(Text(ty))
  }

  /** `Number(t.amount) || 0`: a NaN amount counts as 0. */
  function AmountOf(t: Record): int
  {
    match ToNumber(Field(t, "amount"))
    case Some(n) => n
    case None => 0
  }

  /** `transactions.filter(t => t.type === ty)` */
  function OfType(ts: seq<Record>, ty: string): seq<Record>
    decreases |ts|
  {
    if ts == [] then []
    else OfType(ts[..|ts| - 1], ty) + (if HasType(ts[|ts| - 1], ty) then [ts[|ts| - 1]] else [])
  }

  /** `.reduce((sum, t) => sum + (Number(t.amount) || 0), 0)` */
  function SumAmounts(ts: seq<Record>): int
    decreases |ts|
  {
    if ts == [] then 0 else SumAmounts(ts[..|ts| - 1]) + AmountOf(ts[|ts| - 1])
  }

  /** The metrics `updateMetrics` stores for a transaction collection. */
  function MetricsOf(ts: seq<Record>): (m: Metrics)
    ensures m.netIncome == m.totalRevenue - m.totalExpenses
  {
    var revenue := SumAmounts(OfType(ts, "income"));
    var expenses := SumAmounts(OfType(ts, "expense"));
    Metrics(revenue, expenses, revenue - expenses)
  }

  /** What booking one transaction adds: income raises revenue and net
      income, an expense raises expenses and lowers net income, any other
      type changes nothing. */
  function Effect(t: Record): Metrics
  {
    if HasType(t, "income") then Metrics(AmountOf(t), 0, AmountOf(t))
    else if HasType(t, "expense") then Metrics(0, AmountOf(t), -AmountOf(t))
    else Zero
  }

  /** The running ledger: book the transactions one after the other. */
  function Tally(ts: seq<Record>): Metrics
    decreases |ts|
  {
    if ts == [] then Zero else Plus(Tally(ts[..|ts| - 1]), Effect(ts[|ts| - 1]))
  }

  lemma OfTypeAppend(ts: seq<Record>, t: Record, ty: string)
    ensures OfType(ts + [t], ty) == OfType(ts, ty) + (if HasType(t, ty) then [t] else [])
  {
    assert (ts + [t])[..|ts|] == ts;
  }

  lemma SumAmountsAppend(ts: seq<Record>, t: Record)
    ensures SumAmounts(ts + [t]) == SumAmounts(ts) + AmountOf(t)
  {
    assert (ts + [t])[..|ts|] == ts;
  }

  /** The stored metrics total the income amounts as revenue and the expense
      amounts as expenses, with their difference as net income. */
  lemma {:induction false} MetricsIsTally(ts: seq<Record>)
    ensures MetricsOf(ts) == Tally(ts)
    ensures Tally(ts).netIncome == Tally(ts).totalRevenue - Tally(ts).totalExpenses
    decreases |ts|
  {
    if ts != [] {
      var p, t := ts[..|ts| - 1], ts[|ts| - 1];
      assert ts == p + [t];
      MetricsIsTally(p);
      OfTypeAppend(p, t, "income");
      OfTypeAppend(p, t, "expense");
      SumAmountsAppend(OfType(p, "income"), t);
      SumAmountsAppend(OfType(p, "expense"), t);
      assert SumAmounts(OfType(p, "income") + []) == SumAmounts(OfType(p, "income")) by {
        assert OfType(p, "income") + [] == OfType(p, "income");
      }
      assert SumAmounts(OfType(p, "expense") + []) == SumAmounts(OfType(p, "expense")) by {
        assert OfType(p, "expense") + [] == OfType(p, "expense");
      }
      assert Tally(ts) == Plus(Tally(p), Effect(t));
    }
  }

  /** Appending a transaction adds exactly its effect to the metrics. */
  lemma MetricsAppend(ts: seq<Record>, t: Record)
    ensures MetricsOf(ts + [t]) == Plus(MetricsOf(ts), Effect(t))
  {
    MetricsIsTally(ts);
    MetricsIsTally(ts + [t]);
    assert (ts + [t])[..|ts|] == ts;
  }

  lemma {:induction false} TallyConcat(a: seq<Record>, b: seq<Record>)
    ensures Tally(a + b) == Plus(Tally(a), Tally(b))
    decreases |b|
  {
    if b == [] {
      assert a + b == a;
    } else {
      var p, t := b[..|b| - 1], b[|b| - 1];
      assert a + b == (a + p) + [t];
      assert ((a + p) + [t])[..|a + p|] == a + p;
      TallyConcat(a, p);
    }
  }

  /** The metrics of a concatenation are the sums of the parts' metrics:
      where a transaction sits in the collection does not matter. */
  lemma MetricsConcat(a: seq<Record>, b: seq<Record>)
    ensures MetricsOf(a + b) == Plus(MetricsOf(a), MetricsOf(b))
  {
    MetricsIsTally(a);
    MetricsIsTally(b);
    MetricsIsTally(a + b);
    TallyConcat(a, b);
  }

  /** A transaction whose type is neither income nor expense, or whose amount
      is NaN or 0, leaves the metrics as they are, wherever it stands. */
  lemma NeutralTransaction(a: seq<Record>, t: Record, b: seq<Record>)
    requires (!HasType(t, "income") && !HasType(t, "expense")) || ToNumber(Field(t, "amount")) in {None, Some(0)}
    ensures MetricsOf(a + [t] + b) == MetricsOf(a + b)
  {
    MetricsRemove(a, t, b);
  }

  /** Replacing one transaction swaps its effect for that of the new one. */
  lemma MetricsReplace(ts: seq<Record>, i: nat, t: Record)
    requires i < |ts|
    ensures Plus(MetricsOf(ts[i := t]), Effect(ts[i])) == Plus(MetricsOf(ts), Effect(t))
  {
    var a, u, b := ts[..i], ts[i], ts[i + 1..];
    var rest := MetricsOf(a + b);
    SplitAt(ts, i, t);
    MetricsRemove(a, u, b);
    MetricsRemove(a, t, b);
    PlusSwap(rest, Effect(u), Effect(t));
  }

  lemma PlusSwap(r: Metrics, x: Metrics, y: Metrics)
    ensures Plus(Plus(r, x), y) == Plus(Plus(r, y), x)
  {
  }

  lemma SplitAt<T>(s: seq<T>, i: nat, x: T)
    requires i < |s|
    ensures s == s[..i] + [s[i]] + s[i + 1..]
    ensures s[i := x] == s[..i] + [x] + s[i + 1..]
  {
  }

  /** Removing one transaction takes away exactly its effect. */
  lemma MetricsRemove(a: seq<Record>, t: Record, b: seq<Record>)
    ensures Plus(MetricsOf(a + b), Effect(t)) == MetricsOf(a + [t] + b)
  {
    var ma, mb, e := MetricsOf(a), MetricsOf(b), Effect(t);
    MetricsConcat(a + [t], b);
    MetricsAppend(a, t);
    MetricsConcat(a, b);
    PlusSwap(ma, mb, e);
  }
}
