/** The request handlers of the ledger: creation gated on validation, the
    debt defaults, not-found reporting for updates and deletions, and the
    debt payment rule, which changes two records. Each handler is one
    sequential step on the store; HTTP status codes and response texts are
    summarised by `Outcome`. */
module Controller {
  import opened JsValues
  import opened Validate
  import opened Metrics
  import opened Storage

  datatype Outcome =
    | Created(item: Record)
    | Updated(item: Record)
    | Deleted
    | ValidationError(errors: seq<string>)
    | NotFound

  /** The collection a handler works on. */
  datatype Kind = Transactions | Customers | Debts {
    function Collection(): string
    {
      match this
      case Transactions => TransactionsName
      case Customers => CustomersName
      case Debts => DebtsName
    }
  }

  /** A transaction is booked with the income or expense type it was
      validated with, so it moves exactly one of revenue and expenses. */
  lemma ValidTransactionEffect(body: Record, id: string, now: string)
    requires ValidateTransaction(body) == []
    ensures var t := NewRecord(body, id, now);
      || Effect(t) == Metrics(AmountOf(t), 0, AmountOf(t))
      || Effect(t) == Metrics(0, AmountOf(t), -AmountOf(t))
  {
  }

  method CreateTransaction(store: Store, body: Record, id: string, now: string) returns (out: Outcome)
    requires store.Valid()
    modifies store
    ensures store.Valid()
    ensures ValidateTransaction(body) != [] ==>
      out == ValidationError(ValidateTransaction(body)) && store.collections == old(store.collections) && store.metrics == old(store.metrics)
    ensures ValidateTransaction(body) == [] ==>
      && out == Created(NewRecord(body, id, now))
      && store.collections == old(store.collections)[TransactionsName := old(store.Items(TransactionsName)) + [out.item]]
      && store.metrics == Plus(old(store.metrics), Effect(out.item))
  {
    var errors := ValidateTransaction(body);
    if |errors| > 0 {
      return ValidationError(errors);
    }
    var transaction := store.AddItem(TransactionsName, body, id, now);
    out := Created(transaction);
  }

  method CreateCustomer(store: Store, body: Record, id: string, now: string) returns (out: Outcome)
    requires store.Valid()
    modifies store
    ensures store.Valid()
    ensures ValidateCustomer(body) != [] ==>
      out == ValidationError(ValidateCustomer(body)) && store.collections == old(store.collections) && store.metrics == old(store.metrics)
    ensures ValidateCustomer(body) == [] ==>
      && out == Created(NewRecord(body, id, now))
      && store.collections == old(store.collections)[CustomersName := old(store.Items(CustomersName)) + [out.item]]
      && store.metrics == old(store.metrics)
  {
    var errors := ValidateCustomer(body);
    if |errors| > 0 {
      return ValidationError(errors);
    }
    var customer := store.AddItem(CustomersName, body, id, now);
    out := Created(customer);
  }

  /** `{ ...body, status: 'unpaid', paidAmount: 0 }`: the defaults override
      whatever the request supplied for these two fields. */
  function DebtDefaults(body: Record): (d: Record)
    ensures d.Keys == body.Keys + {"status", "paidAmount"}
    ensures d["status"] == Text("unpaid") && d["paidAmount"] == Number(0)
    ensures forall k :: k in body && k != "status" && k != "paidAmount" ==> d[k] == body[k]
  {
    body + map["status" := Text("unpaid"), "paidAmount" := Number(0)]
  }

  method CreateDebt(store: Store, body: Record, id: string, now: string) returns (out: Outcome)
    requires store.Valid()
    modifies store
    ensures store.Valid()
    ensures ValidateDebt(body) != [] ==>
      out == ValidationError(ValidateDebt(body)) && store.collections == old(store.collections) && store.metrics == old(store.metrics)
    ensures ValidateDebt(body) == [] ==>
      && out == Created(NewRecord(DebtDefaults(body), id, now))
      && store.collections == old(store.collections)[DebtsName := old(store.Items(DebtsName)) + [out.item]]
      && store.metrics == old(store.metrics)
    ensures out.Created? ==> out.item["status"] == Text("unpaid") && out.item["paidAmount"] == Number(0)
  {
    var errors := ValidateDebt(body);
    if |errors| > 0 {
      return ValidationError(errors);
    }
    var debt := DebtDefaults(body);
    var result := store.AddItem(DebtsName, debt, id, now);
    out := Created(result);
  }

  /** `updateTransaction`, `updateCustomer`, `updateDebt`: no validation;
      not found exactly when the store finds no record with the id. */
  method UpdateRecord(store: Store, kind: Kind, id: string, body: Record, now: string) returns (out: Outcome)
    requires store.Valid()
    modifies store
    ensures store.Valid()
    ensures IndexOfId(old(store.Items(kind.Collection())), id) == -1 ==> out == NotFound && store.collections == old(store.collections) && store.metrics == old(store.metrics)
    ensures var rs := old(store.Items(kind.Collection())); var i := IndexOfId(rs, id);
      i >= 0 ==>
        && out == Updated(Merge(rs[i], body, now))
        && store.collections == old(store.collections)[kind.Collection() := rs[i := out.item]]
    ensures kind != Transactions ==> store.metrics == old(store.metrics)
  {
    var updated := store.UpdateItem(kind.Collection(), id, body, now);
    if updated.None? {
      return NotFound;
    }
    out := Updated(updated.value);
  }

  /** `deleteTransaction`, `deleteCustomer`, `deleteDebt`: not found exactly
      when the store reports that nothing was removed. */
  method DeleteRecord(store: Store, kind: Kind, id: string) returns (out: Outcome)
    requires store.Valid()
    modifies store
    ensures store.Valid()
    ensures out == Deleted || out == NotFound
    ensures out == Deleted <==> IndexOfId(old(store.Items(kind.Collection())), id) >= 0
    ensures out == Deleted ==>
      store.collections == old(store.collections)[kind.Collection() := Without(old(store.Items(kind.Collection())), id)]
    ensures out == NotFound ==> store.collections == old(store.collections) && store.metrics == old(store.metrics)
    ensures kind != Transactions ==> store.metrics == old(store.metrics)
  {
    var deleted := store.DeleteItem(kind.Collection(), id);
    if !deleted {
      return NotFound;
    }
    out := Deleted;
  }

  /** `(debt.paidAmount || 0) + Number(amount)`. */
  function PaidAfter(debt: Record, amount: int): Value
  {
    PlusNumber(if Truthy(Field(debt, "paidAmount")) then debt["paidAmount"] else Number(0), amount)
  }

  /** `newPaidAmount >= debt.amount ? 'paid' : 'partial'` */
  function StatusAfter(debt: Record, amount: int): string
  {
    if AtLeast(Some(PaidAfter(debt, amount)), Field(debt, "amount")) then "paid" else "partial"
  }

  /** The two fields `payDebt` merges into the debt. */
  function PaymentUpdates(debt: Record, amount: int): Record
  {
    map["paidAmount" := PaidAfter(debt, amount), "status" := Text(StatusAfter(debt, amount))]
  }

  /** The debt as `payDebt` stores it: only the paid amount, the status and
      the update stamp change. */
  function Settle(debt: Record, amount: int, now: string): (d: Record)
    ensures d.Keys == debt.Keys + {"paidAmount", "status", "updatedAt"}
    ensures d["paidAmount"] == PaidAfter(debt, amount)
    ensures d["status"] == Text("paid") || d["status"] == Text("partial")
    ensures d["status"] == Text("paid") <==> AtLeast(Some(d["paidAmount"]), Field(debt, "amount"))
    ensures d["updatedAt"] == Text(now)
    ensures forall k :: k in debt && k != "paidAmount" && k != "status" && k != "updatedAt" ==> d[k] == debt[k]
  {
    Merge(debt, PaymentUpdates(debt, amount), now)
  }

  /** With a numeric (or falsy) paid amount and a numeric debt amount the
      payment is plain arithmetic: the paid amount grows by exactly the
      payment, and the debt is paid iff that reaches the amount owed. Zero,
      negative and excess payments are taken as they are. */
  lemma NumericPayment(debt: Record, amount: int, now: string, prior: int, owed: int)
    requires Field(debt, "paidAmount") == Some(Number(prior)) || (!Truthy(Field(debt, "paidAmount")) && prior == 0)
    requires Field(debt, "amount") == Some(Number(owed))
    ensures Settle(debt, amount, now)["paidAmount"] == Number(prior + amount)
    ensures Settle(debt, amount, now)["status"] == Text("paid") <==> prior + amount >= owed
    ensures Settle(debt, amount, now)["status"] == Text("partial") <==> prior + amount < owed
  {
  }

  /** `Payment for debt: ${debt.description || 'Debt'} (${debt.customerName})` */
  function RepaymentDescription(debt: Record): string
  {
    var description := Field(debt, "description");
    "Payment for debt: " + (if Truthy(description) then ToText(description) else "Debt")
    + " (" + ToText(Field(debt, "customerName")) + ")"
  }

  /** The income transaction `payDebt` books for a payment. */
  function Repayment(debt: Record, amount: int, now: string): (r: Record)
    ensures r.Keys == {"amount", "type", "category", "description", "date"}
    ensures HasType(r, "income") && AmountOf(r) == amount
    ensures Field(r, "category") == Some(Text("Debt Repayment"))
    ensures Field(r, "date") == Some(Text(now))
  {
    map[
      "amount" := Number(amount),
      "type" := Text("income"),
      "category" := Text("Debt Repayment"),
      "description" := Text(RepaymentDescription(debt)),
      "date" := Text(now)]
  }

  /** The repayment transaction is income of exactly the payment. */
  lemma RepaymentEffect(debt: Record, amount: int, txId: string, now: string)
    ensures Effect(NewRecord(Repayment(debt, amount, now), txId, now)) == Metrics(amount, 0, amount)
  {
    var r := NewRecord(Repayment(debt, amount, now), txId, now);
    assert Field(r, "type") == Some(Text("income"));
    assert Field(r, "amount") == Some(Number(amount));
  }

  /** Booking the repayment raises revenue and net income by the payment and
      leaves expenses alone. */
  lemma RepaymentRaisesRevenue(ts: seq<Record>, debt: Record, amount: int, txId: string, now: string)
    ensures MetricsOf(ts + [NewRecord(Repayment(debt, amount, now), txId, now)])
      == Plus(MetricsOf(ts), Metrics(amount, 0, amount))
  {
    RepaymentEffect(debt, amount, txId, now);
    MetricsAppend(ts, NewRecord(Repayment(debt, amount, now), txId, now));
  }

  /** `payDebt`: find the debt, store its new paid amount and status, then
      book the payment as one income transaction. An unknown id changes
      nothing. */
  method PayDebt(store: Store, id: string, amount: int, txId: string, now: string) returns (out: Outcome)
    requires store.Valid()
    modifies store
    ensures store.Valid()
    ensures IndexOfId(old(store.Items(DebtsName)), id) == -1 ==> out == NotFound && store.collections == old(store.collections) && store.metrics == old(store.metrics)
    ensures var ds := old(store.Items(DebtsName)); var i := IndexOfId(ds, id);
      i >= 0 ==>
        var tx := NewRecord(Repayment(ds[i], amount, now), txId, now);
        && out == Updated(Settle(ds[i], amount, now))
        && store.collections == old(store.collections)
             [DebtsName := ds[i := out.item]]
             [TransactionsName := old(store.Items(TransactionsName)) + [tx]]
        && store.metrics == Plus(old(store.metrics), Metrics(amount, 0, amount))
  {
    var debts := store.GetItems(DebtsName);
    var i := IndexOfId(debts, id);
    if i == -1 {
      return NotFound;
    }
    var debt := debts[i];
    var updated := store.UpdateItem(DebtsName, id, PaymentUpdates(debt, amount), now);
    RepaymentEffect(debt, amount, txId, now);
    var _ := store.AddItem(TransactionsName, Repayment(debt, amount, now), txId, now);
    out := Updated(updated.value);
  }
}
