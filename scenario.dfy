/** Two ledger walk-throughs, stated on the records the handlers store:
    booking and deleting transactions, and paying a debt off in two
    instalments. */
module Walkthrough {
  import opened JsValues
  import opened Validate
  import opened Metrics
  import opened Storage
  import opened Controller

  const Now := "2025-01-01T00:00:00.000Z"

  function Booking(amount: int, kind: string, category: string): Record
  {
    map["amount" := Number(amount), "type" := Text(kind), "category" := Text(category)]
  }

  /** A well-formed booking passes validation, and the record stored for it
      keeps its id, type and amount. */
  lemma BookingFacts(amount: int, kind: string, category: string, id: string)
    requires amount != 0 && category != "" && (kind == "income" || kind == "expense")
    ensures ValidateTransaction(Booking(amount, kind, category)) == []
    ensures var t := NewRecord(Booking(amount, kind, category), id, Now);
      && HasId(t, id)
      && Field(t, "type") == Some(Text(kind))
      && Field(t, "amount") == Some(Number(amount))
  {
    var b := Booking(amount, kind, category);
    assert Field(b, "amount") == Some(Number(amount));
    assert Field(b, "type") == Some(Text(kind));
    assert Field(b, "category") == Some(Text(category));
  }

  lemma IncomeEffect(t: Record, n: int)
    requires HasType(t, "income") && Field(t, "amount") == Some(Number(n))
    ensures Effect(t) == Metrics(n, 0, n)
  {
  }

  lemma ExpenseEffect(t: Record, n: int)
    requires HasType(t, "expense") && Field(t, "amount") == Some(Number(n))
    ensures Effect(t) == Metrics(0, n, -n)
  {
  }

  /** First step: after booking an income of `income` (for example
      100) revenue and net income are `income`, expenses 0. */
  lemma AfterSale(sale: Record, income: int)
    requires HasType(sale, "income") && Field(sale, "amount") == Some(Number(income))
    ensures MetricsOf([sale]) == Metrics(income, 0, income)
  {
    MetricsOfOne(sale);
    IncomeEffect(sale, income);
  }

  /** Second step: an expense of `expense` (40) appended after it raises
      expenses by that amount and lowers net income by it, to (100, 40, 60). */
  lemma AfterRent(sale: Record, rent: Record, income: int, expense: int)
    requires HasType(sale, "income") && Field(sale, "amount") == Some(Number(income))
    requires HasType(rent, "expense") && Field(rent, "amount") == Some(Number(expense))
    ensures MetricsOf([sale] + [rent]) == Metrics(income, expense, income - expense)
  {
    MetricsAppend([sale], rent);
    AfterSale(sale, income);
    ExpenseEffect(rent, expense);
  }

  /** Third step: deleting the expense by its id leaves only the income and
      restores the first step's metrics, (100, 0, 100). */
  lemma AfterDelete(sale: Record, rent: Record, income: int)
    requires HasId(sale, "t1") && HasType(sale, "income") && Field(sale, "amount") == Some(Number(income))
    requires HasId(rent, "t2")
    ensures Without([sale] + [rent], "t2") == [sale]
    ensures MetricsOf(Without([sale] + [rent], "t2")) == Metrics(income, 0, income)
  {
    WithoutSecond(sale, rent, "t2");
    AfterSale(sale, income);
  }

  /** The records the handlers store for an income and an expense booking
      meet the walk-through's assumptions. */
  lemma StoredBookings(income: int, expense: int)
    requires income != 0 && expense != 0
    ensures var sale := NewRecord(Booking(income, "income", "Sales"), "t1", Now);
      && HasId(sale, "t1") && HasType(sale, "income") && Field(sale, "amount") == Some(Number(income))
    ensures var rent := NewRecord(Booking(expense, "expense", "Rent"), "t2", Now);
      && HasId(rent, "t2") && HasType(rent, "expense") && Field(rent, "amount") == Some(Number(expense))
  {
    BookingFacts(income, "income", "Sales", "t1");
    BookingFacts(expense, "expense", "Rent", "t2");
  }

  lemma MetricsOfOne(sale: Record)
    ensures MetricsOf([sale]) == Plus(Zero, Effect(sale))
  {
    MetricsAppend([], sale);
    assert [] + [sale] == [sale];
  }

  lemma WithoutSecond(sale: Record, rent: Record, id: string)
    requires !HasId(sale, id) && HasId(rent, id)
    ensures Without([sale] + [rent], id) == [sale]
  {
    WithoutOne([sale], rent, [], id);
    assert [sale] + [rent] + [] == [sale] + [rent];
    assert [sale] + [] == [sale];
  }

  /** The booking walk-through run through the handlers on a fresh store:
      book an income, book an expense, delete the expense again. */
  method BookingRun(income: int, expense: int) returns (afterSale: Metrics, afterRent: Metrics, afterDelete: Metrics)
    requires income != 0 && expense != 0
    ensures afterSale == Metrics(income, 0, income)
    ensures afterRent == Metrics(income, expense, income - expense)
    ensures afterDelete == Metrics(income, 0, income)
  {
    var store := new Store();
    StoredBookings(income, expense);
    var sale := NewRecord(Booking(income, "income", "Sales"), "t1", Now);
    var rent := NewRecord(Booking(expense, "expense", "Rent"), "t2", Now);
    BookingFacts(income, "income", "Sales", "t1");
    var created := CreateTransaction(store, Booking(income, "income", "Sales"), "t1", Now);
    assert store.Items(TransactionsName) == [] + [sale];
    IncomeEffect(sale, income);
    afterSale := store.metrics;
    BookingFacts(expense, "expense", "Rent", "t2");
    created := CreateTransaction(store, Booking(expense, "expense", "Rent"), "t2", Now);
    assert store.Items(TransactionsName) == [sale] + [rent];
    ExpenseEffect(rent, expense);
    afterRent := store.metrics;
    WithoutSecond(sale, rent, "t2");
    assert IndexOfId([sale] + [rent], "t2") >= 0 by {
      assert ([sale] + [rent])[1] == rent;
    }
    var deleted := DeleteRecord(store, Transactions, "t2");
    AfterSale(sale, income);
    afterDelete := store.metrics;
  }

  const AliBody: Record := map["customerName" := Text("Ali"), "amount" := Number(500), "dueDate" := Text("2025-01-01")]

  /** A new debt of 500 for Ali is unpaid with nothing paid; paying 200
      leaves it partial at 200, and paying 300 more makes it paid at 500.
      The first payment books income of exactly its amount. */
  lemma DebtWalkthrough()
    ensures var debt := NewRecord(DebtDefaults(AliBody), "d1", Now);
      var once := Settle(debt, 200, Now);
      var twice := Settle(once, 300, Now);
      && ValidateDebt(AliBody) == []
      && debt["status"] == Text("unpaid") && debt["paidAmount"] == Number(0)
      && once["status"] == Text("partial") && once["paidAmount"] == Number(200)
      && twice["status"] == Text("paid") && twice["paidAmount"] == Number(500)
      && Effect(NewRecord(Repayment(debt, 200, Now), "t1", Now)) == Metrics(200, 0, 200)
  {
    AliValid();
    var debt := NewRecord(DebtDefaults(AliBody), "d1", Now);
    NewDebtFields(AliBody, 500, "d1");
    PaymentStep(debt, 200, 0, 500);
    var once := Settle(debt, 200, Now);
    PaymentStep(once, 300, 200, 500);
    RepaymentEffect(debt, 200, "t1", Now);
  }

  lemma AliValid()
    ensures ValidateDebt(AliBody) == []
  {
    assert Field(AliBody, "customerName") == Some(Text("Ali"));
    assert Field(AliBody, "amount") == Some(Number(500));
    assert Field(AliBody, "dueDate") == Some(Text("2025-01-01"));
  }

  /** A created debt owes the requested amount and has paid nothing. */
  lemma NewDebtFields(body: Record, owed: int, id: string)
    requires Field(body, "amount") == Some(Number(owed))
    ensures var debt := NewRecord(DebtDefaults(body), id, Now);
      && debt["status"] == Text("unpaid")
      && Field(debt, "paidAmount") == Some(Number(0))
      && Field(debt, "amount") == Some(Number(owed))
  {
  }

  /** One numeric payment: the amount owed stays, the paid amount grows. */
  lemma PaymentStep(debt: Record, amount: int, prior: int, owed: int)
    requires Field(debt, "paidAmount") == Some(Number(prior))
    requires Field(debt, "amount") == Some(Number(owed))
    ensures var d := Settle(debt, amount, Now);
      && Field(d, "paidAmount") == Some(Number(prior + amount))
      && Field(d, "amount") == Some(Number(owed))
      && (d["status"] == Text("paid") <==> prior + amount >= owed)
      && (d["status"] == Text("partial") <==> prior + amount < owed)
  {
    NumericPayment(debt, amount, Now, prior, owed);
  }
}
