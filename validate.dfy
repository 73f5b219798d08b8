/** Entry validation for the three record kinds. Each validator reads its
    payload only and returns the messages of the checks that fail, in the
    order the checks are made; an empty list means the payload is accepted. */
module Validate {
  import opened JsValues

  const AmountMessage := "Valid amount is required"
  const TypeMessage := "Type must be income or expense"
  const CategoryMessage := "Category is required"
  const NameMessage := "Name is required"
  const PhoneMessage := "Phone is required"
  const CustomerNameMessage := "Customer name is required"
  const DueDateMessage := "Due date is required"

  /** The fixed check order of each validator. */
  const TransactionChecks := [AmountMessage, TypeMessage, CategoryMessage]
  const CustomerChecks := [NameMessage, PhoneMessage]
  const DebtChecks := [CustomerNameMessage, AmountMessage, DueDateMessage]

  /** The amount test `!x || isNaN(x)` does not fire: the value is truthy
      (so 0 is rejected) and coerces to a number (negative numbers pass). */
  predicate ValidAmount(v: Option<Value>)
  {
    Truthy(v) && ToNumber(v).Some?
  }

  /** `['income', 'expense'].includes(x)`, which also covers the falsy case. */
  predicate ValidType(v: Option<Value>)
  {
    v == Some(Text("income")) || v == Some(Text("expense"))
  }

  /** `a` lists some of the entries of `b`, in the order they have in `b`. */
  predicate SubsequenceOf(a: seq<string>, b: seq<string>)
    decreases |b|
  {
    if a == [] then true
    else if b == [] then false
    else if a[0] == b[0] then SubsequenceOf(a[1..], b[1..])
    else SubsequenceOf(a, b[1..])
  }

  /** One check: its message when it fails, nothing when it passes. */
  function Check(ok: bool, message: string): seq<string>
  {
    if ok then [] else [message]
  }

  /** Putting one more check in front keeps the messages in check order. */
  lemma PrependCheck(ok: bool, message: string, rest: seq<string>, order: seq<string>)
    requires SubsequenceOf(rest, order) && message !in rest
    ensures SubsequenceOf(Check(ok, message) + rest, [message] + order)
  {
    if ok {
      assert Check(ok, message) + rest == rest;
      assert ([message] + order)[1..] == order;
    } else {
      assert (Check(ok, message) + rest)[1..] == rest;
      assert ([message] + order)[1..] == order;
    }
  }

  /** Three checks in a row report their failures in check order. */
  function Checks3(ok1: bool, m1: string, ok2: bool, m2: string, ok3: bool, m3: string): (errors: seq<string>)
    requires m1 != m2 && m1 != m3 && m2 != m3
    ensures SubsequenceOf(errors, [m1, m2, m3])
    ensures m1 in errors <==> !ok1
    ensures m2 in errors <==> !ok2
    ensures m3 in errors <==> !ok3
    ensures |errors| <= 3
  {
    ChecksInOrder(ok1, m1, ok2, m2, ok3, m3);
    Check(ok1, m1) + (Check(ok2, m2) + Check(ok3, m3))
  }

  lemma ChecksInOrder(ok1: bool, m1: string, ok2: bool, m2: string, ok3: bool, m3: string)
    requires m1 != m2 && m1 != m3 && m2 != m3
    ensures SubsequenceOf(Check(ok1, m1) + (Check(ok2, m2) + Check(ok3, m3)), [m1, m2, m3])
  {
    var tail := Check(ok3, m3);
    PrependCheck(ok3, m3, [], []);
    assert tail + [] == tail;
    PrependCheck(ok2, m2, tail, [m3]);
    PrependCheck(ok1, m1, Check(ok2, m2) + tail, [m2, m3]);
    assert [m1] + ([m2] + [m3]) == [m1, m2, m3];
  }

  function ValidateTransaction(data: Record): (errors: seq<string>)
    ensures errors == [] <==>
      ValidAmount(Field(data, "amount")) && ValidType(Field(data, "type")) && Truthy(Field(data, "category"))
    ensures AmountMessage in errors <==> !ValidAmount(Field(data, "amount"))
    ensures TypeMessage in errors <==> !ValidType(Field(data, "type"))
    ensures CategoryMessage in errors <==> !Truthy(Field(data, "category"))
    ensures SubsequenceOf(errors, TransactionChecks)
    ensures |errors| <= 3
  {
    Checks3(ValidAmount(Field(data, "amount")), AmountMessage,
            ValidType(Field(data, "type")), TypeMessage,
            Truthy(Field(data, "category")), CategoryMessage)
  }

  function ValidateCustomer(data: Record): (errors: seq<string>)
    ensures errors == [] <==> Truthy(Field(data, "name")) && Truthy(Field(data, "phone"))
    ensures NameMessage in errors <==> !Truthy(Field(data, "name"))
    ensures PhoneMessage in errors <==> !Truthy(Field(data, "phone"))
    ensures SubsequenceOf(errors, CustomerChecks)
    ensures Truthy(Field(data, "name")) && !Truthy(Field(data, "phone")) ==> errors == [PhoneMessage]
    ensures !Truthy(Field(data, "name")) && !Truthy(Field(data, "phone")) ==> errors == [NameMessage, PhoneMessage]
  {
    Check(Truthy(Field(data, "name")), NameMessage)
    + Check(Truthy(Field(data, "phone")), PhoneMessage)
  }

  function ValidateDebt(data: Record): (errors: seq<string>)
    ensures errors == [] <==>
      Truthy(Field(data, "customerName")) && ValidAmount(Field(data, "amount")) && Truthy(Field(data, "dueDate"))
    ensures CustomerNameMessage in errors <==> !Truthy(Field(data, "customerName"))
    ensures AmountMessage in errors <==> !ValidAmount(Field(data, "amount"))
    ensures DueDateMessage in errors <==> !Truthy(Field(data, "dueDate"))
    ensures SubsequenceOf(errors, DebtChecks)
    ensures |errors| <= 3
  {
    Checks3(Truthy(Field(data, "customerName")), CustomerNameMessage,
            ValidAmount(Field(data, "amount")), AmountMessage,
            Truthy(Field(data, "dueDate")), DueDateMessage)
  }

  /** A zero amount is falsy and is rejected; a negative amount is accepted. */
  lemma AmountSign(data: Record, n: int)
    requires Field(data, "amount") == Some(Number(n))
    ensures AmountMessage in ValidateTransaction(data) <==> n == 0
    ensures AmountMessage in ValidateDebt(data) <==> n == 0
  {
  }
}
