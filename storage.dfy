/** The store: the whole dataset (named record collections plus the derived
    metrics) held as one object. Each operation of the backend reads the
    dataset, changes it in memory and writes it back whole; here the object
    is that dataset and a write is the commit of its new field values.
    Fresh identifiers and timestamps are parameters. */
module Storage {
  import opened JsValues
  import opened Metrics

  const TransactionsName := "transactions"
  const CustomersName := "customers"
  const DebtsName := "debts"

  /** `item.id === id`. The id comes from the request path, a string, so
      only a text id can match. */
  predicate HasId(r: Record, id: string)
  {
    Field(r, "id") == Some(Text(id))
  }

  /** `records.findIndex(item => item.id === id)`: the first match, or -1. */
  function IndexOfId(rs: seq<Record>, id: string): (i: int)
    ensures -1 <= i < |rs|
    ensures i >= 0 ==> HasId(rs[i], id)
    ensures i >= 0 ==> forall j :: 0 <= j < i ==> !HasId(rs[j], id)
    ensures i == -1 <==> forall j :: 0 <= j < |rs| ==> !HasId(rs[j], id)
    decreases |rs|
  {
    if rs == [] then -1
    else if HasId(rs[0], id) then 0
    else
      var k := IndexOfId(rs[1..], id);
      if k == -1 then -1 else k + 1
  }

  /** `records.filter(item => item.id !== id)`: every match is dropped. */
  function Without(rs: seq<Record>, id: string): (r: seq<Record>)
    ensures |r| <= |rs|
    ensures forall x :: x in r ==> x in rs && !HasId(x, id)
    ensures forall j :: 0 <= j < |rs| && !HasId(rs[j], id) ==> rs[j] in r
    ensures |r| == |rs| <==> forall j :: 0 <= j < |rs| ==> !HasId(rs[j], id)
    decreases |rs|
  {
    if rs == [] then []
    else
      var rest := Without(rs[1..], id);
      assert forall j :: 1 <= j < |rs| ==> rs[j] == rs[1..][j - 1];
      (if HasId(rs[0], id) then [] else [rs[0]]) + rest
  }

  /** Filtering keeps the surviving records in their relative order. */
  lemma {:induction false} WithoutConcat(a: seq<Record>, b: seq<Record>, id: string)
    ensures Without(a + b, id) == Without(a, id) + Without(b, id)
    decreases |a|
  {
    if a == [] {
      assert a + b == b;
    } else {
      assert (a + b)[1..] == a[1..] + b;
      WithoutConcat(a[1..], b, id);
    }
  }

  /** The filter keeps each surviving record exactly as often as it occurs,
      so it neither merges nor duplicates records. */
  lemma {:induction false} WithoutCounts(rs: seq<Record>, id: string, x: Record)
    ensures multiset(Without(rs, id))[x] == if HasId(x, id) then 0 else multiset(rs)[x]
    decreases |rs|
  {
    if rs != [] {
      assert rs == [rs[0]] + rs[1..];
      WithoutCounts(rs[1..], id, x);
    }
  }

  /** With no match the filter returns the records unchanged. */
  lemma {:induction false} WithoutNoMatch(rs: seq<Record>, id: string)
    requires forall j :: 0 <= j < |rs| ==> !HasId(rs[j], id)
    ensures Without(rs, id) == rs
    decreases |rs|
  {
    if rs != [] {
      assert forall j :: 0 <= j < |rs[1..]| ==> rs[1..][j] == rs[j + 1];
      WithoutNoMatch(rs[1..], id);
      assert rs == [rs[0]] + rs[1..];
    }
  }

  /** `{ id: generateId(), createdAt: now, ...item }`: the item's own fields
      win, so an `id` or `createdAt` in the item replaces the generated one. */
  function NewRecord(item: Record, id: string, now: string): (r: Record)
    ensures r.Keys == item.Keys + {"id", "createdAt"}
    ensures forall k :: k in item ==> r[k] == item[k]
    ensures "id" !in item ==> r["id"] == Text(id)
    ensures "createdAt" !in item ==> r["createdAt"] == Text(now)
  {
    map["id" := Text(id), "createdAt" := Text(now)] + item
  }

  /** `{ ...record, ...updates, updatedAt: now }`: the updates overlay the
      record, and the update stamp overrides both. */
  function Merge(record: Record, updates: Record, now: string): (r: Record)
    ensures r.Keys == record.Keys + updates.Keys + {"updatedAt"}
    ensures r["updatedAt"] == Text(now)
    ensures forall k :: k in updates && k != "updatedAt" ==> r[k] == updates[k]
    ensures forall k :: k in record && k !in updates && k != "updatedAt" ==> r[k] == record[k]
  {
    record + updates + map["updatedAt" := Text(now)]
  }

  class Store {
    var collections: map<string, seq<Record>>
    var metrics: Metrics

    /** The central invariant: the stored metrics are the fold over the
        current transactions. */
    ghost predicate Valid()
      reads this
    {
      metrics == MetricsOf(Items(TransactionsName))
    }

    /** `data[collection] || []` */
    function Items(name: string): seq<Record>
      reads this
    {
      if name in collections then collections[name] else []
    }

    /** The dataset `initDB` creates: three empty collections, zero metrics. */
    constructor ()
      ensures collections == map[TransactionsName := [], CustomersName := [], DebtsName := []]
      ensures metrics == Metrics(0, 0, 0)
      ensures Valid()
    {
      collections := map[TransactionsName := [], CustomersName := [], DebtsName := []];
      metrics := Metrics(0, 0, 0);
    }

    /** `getItems`: a collection's records in insertion order; an unknown
        collection reads as empty. */
    method GetItems(name: string) returns (items: seq<Record>)
      ensures name in collections ==> items == collections[name]
      ensures name !in collections ==> items == []
    {
      if name in collections {
        items := collections[name];
      } else {
        items := [];
      }
    }

    /** `updateMetrics`: recompute the three figures from the transactions. */
    method UpdateMetrics()
      modifies this`metrics
      ensures Valid()
    {
      metrics := MetricsOf(Items(TransactionsName));
    }

    /** `addItem`: append one stamped record at the end of the collection,
        creating the collection if it is missing. */
    method AddItem(name: string, item: Record, id: string, now: string) returns (newItem: Record)
      requires Valid()
      modifies this
      ensures Valid()
      ensures newItem == NewRecord(item, id, now)
      ensures collections == old(collections)[name := old(Items(name)) + [newItem]]
      ensures name != TransactionsName ==> metrics == old(metrics)
      ensures name == TransactionsName ==> metrics == Plus(old(metrics), Effect(newItem))
    {
      var rs := Items(name);
      newItem := NewRecord(item, id, now);
      collections := collections[name := rs + [newItem]];
      if name == TransactionsName {
        MetricsAppend(rs, newItem);
        assert Items(TransactionsName) == rs + [newItem];
        UpdateMetrics();
      } else {
        assert Items(TransactionsName) == old(Items(TransactionsName));
      }
    }

    /** `updateItem`: merge the updates into the first record with the id.
        A missing collection or id gives `None` and writes nothing. */
    method UpdateItem(name: string, id: string, updates: Record, now: string) returns (updated: Option<Record>)
      requires Valid()
      modifies this
      ensures Valid()
      ensures IndexOfId(old(Items(name)), id) == -1 ==>
        updated == None && collections == old(collections) && metrics == old(metrics)
      ensures var rs := old(Items(name)); var i := IndexOfId(rs, id);
        i >= 0 ==>
          && updated == Some(Merge(rs[i], updates, now))
          && collections == old(collections)[name := rs[i := updated.value]]
          && (name != TransactionsName ==> metrics == old(metrics))
          && (name == TransactionsName ==> Plus(metrics, Effect(rs[i])) == Plus(old(metrics), Effect(updated.value)))
    {
      if name !in collections {
        return None;
      }
      var rs := collections[name];
      var index := IndexOfId(rs, id);
      if index == -1 {
        return None;
      }
      var merged := Merge(rs[index], updates, now);
      collections := collections[name := rs[index := merged]];
      if name == TransactionsName {
        MetricsReplace(rs, index, merged);
        assert Items(TransactionsName) == rs[index := merged];
        UpdateMetrics();
      }
      updated := Some(merged);
    }

    /** `deleteItem`: drop every record with the id. Reports whether any
        was dropped; when none was, nothing is written. */
    method DeleteItem(name: string, id: string) returns (deleted: bool)
      requires Valid()
      modifies this
      ensures Valid()
      ensures deleted <==> IndexOfId(old(Items(name)), id) >= 0
      ensures deleted ==> collections == old(collections)[name := Without(old(Items(name)), id)]
      ensures deleted && name != TransactionsName ==> metrics == old(metrics)
      ensures !deleted ==> collections == old(collections) && metrics == old(metrics)
      ensures forall x :: x in Items(name) ==> !HasId(x, id)
    {
      if name !in collections {
        return false;
      }
      var rs := collections[name];
      var kept := Without(rs, id);
      if |kept| != |rs| {
        collections := collections[name := kept];
        if name == TransactionsName {
          UpdateMetrics();
        }
        deleted := true;
      } else {
        WithoutNoMatch(rs, id);
        deleted := false;
      }
    }
  }

  /** Deleting the one transaction with an id takes its effect out of the
      metrics. */
  lemma DeleteUniqueMetrics(a: seq<Record>, t: Record, b: seq<Record>, id: string)
    requires HasId(t, id)
    requires forall j :: 0 <= j < |a| ==> !HasId(a[j], id)
    requires forall j :: 0 <= j < |b| ==> !HasId(b[j], id)
    ensures Without(a + [t] + b, id) == a + b
    ensures Plus(MetricsOf(Without(a + [t] + b, id)), Effect(t)) == MetricsOf(a + [t] + b)
  {
    WithoutOne(a, t, b, id);
    MetricsRemove(a, t, b);
  }

  lemma WithoutOne(a: seq<Record>, t: Record, b: seq<Record>, id: string)
    requires HasId(t, id)
    requires forall j :: 0 <= j < |a| ==> !HasId(a[j], id)
    requires forall j :: 0 <= j < |b| ==> !HasId(b[j], id)
    ensures Without(a + [t] + b, id) == a + b
  {
    WithoutConcat(a + [t], b, id);
    WithoutConcat(a, [t], id);
    WithoutNoMatch(a, id);
    WithoutNoMatch(b, id);
    assert Without([t], id) == [];
    assert a + [] == a;
  }
}
