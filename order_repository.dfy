/** The in-memory order store
    (aps-train-system/src/infrastructure/persistence/memory/InMemoryOrderRepository.ts).
    The source keeps a JavaScript `Map` from order id to order. A `Map`
    remembers insertion order: every listing walks the ids in the order they
    were first set, re-setting an id keeps its place and deleting it drops
    it. The model keeps that order explicitly in `keys` beside the map
    `orders`. The operations are specified on the value `Store`; the class
    holds the two fields and its methods move the store from one value to
    the next. Dates are whole days; date arguments that do not parse are
    `None`. */
module OrderRepository {
  import opened Common
  import Sorting
  import JsMap
  import opened JsArray
  import PO = ProductionOrder

  type Store = JsMap.Map<PO.ProductionOrder>

  /** A well-formed map in which every order is stored under its own id. */
  ghost predicate StoreValid(s: Store)
  {
    JsMap.Valid(s) && forall k :: k in s.entries ==> s.entries[k].id == k
  }

  /** `orders.get(id) || null`: an order is an object, so never falsy. */
  function Lookup(s: Store, id: string): (r: Option<PO.ProductionOrder>)
    ensures r == JsMap.Get(s, id)
    ensures StoreValid(s) && r.Some? ==> r.value.id == id
  {
    JsMap.Get(s, id)
  }

  /** `orders.set(order.id, order)`, which keeps every order under its id. */
  function Put(s: Store, order: PO.ProductionOrder): (r: Store)
    ensures Lookup(r, order.id) == Some(order)
    ensures forall k :: k != order.id ==> Lookup(r, k) == Lookup(s, k)
    ensures StoreValid(s) ==> StoreValid(r)
  {
    JsMap.Set(s, order.id, order)
  }

  /** Saving in turn every order of `list` (`saveMany`'s loop). */
  function PutAll(s: Store, list: seq<PO.ProductionOrder>): (r: Store)
    ensures StoreValid(s) ==> StoreValid(r)
  {
    if list == [] then s else Put(PutAll(s, list[..|list| - 1]), list[|list| - 1])
  }

  /** After `saveMany`, an id that none of the saved orders carries keeps
      its old value. */
  lemma {:induction false} PutAllUntouched(s: Store, list: seq<PO.ProductionOrder>, id: string)
    requires forall i :: 0 <= i < |list| ==> list[i].id != id
    ensures Lookup(PutAll(s, list), id) == Lookup(s, id)
  {
    if list != [] {
      var front := list[..|list| - 1];
      assert forall i :: 0 <= i < |front| ==> front[i].id != id by {
        forall i | 0 <= i < |front| ensures front[i].id != id {
          assert front[i] == list[i];
        }
      }
      PutAllUntouched(s, front, id);
    }
  }

  /** After `saveMany`, the last saved order carrying an id is the one stored
      under it. */
  lemma {:induction false} PutAllLast(s: Store, list: seq<PO.ProductionOrder>, i: nat)
    requires i < |list| && forall j :: i < j < |list| ==> list[j].id != list[i].id
    ensures Lookup(PutAll(s, list), list[i].id) == Some(list[i])
  {
    var n := |list| - 1;
    if i < n {
      var front := list[..n];
      assert front[i] == list[i];
      assert forall j :: i < j < |front| ==> front[j].id != front[i].id by {
        forall j | i < j < |front| ensures front[j].id != front[i].id {
          assert front[j] == list[j];
        }
      }
      PutAllLast(s, front, i);
    }
  }

  /** In a valid store, the listing holds exactly the stored orders. */
  function Values(s: Store): (r: seq<PO.ProductionOrder>)
    requires StoreValid(s)
    ensures |r| == |s.keys|
    ensures forall o :: o in r <==> o.id in s.entries && s.entries[o.id] == o
  {
    var r := JsMap.Values(s);
    forall o: PO.ProductionOrder ensures o in r <==> o.id in s.entries && s.entries[o.id] == o {
      JsMap.ValuesMembers(s, o);
    }
    r
  }

  /** The ids of a listing are those of the store, once each. */
  lemma ValuesIdsDistinct(s: Store)
    requires StoreValid(s)
    ensures forall i, j :: 0 <= i < j < |Values(s)| ==> Values(s)[i].id != Values(s)[j].id
  {
    var r := Values(s);
    forall i, j | 0 <= i < j < |r| ensures r[i].id != r[j].id {
      assert r[i] == s.entries[s.keys[i]] && r[j] == s.entries[s.keys[j]];
    }
  }

  function Priority(o: PO.ProductionOrder): int
  {
    o.priority
  }

  function DueDate(o: PO.ProductionOrder): int
  {
    o.dueDate
  }

  /** The sample order `initializeSampleOrders` builds: due `days` after `today`. */
  function SampleOrder(id: string, modelType: string, days: int, priority: int, today: Day): (r: PO.ProductionOrder)
    requires !IsBlank(id) && !IsBlank(modelType) && priority >= 0
    ensures PO.Valid(r) && r.id == id && r.modelType == modelType && r.priority == priority
    ensures r.dueDate == today + days && r.status == PO.Pending && r.createdAt == today
  {
    PO.Create(PO.OrderData(id, modelType, Some(today + days), priority, PO.Pending, Some(today), None), today).value
  }

  /** The five orders the repository starts with. */
  function SampleOrders(today: Day): (r: seq<PO.ProductionOrder>)
    ensures |r| == 5
    ensures forall i :: 0 <= i < |r| ==> PO.Valid(r[i]) && r[i].status == PO.Pending && r[i].createdAt == today
  {
    assert !IsJsWhitespace("ORD-001"[0]) && !IsJsWhitespace("ORD-002"[0]) && !IsJsWhitespace("ORD-003"[0]);
    assert !IsJsWhitespace("ORD-004"[0]) && !IsJsWhitespace("ORD-005"[0]);
    assert !IsJsWhitespace("A"[0]) && !IsJsWhitespace("B"[0]) && !IsJsWhitespace("C"[0]);
    [SampleOrder("ORD-001", "A", 10, 1, today),
     SampleOrder("ORD-002", "B", 15, 2, today),
     SampleOrder("ORD-003", "C", 8, 1, today),
     SampleOrder("ORD-004", "A", 20, 3, today),
     SampleOrder("ORD-005", "B", 12, 2, today)]
  }

  class InMemoryOrderRepository {
    var orders: Store

    ghost predicate Valid()
      reads this
    {
      StoreValid(orders)
    }

    /** `constructor` and `initializeSampleOrders`: the five samples, saved
        in order into an empty map; `today` is the clock reading. */
    constructor (today: Day)
      ensures Valid()
      ensures orders == SampleStore(today)
    {
      orders := JsMap.Empty();
      new;
      SaveMany(SampleOrders(today));
    }

    /** `getAll`. */
    function GetAll(): (r: seq<PO.ProductionOrder>)
      reads this
      requires Valid()
      ensures |r| == |orders.keys|
      ensures forall o :: o in r <==> o.id in orders.entries && orders.entries[o.id] == o
    {
      Values(orders)
    }

    /** `getById`. */
    function GetById(id: string): (r: Option<PO.ProductionOrder>)
      reads this
      requires Valid()
      ensures r.Some? <==> id in orders.entries
      ensures r.Some? ==> r.value == orders.entries[id] && r.value.id == id
    {
      Lookup(orders, id)
    }

    /** `getByStatus`: the stored orders with that status, in listing order. */
    function GetByStatus(status: PO.OrderStatus): (r: seq<PO.ProductionOrder>)
      reads this
      requires Valid()
      ensures forall o :: o in r <==> o in GetAll() && o.status == status
    {
      Filter(GetAll(), (o: PO.ProductionOrder) => o.status == status)
    }

    /** `getByModelType`. */
    function GetByModelType(modelType: string): (r: seq<PO.ProductionOrder>)
      reads this
      requires Valid()
      ensures forall o :: o in r <==> o in GetAll() && o.modelType == modelType
    {
      Filter(GetAll(), (o: PO.ProductionOrder) => o.modelType == modelType)
    }

    /** `getPendingOrdersSorted`: the pending orders, by priority (lower
        first) and then by due date, ties kept in listing order. */
    function GetPendingOrdersSorted(): (r: seq<PO.ProductionOrder>)
      reads this
      requires Valid()
      ensures |r| == |GetByStatus(PO.Pending)|
      ensures forall o :: o in r <==> o in GetAll() && o.status == PO.Pending
      ensures Sorting.SortedByLex(r, Priority, DueDate)
    {
      var pending := GetByStatus(PO.Pending);
      Sorting.SortByLexSpec(pending, Priority, DueDate);
      var r := Sorting.SortByLex(pending, Priority, DueDate);
      assert forall o :: o in r <==> o in multiset(pending);
      r
    }

    /** `save`. */
    method Save(order: PO.ProductionOrder)
      requires Valid()
      modifies this
      ensures Valid() && orders == Put(old(orders), order)
    {
      orders := JsMap.Set(orders, order.id, order);
    }

    /** `saveMany`: saves the orders one after the other. */
    method SaveMany(list: seq<PO.ProductionOrder>)
      requires Valid()
      modifies this
      ensures Valid() && orders == PutAll(old(orders), list)
    {
      var i := 0;
      while i < |list|
        invariant 0 <= i <= |list|
        invariant Valid() && orders == PutAll(old(orders), list[..i])
      {
        assert list[..i + 1][..i] == list[..i];
        Save(list[i]);
        i := i + 1;
      }
      assert list[..|list|] == list;
    }

    /** `delete`. */
    method Delete(id: string)
      requires Valid()
      modifies this
      ensures Valid() && orders == JsMap.Delete(old(orders), id)
    {
      orders := JsMap.Delete(orders, id);
    }

    /** `exists`. */
    function Exists(id: string): (r: bool)
      reads this
      requires Valid()
      ensures r <==> GetById(id).Some?
    {
      JsMap.Has(orders, id)
    }

    /** `getOrdersDueBefore`: due strictly before the date; a date that does
        not parse compares false with everything, so nothing is returned. */
    function GetOrdersDueBefore(date: Option<Day>): (r: seq<PO.ProductionOrder>)
      reads this
      requires Valid()
      ensures date.None? ==> r == []
      ensures date.Some? ==> forall o :: o in r <==> o in GetAll() && o.dueDate < date.value
    {
      match date
      case None => []
      case Some(d) => Filter(GetAll(), (o: PO.ProductionOrder) => o.dueDate < d)
    }

    /** `getOrdersCreatedBetween`: created within the closed interval; an
        unparseable bound makes every comparison false. */
    function GetOrdersCreatedBetween(startDate: Option<Day>, endDate: Option<Day>): (r: seq<PO.ProductionOrder>)
      reads this
      requires Valid()
      ensures startDate.None? || endDate.None? ==> r == []
      ensures startDate.Some? && endDate.Some? ==>
                forall o :: o in r <==> o in GetAll() && startDate.value <= o.createdAt <= endDate.value
    {
      if startDate.None? || endDate.None? then []
      else Filter(GetAll(), (o: PO.ProductionOrder) => startDate.value <= o.createdAt <= endDate.value)
    }
  }

  /** The ids of `list`, in order. */
  function Ids(list: seq<PO.ProductionOrder>): (r: seq<string>)
    ensures |r| == |list| && forall i :: 0 <= i < |list| ==> r[i] == list[i].id
  {
    seq(|list|, i requires 0 <= i < |list| => list[i].id)
  }

  lemma {:induction false} PutAllFreshKeys(s: Store, list: seq<PO.ProductionOrder>)
    requires Distinct(Ids(list)) && forall i :: 0 <= i < |list| ==> list[i].id !in s.keys
    ensures PutAll(s, list).keys == s.keys + Ids(list)
  {
    if list != [] {
      var n := |list| - 1;
      var front := list[..n];
      assert Distinct(Ids(front)) by {
        forall i, j | 0 <= i < j < |front| ensures Ids(front)[i] != Ids(front)[j] {
          assert Ids(list)[i] != Ids(list)[j];
        }
      }
      PutAllFreshKeys(s, front);
      assert Ids(list) == Ids(front) + [list[n].id];
      assert list[n].id !in Ids(front) by {
        forall i | 0 <= i < n ensures Ids(front)[i] != list[n].id {
          assert Ids(list)[i] != Ids(list)[n];
        }
      }
    }
  }

  /** Saving only new ids leaves every old id with its order. */
  lemma PutAllKeepsOld(s: Store, list: seq<PO.ProductionOrder>, k: string)
    requires (forall i :: 0 <= i < |list| ==> list[i].id !in s.keys) && k in s.keys
    ensures Lookup(PutAll(s, list), k) == Lookup(s, k)
  {
    assert forall m :: 0 <= m < |list| ==> list[m].id != k;
    PutAllUntouched(s, list, k);
  }

  /** With distinct ids, each saved order is the one stored under its id. */
  lemma PutAllDistinctLast(s: Store, list: seq<PO.ProductionOrder>, j: nat)
    requires Distinct(Ids(list)) && j < |list|
    ensures Lookup(PutAll(s, list), list[j].id) == Some(list[j])
  {
    assert forall m :: j < m < |list| ==> list[m].id != list[j].id by {
      forall m | j < m < |list| ensures list[m].id != list[j].id {
        assert Ids(list)[j] != Ids(list)[m];
      }
    }
    PutAllLast(s, list, j);
  }

  /** Saving orders with new, distinct ids appends them to the listing. */
  lemma PutAllFresh(s: Store, list: seq<PO.ProductionOrder>)
    requires StoreValid(s)
    requires Distinct(Ids(list)) && forall i :: 0 <= i < |list| ==> list[i].id !in s.keys
    ensures StoreValid(PutAll(s, list))
    ensures Values(PutAll(s, list)) == Values(s) + list
  {
    var r := PutAll(s, list);
    PutAllFreshKeys(s, list);
    var vr := JsMap.Values(r);
    var expected := JsMap.Values(s) + list;
    forall i | 0 <= i < |vr| ensures vr[i] == expected[i] {
      if i < |s.keys| {
        PutAllKeepsOld(s, list, s.keys[i]);
      } else {
        PutAllDistinctLast(s, list, i - |s.keys|);
      }
    }
    assert vr == expected;
  }

  /** Filtering by a property every element has keeps everything. */
  lemma {:induction false} FilterAll(s: seq<PO.ProductionOrder>, p: PO.ProductionOrder -> bool)
    requires forall i :: 0 <= i < |s| ==> p(s[i])
    ensures Filter(s, p) == s
  {
    if s != [] {
      FilterAll(s[1..], p);
      assert s == [s[0]] + s[1..];
    }
  }

  /** The repository a fresh constructor builds. */
  function SampleStore(today: Day): Store
  {
    PutAll(JsMap.Empty(), SampleOrders(today))
  }

  /** It lists the five samples in creation order. */
  lemma SampleStoreListing(today: Day)
    ensures StoreValid(SampleStore(today))
    ensures Values(SampleStore(today)) == SampleOrders(today)
  {
    var samples := SampleOrders(today);
    var ids := Ids(samples);
    assert ids == ["ORD-001", "ORD-002", "ORD-003", "ORD-004", "ORD-005"];
    assert Distinct(ids) by {
      forall i, j | 0 <= i < j < 5 ensures ids[i] != ids[j] {
        assert ids[i][6] != ids[j][6];
      }
    }
    PutAllFresh(JsMap.Empty(), samples);
  }

  /** Five orders with the samples' priorities and due dates sort as
      the third, first, fifth, second, fourth. */
  lemma SortFiveSamples(o: seq<PO.ProductionOrder>, today: Day)
    requires |o| == 5
    requires o[0].priority == 1 && o[1].priority == 2 && o[2].priority == 1 && o[3].priority == 3 && o[4].priority == 2
    requires o[0].dueDate == today + 10 && o[1].dueDate == today + 15 && o[2].dueDate == today + 8
    requires o[4].dueDate == today + 12
    ensures Sorting.SortByLex(o, Priority, DueDate) == [o[2], o[0], o[4], o[1], o[3]]
  {
    var p, q := Priority, DueDate;
    SortLastFour(o, today);
    assert !Sorting.LexLe(o[0], o[2], p, q) && Sorting.LexLe(o[0], o[4], p, q);
    var a1 := [o[2], o[4], o[1], o[3]];
    assert Sorting.InsertLex(o[0], a1, p, q) == [o[2], o[0], o[4], o[1], o[3]] by {
      assert a1[1..] == [o[4], o[1], o[3]];
      assert Sorting.InsertLex(o[0], [o[4], o[1], o[3]], p, q) == [o[0], o[4], o[1], o[3]];
    }
    assert o == [o[0]] + o[1..];
  }

  /** The last four of those orders sort as the third, fifth, second, fourth. */
  lemma SortLastFour(o: seq<PO.ProductionOrder>, today: Day)
    requires |o| == 5
    requires o[1].priority == 2 && o[2].priority == 1 && o[3].priority == 3 && o[4].priority == 2
    requires o[1].dueDate == today + 15 && o[4].dueDate == today + 12
    ensures Sorting.SortByLex(o[1..], Priority, DueDate) == [o[2], o[4], o[1], o[3]]
  {
    var p, q := Priority, DueDate;
    assert !Sorting.LexLe(o[3], o[4], p, q) && Sorting.LexLe(o[2], o[4], p, q);
    assert !Sorting.LexLe(o[1], o[2], p, q) && !Sorting.LexLe(o[1], o[4], p, q) && Sorting.LexLe(o[1], o[3], p, q);
    var a4 := [o[4]];
    var a3 := [o[4], o[3]];
    var a2 := [o[2], o[4], o[3]];
    assert Sorting.InsertLex(o[3], a4, p, q) == a3 by {
      assert Sorting.InsertLex(o[3], a4, p, q) == [o[4]] + Sorting.InsertLex(o[3], [], p, q);
    }
    assert Sorting.InsertLex(o[2], a3, p, q) == a2;
    assert Sorting.InsertLex(o[1], a2, p, q) == [o[2], o[4], o[1], o[3]] by {
      assert Sorting.InsertLex(o[1], [o[3]], p, q) == [o[1], o[3]];
      assert a3[1..] == [o[3]] && a2[1..] == a3;
      assert Sorting.InsertLex(o[1], a3, p, q) == [o[4], o[1], o[3]];
    }
    assert o[4..] == [o[4]] && o[3..] == [o[3]] + o[4..] && o[2..] == [o[2]] + o[3..];
    assert o[1..] == [o[1]] + o[2..];
    assert Sorting.SortByLex(o[4..], p, q) == a4;
    assert Sorting.SortByLex(o[3..], p, q) == a3;
    assert Sorting.SortByLex(o[2..], p, q) == a2;
  }

  /** The five samples sorted by priority and due date: ORD-003 and ORD-001
      (priority 1, ORD-003 due earlier), then ORD-005 and ORD-002, then ORD-004. */
  lemma SamplesSorted(today: Day)
    ensures var o := SampleOrders(today);
            Sorting.SortByLex(o, Priority, DueDate) == [o[2], o[0], o[4], o[1], o[3]]
  {
    SortFiveSamples(SampleOrders(today), today);
  }

  /** A freshly opened repository returns its pending orders in that order. */
  lemma SamplesPendingOrder(today: Day)
    ensures StoreValid(SampleStore(today))
    ensures var o := SampleOrders(today);
            Sorting.SortByLex(Filter(Values(SampleStore(today)), (x: PO.ProductionOrder) => x.status == PO.Pending), Priority, DueDate)
              == [o[2], o[0], o[4], o[1], o[3]]
  {
    SampleStoreListing(today);
    FilterAll(SampleOrders(today), (x: PO.ProductionOrder) => x.status == PO.Pending);
    SamplesSorted(today);
  }
}
