/** The independent schedule checker
    (aps-train-system/src/domain/services/ValidationService.ts).

    It re-derives four kinds of conflict from a schedule: late deliveries
    (from the completion dates), resource overloads (from the usage table),
    sequence violations (adjacent steps of one order, after sorting by step
    index) and line conflicts (overlapping pairs on one line). Each check is
    a method with the source's loops, proved equal to a recursive
    specification function; lemmas then say what those functions contain.

    The JavaScript `Map` the grouping functions build iterates in key
    insertion order; it is modelled as a `Grouping`: the keys in first
    occurrence order together with a `map` from each key to its group. */
module ValidationService {
  import opened Common
  import Sorting
  import PO = ProductionOrder
  import SS = SchedulingService

  type ScheduledProcess = SS.ScheduledProcess

  datatype ConflictKind = LateDelivery | ResourceOverload | SequenceViolation | LineConflict

  datatype Severity = Error | Warning

  /** The values the source interpolates into a conflict's message. */
  datatype Detail =
    | DaysLate(days: int)
    | WorkerShortfall(needed: int, available: int)
    | StartsBeforePrevious(previousProcess: string, currentProcess: string)
    | Overlap(process1: string, order1: string, process2: string, order2: string)

  datatype Conflict = Conflict(
    kind: ConflictKind,
    orderId: Option<string>,
    date: Option<Day>,
    processName: Option<string>,
    detail: Detail,
    severity: Severity)

  datatype ValidationResult = ValidationResult(isValid: bool, conflicts: seq<Conflict>, warnings: seq<Conflict>)

  ghost predicate AllErrors(cs: seq<Conflict>)
  {
    forall i :: 0 <= i < |cs| ==> cs[i].severity == Error
  }

  // ---------------------------------------------------------------------
  // Late deliveries

  /** The conflict `checkLateDeliveries` reports for one order, if any. */
  function LateFor(o: PO.ProductionOrder, completion: map<string, Day>): (r: seq<Conflict>)
    ensures |r| <= 1
    ensures r != [] <==> o.id in completion && PO.IsLate(o, completion[o.id])
    ensures r != [] ==> r[0].kind == LateDelivery && r[0].orderId == Some(o.id) && r[0].severity == Error &&
                        r[0].detail == DaysLate(completion[o.id] - o.dueDate) && completion[o.id] - o.dueDate > 0
  {
    if o.id in completion && PO.IsLate(o, completion[o.id]) then
      [Conflict(LateDelivery, Some(o.id), None, None, DaysLate(Abs(PO.DaysUntilDue(o, completion[o.id]))), Error)]
    else []
  }

  function LateConflicts(orders: seq<PO.ProductionOrder>, completion: map<string, Day>): seq<Conflict>
  {
    if orders == [] then []
    else LateConflicts(orders[..|orders| - 1], completion) + LateFor(orders[|orders| - 1], completion)
  }

  /** `checkLateDeliveries` reports nothing exactly when no order is late. */
  lemma {:induction false} LateConflictsNone(orders: seq<PO.ProductionOrder>, completion: map<string, Day>)
    ensures |LateConflicts(orders, completion)| == 0 <==>
            forall i :: 0 <= i < |orders| ==> !(orders[i].id in completion && PO.IsLate(orders[i], completion[orders[i].id]))
  {
    if orders != [] {
      var n := |orders| - 1;
      LateConflictsNone(orders[..n], completion);
      assert forall i :: 0 <= i < n ==> orders[..n][i] == orders[i];
      assert |LateConflicts(orders, completion)| == |LateConflicts(orders[..n], completion)| + |LateFor(orders[n], completion)|;
    }
  }

  /** One late-delivery conflict per late order that has a completion date,
      in order-list order, and nothing else. */
  lemma {:induction false} LateConflictsSpec(orders: seq<PO.ProductionOrder>, completion: map<string, Day>)
    ensures |LateConflicts(orders, completion)| <= |orders|
    ensures forall c :: c in LateConflicts(orders, completion) <==>
              exists i :: 0 <= i < |orders| && c in LateFor(orders[i], completion)
  {
    if orders != [] {
      var n := |orders| - 1;
      LateConflictsSpec(orders[..n], completion);
      forall c | c in LateConflicts(orders, completion)
        ensures exists i :: 0 <= i < |orders| && c in LateFor(orders[i], completion)
      {
        if c in LateConflicts(orders[..n], completion) {
          var i :| 0 <= i < n && c in LateFor(orders[..n][i], completion);
          assert orders[i] == orders[..n][i];
        } else {
          assert c in LateFor(orders[n], completion);
        }
      }
      forall c, i | 0 <= i < |orders| && c in LateFor(orders[i], completion)
        ensures c in LateConflicts(orders, completion)
      {
        if i < n {
          assert orders[..n][i] == orders[i];
        }
      }
    }
  }

  /** `checkLateDeliveries`. */
  method CheckLateDeliveries(orders: seq<PO.ProductionOrder>, completion: map<string, Day>) returns (conflicts: seq<Conflict>)
    ensures conflicts == LateConflicts(orders, completion)
  {
    conflicts := [];
    var i := 0;
    while i < |orders|
      invariant 0 <= i <= |orders|
      invariant conflicts == LateConflicts(orders[..i], completion)
    {
      assert orders[..i + 1][..i] == orders[..i];
      var o := orders[i];
      if o.id in completion {
        var completionDate := completion[o.id];
        if PO.IsLate(o, completionDate) {
          var daysLate := PO.DaysUntilDue(o, completionDate);
          conflicts := conflicts + [Conflict(LateDelivery, Some(o.id), None, None, DaysLate(Abs(daysLate)), Error)];
        }
      }
      i := i + 1;
    }
    assert orders[..|orders|] == orders;
  }

  // ---------------------------------------------------------------------
  // Resource overload

  /** The conflict `checkResourceOverload` reports for one usage entry, if any. */
  function OverloadFor(u: SS.DailyResourceUsage): (r: seq<Conflict>)
    ensures |r| <= 1 && (r != [] <==> u.isOverloaded)
    ensures r != [] ==> r[0].kind == ResourceOverload && r[0].date == Some(u.date) && r[0].orderId.None? &&
                        r[0].severity == Error
  {
    if u.isOverloaded then
      [Conflict(ResourceOverload, None, Some(u.date), None, WorkerShortfall(u.assignedWorkers, u.availableWorkers), Error)]
    else []
  }

  function OverloadConflicts(usage: seq<SS.DailyResourceUsage>): seq<Conflict>
  {
    if usage == [] then []
    else OverloadConflicts(usage[..|usage| - 1]) + OverloadFor(usage[|usage| - 1])
  }

  /** `checkResourceOverload` reports nothing exactly when no day is overloaded. */
  lemma {:induction false} OverloadConflictsNone(usage: seq<SS.DailyResourceUsage>)
    ensures |OverloadConflicts(usage)| == 0 <==> forall i :: 0 <= i < |usage| ==> !usage[i].isOverloaded
  {
    if usage != [] {
      var n := |usage| - 1;
      OverloadConflictsNone(usage[..n]);
      assert forall i :: 0 <= i < n ==> usage[..n][i] == usage[i];
      assert |OverloadConflicts(usage)| == |OverloadConflicts(usage[..n])| + |OverloadFor(usage[n])|;
    }
  }

  /** The overloaded entries of the usage table, in table order. */
  function OverloadedDays(usage: seq<SS.DailyResourceUsage>): seq<SS.DailyResourceUsage>
  {
    if usage == [] then []
    else OverloadedDays(usage[..|usage| - 1]) + (if usage[|usage| - 1].isOverloaded then [usage[|usage| - 1]] else [])
  }

  /** Exactly one overload conflict per overloaded entry, in table order,
      carrying that entry's date and worker figures. */
  lemma {:induction false} OverloadConflictsSpec(usage: seq<SS.DailyResourceUsage>)
    ensures var cs := OverloadConflicts(usage);
            var ds := OverloadedDays(usage);
            |cs| == |ds| &&
            forall k :: 0 <= k < |cs| ==>
              ds[k].isOverloaded && ds[k] in usage &&
              cs[k].kind == ResourceOverload && cs[k].date == Some(ds[k].date) &&
              cs[k].detail == WorkerShortfall(ds[k].assignedWorkers, ds[k].availableWorkers)
  {
    if usage != [] {
      var n := |usage| - 1;
      OverloadConflictsSpec(usage[..n]);
      var cs := OverloadConflicts(usage);
      var ds := OverloadedDays(usage);
      forall k | 0 <= k < |cs|
        ensures ds[k].isOverloaded && ds[k] in usage &&
                cs[k].kind == ResourceOverload && cs[k].date == Some(ds[k].date) &&
                cs[k].detail == WorkerShortfall(ds[k].assignedWorkers, ds[k].availableWorkers)
      {
        if k < |OverloadConflicts(usage[..n])| {
          assert cs[k] == OverloadConflicts(usage[..n])[k] && ds[k] == OverloadedDays(usage[..n])[k];
          assert ds[k] in usage[..n];
        }
      }
    }
  }

  /** `checkResourceOverload`. */
  method CheckResourceOverload(usage: seq<SS.DailyResourceUsage>) returns (conflicts: seq<Conflict>)
    ensures conflicts == OverloadConflicts(usage)
  {
    conflicts := [];
    var i := 0;
    while i < |usage|
      invariant 0 <= i <= |usage|
      invariant conflicts == OverloadConflicts(usage[..i])
    {
      assert usage[..i + 1][..i] == usage[..i];
      var u := usage[i];
      if u.isOverloaded {
        conflicts := conflicts + [Conflict(ResourceOverload, None, Some(u.date), None,
                                           WorkerShortfall(u.assignedWorkers, u.availableWorkers), Error)];
      }
      i := i + 1;
    }
    assert usage[..|usage|] == usage;
  }

  // ---------------------------------------------------------------------
  // Grouping

  /** A JavaScript `Map` of groups: its keys in insertion order and the groups. */
  datatype Grouping = Grouping(keys: seq<string>, groups: map<string, seq<ScheduledProcess>>)

  function OrderKey(p: ScheduledProcess): string { p.orderId }

  function LineKey(p: ScheduledProcess): string { p.productionLineId }

  /** The keys of `ps` in order of first occurrence. */
  function FirstKeys(ps: seq<ScheduledProcess>, key: ScheduledProcess -> string): seq<string>
  {
    if ps == [] then []
    else
      var ks := FirstKeys(ps[..|ps| - 1], key);
      if key(ps[|ps| - 1]) in ks then ks else ks + [key(ps[|ps| - 1])]
  }

  /** The processes of `ps` with key `k`, in their order in `ps`. */
  function Members(ps: seq<ScheduledProcess>, key: ScheduledProcess -> string, k: string): seq<ScheduledProcess>
  {
    if ps == [] then []
    else Members(ps[..|ps| - 1], key, k) + (if key(ps[|ps| - 1]) == k then [ps[|ps| - 1]] else [])
  }

  /** Every key occurs once, and the keys are exactly those of `ps`. */
  lemma {:induction false} FirstKeysSpec(ps: seq<ScheduledProcess>, key: ScheduledProcess -> string)
    ensures Distinct(FirstKeys(ps, key))
    ensures forall k :: k in FirstKeys(ps, key) <==> exists i :: 0 <= i < |ps| && key(ps[i]) == k
  {
    if ps != [] {
      var n := |ps| - 1;
      FirstKeysSpec(ps[..n], key);
      forall k | k in FirstKeys(ps, key)
        ensures exists i :: 0 <= i < |ps| && key(ps[i]) == k
      {
        if k in FirstKeys(ps[..n], key) {
          var i :| 0 <= i < n && key(ps[..n][i]) == k;
          assert ps[i] == ps[..n][i];
        } else {
          assert key(ps[n]) == k;
        }
      }
      forall k, i | 0 <= i < |ps| && key(ps[i]) == k
        ensures k in FirstKeys(ps, key)
      {
        if i < n {
          assert key(ps[..n][i]) == k;
        }
      }
    }
  }

  /** A group holds exactly the processes with its key. */
  lemma {:induction false} MembersSpec(ps: seq<ScheduledProcess>, key: ScheduledProcess -> string, k: string)
    ensures forall x :: x in Members(ps, key, k) <==> x in ps && key(x) == k
    ensures (forall i :: 0 <= i < |ps| ==> key(ps[i]) != k) ==> Members(ps, key, k) == []
  {
    if ps != [] {
      var n := |ps| - 1;
      MembersSpec(ps[..n], key, k);
      assert ps == ps[..n] + [ps[n]];
      assert forall i :: 0 <= i < n ==> ps[..n][i] == ps[i];
    }
  }

  /** An earlier member of a group is related to a later process with the same key. */
  lemma MemberBeforeLast(ps: seq<ScheduledProcess>, key: ScheduledProcess -> string, k: string,
                         rel: (ScheduledProcess, ScheduledProcess) -> bool, a: nat)
    requires ps != [] && key(ps[|ps| - 1]) == k
    requires forall a, b :: 0 <= a < b < |ps| && key(ps[a]) == key(ps[b]) ==> rel(ps[a], ps[b])
    requires a < |Members(ps[..|ps| - 1], key, k)|
    ensures rel(Members(ps[..|ps| - 1], key, k)[a], ps[|ps| - 1])
  {
    var n := |ps| - 1;
    var h := Members(ps[..n], key, k);
    MembersSpec(ps[..n], key, k);
    assert h[a] in h;
    var a' :| 0 <= a' < n && ps[..n][a'] == h[a];
    assert ps[a'] == h[a] && key(ps[a']) == k;
  }

  /** A relation that holds between any two processes with the same key, in
      their order in `ps`, holds between any two members of a group in
      their order in the group. */
  lemma {:induction false} MembersKeepOrder(ps: seq<ScheduledProcess>, key: ScheduledProcess -> string, k: string,
                                            rel: (ScheduledProcess, ScheduledProcess) -> bool)
    requires forall a, b :: 0 <= a < b < |ps| && key(ps[a]) == key(ps[b]) ==> rel(ps[a], ps[b])
    ensures var g := Members(ps, key, k);
            forall a, b :: 0 <= a < b < |g| ==> rel(g[a], g[b])
  {
    if ps != [] {
      var n := |ps| - 1;
      assert forall a, b :: 0 <= a < b < n && key(ps[..n][a]) == key(ps[..n][b]) ==> rel(ps[..n][a], ps[..n][b]) by {
        forall a, b | 0 <= a < b < n
          ensures ps[..n][a] == ps[a] && ps[..n][b] == ps[b]
        {
        }
      }
      MembersKeepOrder(ps[..n], key, k, rel);
      assert forall x, y :: 0 <= x < y < |Members(ps[..n], key, k)| ==>
               rel(Members(ps[..n], key, k)[x], Members(ps[..n], key, k)[y]);
      var h := Members(ps[..n], key, k);
      var g := Members(ps, key, k);
      forall a, b | 0 <= a < b < |g|
        ensures rel(g[a], g[b])
      {
        if b >= |h| {
          assert key(ps[n]) == k && g == h + [ps[n]];
          MemberBeforeLast(ps, key, k, rel, a);
          assert g[a] == h[a] && g[b] == ps[n];
          assert rel(h[a], ps[n]);
        } else {
          assert g[a] == h[a] && g[b] == h[b];
          assert rel(h[a], h[b]);
        }
      }
    }
  }

  /** `g` is the grouping of `ps` by `key`. */
  ghost predicate Grouped(ps: seq<ScheduledProcess>, key: ScheduledProcess -> string, g: Grouping)
  {
    g.keys == FirstKeys(ps, key) &&
    (forall k :: k in g.groups <==> k in g.keys) &&
    forall k :: k in g.groups ==> g.groups[k] == Members(ps, key, k)
  }

  lemma FirstKeysSnoc(ps: seq<ScheduledProcess>, key: ScheduledProcess -> string, i: nat)
    requires i < |ps|
    ensures FirstKeys(ps[..i + 1], key) ==
            if key(ps[i]) in FirstKeys(ps[..i], key) then FirstKeys(ps[..i], key) else FirstKeys(ps[..i], key) + [key(ps[i])]
  {
    assert ps[..i + 1][..i] == ps[..i];
  }

  lemma MembersSnoc(ps: seq<ScheduledProcess>, key: ScheduledProcess -> string, i: nat, k: string)
    requires i < |ps|
    ensures Members(ps[..i + 1], key, k) == Members(ps[..i], key, k) + (if key(ps[i]) == k then [ps[i]] else [])
  {
    assert ps[..i + 1][..i] == ps[..i];
  }

  /** A key that has not been seen yet has no members. */
  lemma {:induction false} MembersUnseenKey(ps: seq<ScheduledProcess>, key: ScheduledProcess -> string, k: string)
    requires k !in FirstKeys(ps, key)
    ensures Members(ps, key, k) == []
  {
    if ps != [] {
      MembersUnseenKey(ps[..|ps| - 1], key, k);
    }
  }

  /** Appending `ps[i]` to its group (creating the group on first sight)
      groups one more process. */
  lemma GroupStep(ps: seq<ScheduledProcess>, key: ScheduledProcess -> string, i: nat, g0: Grouping, g: Grouping)
    requires i < |ps| && Grouped(ps[..i], key, g0)
    requires g.keys == if key(ps[i]) in g0.groups then g0.keys else g0.keys + [key(ps[i])]
    requires g.groups == g0.groups[key(ps[i]) := (if key(ps[i]) in g0.groups then g0.groups[key(ps[i])] else []) + [ps[i]]]
    ensures Grouped(ps[..i + 1], key, g)
  {
    var k := key(ps[i]);
    FirstKeysSnoc(ps, key, i);
    assert g.keys == FirstKeys(ps[..i + 1], key);
    if k !in g0.groups {
      MembersUnseenKey(ps[..i], key, k);
    }
    forall k' | k' in g.groups
      ensures g.groups[k'] == Members(ps[..i + 1], key, k')
    {
      MembersSnoc(ps, key, i, k');
    }
  }

  /** `groupProcessesByOrder` / `groupProcessesByLine`, with the key given. */
  method GroupBy(ps: seq<ScheduledProcess>, key: ScheduledProcess -> string) returns (g: Grouping)
    ensures g.keys == FirstKeys(ps, key)
    ensures forall k :: k in g.groups <==> k in g.keys
    ensures forall k :: k in g.groups ==> g.groups[k] == Members(ps, key, k)
  {
    g := Grouping([], map[]);
    var i := 0;
    while i < |ps|
      invariant 0 <= i <= |ps|
      invariant Grouped(ps[..i], key, g)
    {
      ghost var g0 := g;
      var p := ps[i];
      var k := key(p);
      if k !in g.groups {
        g := Grouping(g.keys + [k], g.groups[k := []]);
      }
      g := g.(groups := g.groups[k := g.groups[k] + [p]]);
      assert g.groups == g0.groups[k := (if k in g0.groups then g0.groups[k] else []) + [p]];
      GroupStep(ps, key, i, g0, g);
      i := i + 1;
    }
    assert ps[..|ps|] == ps;
  }

  method GroupProcessesByOrder(ps: seq<ScheduledProcess>) returns (g: Grouping)
    ensures g.keys == FirstKeys(ps, OrderKey)
    ensures forall k :: k in g.groups <==> k in g.keys
    ensures forall k :: k in g.groups ==> g.groups[k] == Members(ps, OrderKey, k)
  {
    g := GroupBy(ps, OrderKey);
  }

  method GroupProcessesByLine(ps: seq<ScheduledProcess>) returns (g: Grouping)
    ensures g.keys == FirstKeys(ps, LineKey)
    ensures forall k :: k in g.groups <==> k in g.keys
    ensures forall k :: k in g.groups ==> g.groups[k] == Members(ps, LineKey, k)
  {
    g := GroupBy(ps, LineKey);
  }

  // ---------------------------------------------------------------------
  // Sequence violations

  function IndexKey(p: ScheduledProcess): int { p.processIndex }

  /** The conflict reported when `current` starts before `previous` ends. */
  function OutOfOrder(orderId: string, previous: ScheduledProcess, current: ScheduledProcess): Conflict
  {
    Conflict(SequenceViolation, Some(orderId), None, Some(current.processName),
             StartsBeforePrevious(previous.processName, current.processName), Error)
  }

  /** The violation, if any, of the adjacent pair `(previous, current)`. */
  function PairViolation(orderId: string, previous: ScheduledProcess, current: ScheduledProcess): seq<Conflict>
  {
    if current.startDate < previous.endDate then [OutOfOrder(orderId, previous, current)] else []
  }

  /** The violations among the adjacent pairs `(s[i-1], s[i])` with `i < n`:
      a step that starts before its predecessor ends. */
  function AdjacentViolations(orderId: string, s: seq<ScheduledProcess>, n: nat): seq<Conflict>
    requires n <= |s|
  {
    if n <= 1 then [] else AdjacentViolations(orderId, s, n - 1) + PairViolation(orderId, s[n - 2], s[n - 1])
  }

  /** The violations of one order's group, sorted (stably) by step index. */
  function OrderViolations(orderId: string, group: seq<ScheduledProcess>): seq<Conflict>
  {
    var sorted := Sorting.SortBy(group, IndexKey);
    AdjacentViolations(orderId, sorted, |sorted|)
  }

  function SequenceOver(ps: seq<ScheduledProcess>, keys: seq<string>, n: nat): seq<Conflict>
    requires n <= |keys|
  {
    if n == 0 then [] else SequenceOver(ps, keys, n - 1) + OrderViolations(keys[n - 1], Members(ps, OrderKey, keys[n - 1]))
  }

  function SequenceConflicts(ps: seq<ScheduledProcess>): seq<Conflict>
  {
    var keys := FirstKeys(ps, OrderKey);
    SequenceOver(ps, keys, |keys|)
  }

  /** No violation is reported exactly when every adjacent pair is in order. */
  lemma {:induction false} AdjacentViolationsNone(orderId: string, s: seq<ScheduledProcess>, n: nat)
    requires n <= |s|
    ensures |AdjacentViolations(orderId, s, n)| == 0 <==> forall i :: 1 <= i < n ==> s[i - 1].endDate <= s[i].startDate
  {
    if n > 1 {
      AdjacentViolationsNone(orderId, s, n - 1);
      assert |AdjacentViolations(orderId, s, n)| == |AdjacentViolations(orderId, s, n - 1)| + |PairViolation(orderId, s[n - 2], s[n - 1])|;
    }
  }

  /** Each reported violation is an error for this order naming a step that
      starts before its predecessor ends. */
  lemma {:induction false} AdjacentViolationsShape(orderId: string, s: seq<ScheduledProcess>, n: nat)
    requires n <= |s|
    ensures forall c :: c in AdjacentViolations(orderId, s, n) ==>
              c.kind == SequenceViolation && c.orderId == Some(orderId) && c.severity == Error &&
              exists i :: 1 <= i < n && s[i].startDate < s[i - 1].endDate && c.processName == Some(s[i].processName)
  {
    if n > 1 {
      AdjacentViolationsShape(orderId, s, n - 1);
      var prev, last := AdjacentViolations(orderId, s, n - 1), PairViolation(orderId, s[n - 2], s[n - 1]);
      forall c: Conflict | c in prev + last
        ensures c.kind == SequenceViolation && c.orderId == Some(orderId) && c.severity == Error &&
                exists i :: 1 <= i < n && s[i].startDate < s[i - 1].endDate && c.processName == Some(s[i].processName)
      {
        if c in prev {
          var i :| 1 <= i < n - 1 && s[i].startDate < s[i - 1].endDate && c.processName == Some(s[i].processName);
          assert 1 <= i < n;
        } else {
          assert c in last;
          assert 1 <= n - 1 < n && s[n - 1].startDate < s[n - 2].endDate && c.processName == Some(s[n - 1].processName);
        }
      }
    }
  }

  /** The loop of `checkProcessSequence` over one order's processes. */
  method CheckOrderSequence(orderId: string, processes: seq<ScheduledProcess>) returns (conflicts: seq<Conflict>)
    ensures conflicts == OrderViolations(orderId, processes)
  {
    var sorted := Sorting.SortBy(processes, IndexKey);
    conflicts := [];
    if |sorted| <= 1 {
      return;
    }
    var i := 1;
    while i < |sorted|
      invariant 1 <= i <= |sorted|
      invariant conflicts == AdjacentViolations(orderId, sorted, i)
    {
      var previous := sorted[i - 1];
      var current := sorted[i];
      if current.startDate < previous.endDate {
        conflicts := conflicts + [OutOfOrder(orderId, previous, current)];
      }
      i := i + 1;
    }
  }

  /** The loop of `checkProcessSequence` over the order groups, in key order. */
  lemma SequenceOverSnoc(ps: seq<ScheduledProcess>, keys: seq<string>, n: nat, acc: seq<Conflict>, violations: seq<Conflict>)
    requires n < |keys| && acc == SequenceOver(ps, keys, n)
    requires violations == OrderViolations(keys[n], Members(ps, OrderKey, keys[n]))
    ensures acc + violations == SequenceOver(ps, keys, n + 1)
  {
  }

  method CheckOrderGroups(ps: seq<ScheduledProcess>, byOrder: Grouping) returns (conflicts: seq<Conflict>)
    requires forall k :: k in byOrder.keys ==> k in byOrder.groups && byOrder.groups[k] == Members(ps, OrderKey, k)
    ensures conflicts == SequenceOver(ps, byOrder.keys, |byOrder.keys|)
  {
    conflicts := [];
    var n := 0;
    while n != |byOrder.keys|
      invariant 0 <= n <= |byOrder.keys|
      invariant conflicts == SequenceOver(ps, byOrder.keys, n)
    {
      var orderId := byOrder.keys[n];
      var group := byOrder.groups[orderId];
      assert group == Members(ps, OrderKey, orderId);
      var violations := CheckOrderSequence(orderId, group);
      SequenceOverSnoc(ps, byOrder.keys, n, conflicts, violations);
      conflicts := conflicts + violations;
      n := n + 1;
    }
  }

  /** `checkProcessSequence`. */
  method CheckProcessSequence(ps: seq<ScheduledProcess>) returns (conflicts: seq<Conflict>)
    ensures conflicts == SequenceConflicts(ps)
  {
    var byOrder := GroupProcessesByOrder(ps);
    conflicts := CheckOrderGroups(ps, byOrder);
  }

  // ---------------------------------------------------------------------
  // Line conflicts

  /** `datesOverlap`: the half-open intervals `[s1, e1)` and `[s2, e2)` meet. */
  function DatesOverlap(s1: Day, e1: Day, s2: Day, e2: Day): (r: bool)
    ensures r <==> !(e1 <= s2 || e2 <= s1)
  {
    s1 < e2 && s2 < e1
  }

  /** The overlap test is symmetric, and intervals that only touch do not overlap. */
  lemma DatesOverlapSymmetric(s1: Day, e1: Day, s2: Day, e2: Day)
    ensures DatesOverlap(s1, e1, s2, e2) == DatesOverlap(s2, e2, s1, e1)
    ensures e1 == s2 ==> !DatesOverlap(s1, e1, s2, e2)
  {
  }

  /** The conflict reported for two overlapping processes on one line. */
  function OverlapConflict(p1: ScheduledProcess, p2: ScheduledProcess): Conflict
  {
    Conflict(LineConflict, Some(p1.orderId), None, None, Overlap(p1.processName, p1.orderId, p2.processName, p2.orderId), Error)
  }

  function PairConflict(p1: ScheduledProcess, p2: ScheduledProcess): seq<Conflict>
  {
    if DatesOverlap(p1.startDate, p1.endDate, p2.startDate, p2.endDate) then [OverlapConflict(p1, p2)] else []
  }

  /** The conflicts of the pairs `(s[i], s[j'])` with `i < j' < j`. */
  function RowConflicts(s: seq<ScheduledProcess>, i: nat, j: nat): (r: seq<Conflict>)
    requires i < |s| && j <= |s|
    ensures |r| == RowOverlaps(s, i, j)
  {
    if j <= i + 1 then [] else RowConflicts(s, i, j - 1) + PairConflict(s[i], s[j - 1])
  }

  /** The conflicts of the pairs whose first member is one of `s[..n]`. */
  function PairConflicts(s: seq<ScheduledProcess>, n: nat): (r: seq<Conflict>)
    requires n <= |s|
    ensures |r| == PairOverlaps(s, n)
  {
    if n == 0 then [] else PairConflicts(s, n - 1) + RowConflicts(s, n - 1, |s|)
  }

  function LineOver(ps: seq<ScheduledProcess>, keys: seq<string>, n: nat): seq<Conflict>
    requires n <= |keys|
  {
    if n == 0 then []
    else
      var group := Members(ps, LineKey, keys[n - 1]);
      LineOver(ps, keys, n - 1) + PairConflicts(group, |group|)
  }

  function LineConflicts(ps: seq<ScheduledProcess>): seq<Conflict>
  {
    var keys := FirstKeys(ps, LineKey);
    LineOver(ps, keys, |keys|)
  }

  /** The inner pair loop of `checkLineConflicts`: the pairs `(processes[i], processes[j])`
      with `i < j`, appended to `conflicts`. */
  method CheckLineRow(processes: seq<ScheduledProcess>, i: nat, conflicts: seq<Conflict>) returns (conflicts': seq<Conflict>)
    requires i < |processes|
    ensures conflicts' == conflicts + RowConflicts(processes, i, |processes|)
  {
    conflicts' := conflicts;
    var j := i + 1;
    while j < |processes|
      invariant i + 1 <= j <= |processes|
      invariant conflicts' == conflicts + RowConflicts(processes, i, j)
    {
      var process1 := processes[i];
      var process2 := processes[j];
      ghost var before := conflicts';
      if DatesOverlap(process1.startDate, process1.endDate, process2.startDate, process2.endDate) {
        conflicts' := conflicts' + [Conflict(LineConflict, Some(process1.orderId), None, None,
                                             Overlap(process1.processName, process1.orderId,
                                                     process2.processName, process2.orderId), Error)];
      }
      assert conflicts' == before + PairConflict(process1, process2);
      j := j + 1;
    }
  }

  /** The pair loops of `checkLineConflicts` over one line's processes. */
  method CheckLinePairs(processes: seq<ScheduledProcess>) returns (conflicts: seq<Conflict>)
    ensures conflicts == PairConflicts(processes, |processes|)
  {
    conflicts := [];
    var i := 0;
    while i < |processes|
      invariant 0 <= i <= |processes|
      invariant conflicts == PairConflicts(processes, i)
    {
      conflicts := CheckLineRow(processes, i, conflicts);
      i := i + 1;
    }
  }

  /** The loop of `checkLineConflicts` over the line groups, in key order. */
  lemma LineOverSnoc(ps: seq<ScheduledProcess>, keys: seq<string>, n: nat, acc: seq<Conflict>, pairs: seq<Conflict>)
    requires n < |keys| && acc == LineOver(ps, keys, n)
    requires pairs == PairConflicts(Members(ps, LineKey, keys[n]), |Members(ps, LineKey, keys[n])|)
    ensures acc + pairs == LineOver(ps, keys, n + 1)
  {
  }

  method CheckLineGroups(ps: seq<ScheduledProcess>, byLine: Grouping) returns (conflicts: seq<Conflict>)
    requires forall k :: k in byLine.keys ==> k in byLine.groups && byLine.groups[k] == Members(ps, LineKey, k)
    ensures conflicts == LineOver(ps, byLine.keys, |byLine.keys|)
  {
    conflicts := [];
    var n := 0;
    while n != |byLine.keys|
      invariant 0 <= n <= |byLine.keys|
      invariant conflicts == LineOver(ps, byLine.keys, n)
    {
      var lineId := byLine.keys[n];
      var pairs := CheckLinePairs(byLine.groups[lineId]);
      LineOverSnoc(ps, byLine.keys, n, conflicts, pairs);
      conflicts := conflicts + pairs;
      n := n + 1;
    }
  }

  /** `checkLineConflicts`. */
  method CheckLineConflicts(ps: seq<ScheduledProcess>) returns (conflicts: seq<Conflict>)
    ensures conflicts == LineConflicts(ps)
  {
    var byLine := GroupProcessesByLine(ps);
    conflicts := CheckLineGroups(ps, byLine);
  }

  // ---------------------------------------------------------------------
  // What a conflict-free schedule looks like

  /** The relation a well-sequenced order keeps between its earlier and later steps. */
  predicate InSequence(p: ScheduledProcess, q: ScheduledProcess)
  {
    p.endDate <= q.startDate && p.processIndex < q.processIndex
  }

  /** The relation processes sharing a line keep: the earlier one ends first. */
  predicate EndsBefore(p: ScheduledProcess, q: ScheduledProcess)
  {
    p.endDate <= q.startDate
  }

  /** One order's group reports nothing when its steps, in list order, each
      end before the next starts and have increasing indices. */
  lemma OrderViolationsNone(orderId: string, g: seq<ScheduledProcess>)
    requires forall a, b :: 0 <= a < b < |g| ==> InSequence(g[a], g[b])
    ensures OrderViolations(orderId, g) == []
  {
    assert Sorting.SortedBy(g, IndexKey);
    Sorting.SortBySortedIdentity(g, IndexKey);
    AdjacentViolationsNone(orderId, g, |g|);
  }

  /** The group of order `k` reports nothing when every order is well sequenced in `ps`. */
  lemma OrderGroupClean(ps: seq<ScheduledProcess>, k: string)
    requires forall a, b :: 0 <= a < b < |ps| && ps[a].orderId == ps[b].orderId ==> InSequence(ps[a], ps[b])
    ensures OrderViolations(k, Members(ps, OrderKey, k)) == []
  {
    assert forall a, b :: 0 <= a < b < |ps| && OrderKey(ps[a]) == OrderKey(ps[b]) ==> InSequence(ps[a], ps[b]);
    MembersKeepOrder(ps, OrderKey, k, InSequence);
    forall a, b | 0 <= a < b < |Members(ps, OrderKey, k)|
      ensures InSequence(Members(ps, OrderKey, k)[a], Members(ps, OrderKey, k)[b])
    {
      var rel: (ScheduledProcess, ScheduledProcess) -> bool := InSequence;
      assert rel(Members(ps, OrderKey, k)[a], Members(ps, OrderKey, k)[b]);
    }
    OrderViolationsNone(k, Members(ps, OrderKey, k));
  }

  lemma {:induction false} SequenceOverNone(ps: seq<ScheduledProcess>, keys: seq<string>, n: nat)
    requires n <= |keys|
    requires forall k :: OrderViolations(k, Members(ps, OrderKey, k)) == []
    ensures SequenceOver(ps, keys, n) == []
  {
    if n > 0 {
      SequenceOverNone(ps, keys, n - 1);
    }
  }

  /** `checkProcessSequence` reports nothing for a schedule in which, within
      every order, each process ends before any later-listed one starts and
      has a smaller step index. */
  lemma NoSequenceViolations(ps: seq<ScheduledProcess>)
    requires forall a, b :: 0 <= a < b < |ps| && ps[a].orderId == ps[b].orderId ==> InSequence(ps[a], ps[b])
    ensures SequenceConflicts(ps) == []
  {
    forall k {
      OrderGroupClean(ps, k);
    }
    SequenceOverNone(ps, FirstKeys(ps, OrderKey), |FirstKeys(ps, OrderKey)|);
  }

  /** The two processes' date ranges do not overlap. */
  predicate Apart(p: ScheduledProcess, q: ScheduledProcess)
  {
    !DatesOverlap(p.startDate, p.endDate, q.startDate, q.endDate)
  }

  /** How many of the pairs `(s[i], s[j'])` with `i < j' < j` overlap. */
  ghost function RowOverlaps(s: seq<ScheduledProcess>, i: nat, j: nat): nat
    requires i < |s| && j <= |s|
  {
    if j <= i + 1 then 0 else RowOverlaps(s, i, j - 1) + (if Apart(s[i], s[j - 1]) then 0 else 1)
  }

  /** How many of the pairs whose first member is one of `s[..n]` overlap. */
  ghost function PairOverlaps(s: seq<ScheduledProcess>, n: nat): nat
    requires n <= |s|
  {
    if n == 0 then 0 else PairOverlaps(s, n - 1) + RowOverlaps(s, n - 1, |s|)
  }

  lemma {:induction false} RowOverlapsNone(s: seq<ScheduledProcess>, i: nat, j: nat)
    requires i < |s| && j <= |s|
    ensures RowOverlaps(s, i, j) == 0 <==> forall j' :: i < j' < j ==> Apart(s[i], s[j'])
  {
    if j > i + 1 {
      RowOverlapsNone(s, i, j - 1);
    }
  }

  lemma {:induction false} PairOverlapsNone(s: seq<ScheduledProcess>, n: nat)
    requires n <= |s|
    ensures PairOverlaps(s, n) == 0 <==> forall i, j :: 0 <= i < n && i < j < |s| ==> Apart(s[i], s[j])
  {
    if n > 0 {
      PairOverlapsNone(s, n - 1);
      RowOverlapsNone(s, n - 1, |s|);
      if forall i, j :: 0 <= i < n - 1 && i < j < |s| ==> Apart(s[i], s[j]) {
        if forall j :: n - 1 < j < |s| ==> Apart(s[n - 1], s[j]) {
          forall i, j | 0 <= i < n && i < j < |s|
            ensures Apart(s[i], s[j])
          {
            if i == n - 1 {
              assert n - 1 < j < |s|;
            }
          }
        }
      }
    }
  }

  /** A line's pair loops report nothing exactly when no two of its processes overlap. */
  lemma PairConflictsNone(s: seq<ScheduledProcess>)
    ensures |PairConflicts(s, |s|)| == 0 <==> forall i, j :: 0 <= i < j < |s| ==> Apart(s[i], s[j])
  {
    PairOverlapsNone(s, |s|);
  }

  /** The group of line `k` reports nothing when processes sharing a line are disjoint in `ps`. */
  lemma LineGroupClean(ps: seq<ScheduledProcess>, k: string)
    requires forall a, b :: 0 <= a < b < |ps| && ps[a].productionLineId == ps[b].productionLineId ==> EndsBefore(ps[a], ps[b])
    ensures PairConflicts(Members(ps, LineKey, k), |Members(ps, LineKey, k)|) == []
  {
    assert forall a, b :: 0 <= a < b < |ps| && LineKey(ps[a]) == LineKey(ps[b]) ==> EndsBefore(ps[a], ps[b]);
    MembersKeepOrder(ps, LineKey, k, EndsBefore);
    forall a, b | 0 <= a < b < |Members(ps, LineKey, k)|
      ensures Apart(Members(ps, LineKey, k)[a], Members(ps, LineKey, k)[b])
    {
      var rel: (ScheduledProcess, ScheduledProcess) -> bool := EndsBefore;
      assert rel(Members(ps, LineKey, k)[a], Members(ps, LineKey, k)[b]);
    }
    PairConflictsNone(Members(ps, LineKey, k));
  }

  lemma {:induction false} LineOverNone(ps: seq<ScheduledProcess>, keys: seq<string>, n: nat)
    requires n <= |keys|
    requires forall k :: PairConflicts(Members(ps, LineKey, k), |Members(ps, LineKey, k)|) == []
    ensures LineOver(ps, keys, n) == []
  {
    if n > 0 {
      LineOverNone(ps, keys, n - 1);
    }
  }

  /** `checkLineConflicts` reports nothing for a schedule in which processes
      sharing a line end before any later-listed one starts. */
  lemma NoLineConflicts(ps: seq<ScheduledProcess>)
    requires forall a, b :: 0 <= a < b < |ps| && ps[a].productionLineId == ps[b].productionLineId ==> EndsBefore(ps[a], ps[b])
    ensures LineConflicts(ps) == []
  {
    forall k {
      LineGroupClean(ps, k);
    }
    LineOverNone(ps, FirstKeys(ps, LineKey), |FirstKeys(ps, LineKey)|);
  }


  // ---------------------------------------------------------------------
  // validate

  /** The conflicts of `validate`, in the source's fixed order. */
  function AllConflicts(ps: seq<ScheduledProcess>, orders: seq<PO.ProductionOrder>, completion: map<string, Day>,
                        usage: seq<SS.DailyResourceUsage>): seq<Conflict>
  {
    LateConflicts(orders, completion) + OverloadConflicts(usage) + SequenceConflicts(ps) + LineConflicts(ps)
  }

  /** `validate`: valid exactly when there is no conflict; warnings are never produced. */
  method Validate(ps: seq<ScheduledProcess>, orders: seq<PO.ProductionOrder>, completion: map<string, Day>,
                  usage: seq<SS.DailyResourceUsage>) returns (result: ValidationResult)
    ensures result.conflicts == AllConflicts(ps, orders, completion, usage)
    ensures result.isValid <==> result.conflicts == []
    ensures result.warnings == []
  {
    var conflicts: seq<Conflict> := [];
    var warnings: seq<Conflict> := [];
    var lateDeliveries := CheckLateDeliveries(orders, completion);
    assert conflicts + lateDeliveries == lateDeliveries;
    conflicts := conflicts + lateDeliveries;
    var resourceConflicts := CheckResourceOverload(usage);
    conflicts := conflicts + resourceConflicts;
    var sequenceViolations := CheckProcessSequence(ps);
    conflicts := conflicts + sequenceViolations;
    var lineConflicts := CheckLineConflicts(ps);
    conflicts := conflicts + lineConflicts;
    result := ValidationResult(|conflicts| == 0, conflicts, warnings);
  }
}
