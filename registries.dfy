/** A step registry: the nested dictionary from operation and stage to the
    list of triggers registered there, the append that AddTrigger performs,
    and the per-bucket sort by execution order. */
module Registries {
  import opened Xrm
  import opened Triggers

  /** operation -> stage -> triggers, in list order. */
  type Buckets = map<EventOperation, map<ExecutionStage, seq<PluginTrigger>>>

  /** Both levels of the dictionary hold the key. */
  predicate HasBucket(b: Buckets, op: EventOperation, st: ExecutionStage)
  {
    op in b && st in b[op]
  }

  /** The list registered for (op, st); a missing bucket reads as empty. */
  function Bucket(b: Buckets, op: EventOperation, st: ExecutionStage): seq<PluginTrigger>
  {
    if HasBucket(b, op, st) then b[op][st] else []
  }

  /** The registry after `AddTrigger(op, st, t)`: the buckets exist and `t` is
      the new last element of (op, st); every other bucket is as before. */
  function Added(b: Buckets, op: EventOperation, st: ExecutionStage, t: PluginTrigger): (r: Buckets)
    ensures HasBucket(r, op, st)
    ensures Bucket(r, op, st) == Bucket(b, op, st) + [t]
    ensures |Bucket(r, op, st)| == |Bucket(b, op, st)| + 1
    ensures r.Keys == b.Keys + {op}
    ensures forall o, s :: (o != op || s != st) ==>
              Bucket(r, o, s) == Bucket(b, o, s) && (HasBucket(r, o, s) <==> HasBucket(b, o, s))
  {
    var stages := if op in b then b[op] else map[];
    var list := if st in stages then stages[st] else [];
    b[op := stages[st := list + [t]]]
  }

  /** The dictionary object a PluginManager registers into. */
  class Registry {
    var buckets: Buckets

    constructor ()
      ensures buckets == map[]
    {
      buckets := map[];
    }
  }

  /** Non-decreasing execution order. */
  predicate SortedByOrder(ts: seq<PluginTrigger>)
  {
    forall i, j :: 0 <= i < j < |ts| ==> ts[i].order <= ts[j].order
  }

  /** A list stays sorted when an element no greater than all of it is put
      in front. */
  lemma SortedCons(head: PluginTrigger, rest: seq<PluginTrigger>)
    requires SortedByOrder(rest)
    requires forall x :: x in rest ==> head.order <= x.order
    ensures SortedByOrder([head] + rest)
  {
    var r := [head] + rest;
    forall i, j | 0 <= i < j < |r|
      ensures r[i].order <= r[j].order
    {
      if i > 0 {
        assert r[i] == rest[i - 1] && r[j] == rest[j - 1];
      } else {
        assert r[j] == rest[j - 1];
      }
    }
  }

  /** Inserts `t` into a sorted list before the first element it does not
      compare greater than. */
  function InsertByOrder(t: PluginTrigger, ts: seq<PluginTrigger>): (r: seq<PluginTrigger>)
    requires SortedByOrder(ts)
    ensures SortedByOrder(r)
    ensures multiset(r) == multiset(ts) + multiset{t}
    ensures forall x :: x in r ==> x == t || x in ts
    decreases |ts|
  {
    if ts == [] then [t]
    else if t.CompareTo(ts[0]) <= 0 then
      SortedCons(t, ts);
      [t] + ts
    else
      var rest := InsertByOrder(t, ts[1..]);
      assert forall x :: x in ts[1..] ==> ts[0].order <= x.order;
      SortedCons(ts[0], rest);
      assert ts == [ts[0]] + ts[1..];
      [ts[0]] + rest
  }

  /** `List.Sort()` with `CompareTo`: the result is in non-decreasing
      execution order and is a permutation of the list. The sort is not
      stable, so nothing is promised about the order of equal keys. */
  method SortByOrder(list: seq<PluginTrigger>) returns (sorted: seq<PluginTrigger>)
    ensures SortedByOrder(sorted)
    ensures multiset(sorted) == multiset(list)
  {
    sorted := [];
    for i := 0 to |list|
      invariant SortedByOrder(sorted)
      invariant multiset(sorted) == multiset(list[..i])
    {
      sorted := InsertByOrder(list[i], sorted);
      assert list[..i + 1] == list[..i] + [list[i]];
    }
    assert list[..|list|] == list;
  }

  /** `after` has the same buckets as `before`, each sorted by execution
      order and a permutation of the one before. */
  ghost predicate SortedVersionOf(after: Buckets, before: Buckets)
  {
    && after.Keys == before.Keys
    && (forall op :: op in after ==> after[op].Keys == before[op].Keys)
    && (forall op, st :: HasBucket(after, op, st) ==>
          SortedByOrder(after[op][st]) && multiset(after[op][st]) == multiset(before[op][st]))
  }

  /** A non-empty set of stages has a member to pick. */
  lemma StagesHaveMember(stages: set<ExecutionStage>)
    requires stages != {}
    ensures exists st :: st in stages
  {
    if forall st :: st !in stages {
      assert false;
    }
  }

  /** Sorts every list of one operation's stage dictionary. */
  method SortStages(stages: map<ExecutionStage, seq<PluginTrigger>>)
    returns (sortedStages: map<ExecutionStage, seq<PluginTrigger>>)
    ensures sortedStages.Keys == stages.Keys
    ensures forall st :: st in sortedStages ==>
              SortedByOrder(sortedStages[st]) && multiset(sortedStages[st]) == multiset(stages[st])
  {
    sortedStages := stages;
    var todo := stages.Keys;
    while todo != {}
      invariant todo <= stages.Keys
      invariant sortedStages.Keys == stages.Keys
      invariant forall st :: st in todo ==> sortedStages[st] == stages[st]
      invariant forall st :: st in sortedStages && st !in todo ==>
                  SortedByOrder(sortedStages[st]) && multiset(sortedStages[st]) == multiset(stages[st])
      decreases todo
    {
      StagesHaveMember(todo);
      var stage :| stage in todo;
      var list := SortByOrder(sortedStages[stage]);
      sortedStages := sortedStages[stage := list];
      todo := todo - {stage};
    }
  }

  /** The triggers of `ts` registered on (op, st), in list order. */
  function For(ts: seq<PluginTrigger>, op: EventOperation, st: ExecutionStage): seq<PluginTrigger>
  {
    if ts == [] then []
    else (if ts[0].operation == op && ts[0].stage == st then [ts[0]] else []) + For(ts[1..], op, st)
  }

  /** The registry after adding each trigger of `ts`, in order, under its
      own operation and stage. */
  function AddAll(b: Buckets, ts: seq<PluginTrigger>): Buckets
    decreases |ts|
  {
    if ts == [] then b else AddAll(Added(b, ts[0].operation, ts[0].stage, ts[0]), ts[1..])
  }

  /** Adding a list of triggers appends, to each bucket, exactly the triggers
      registered there, in their order, after what the bucket held. */
  lemma {:induction false} AddAllBucket(b: Buckets, ts: seq<PluginTrigger>, op: EventOperation, st: ExecutionStage)
    ensures Bucket(AddAll(b, ts), op, st) == Bucket(b, op, st) + For(ts, op, st)
    decreases |ts|
  {
    if ts != [] {
      var t := ts[0];
      var b1 := Added(b, t.operation, t.stage, t);
      assert AddAll(b, ts) == AddAll(b1, ts[1..]);
      AddAllBucket(b1, ts[1..], op, st);
      if t.operation == op && t.stage == st {
        assert Bucket(b1, op, st) == Bucket(b, op, st) + [t];
        assert For(ts, op, st) == [t] + For(ts[1..], op, st);
      } else {
        assert Bucket(b1, op, st) == Bucket(b, op, st);
        assert For(ts, op, st) == For(ts[1..], op, st);
      }
    }
  }

  /** Adding triggers never removes a bucket. */
  lemma {:induction false} AddAllKeepsBuckets(b: Buckets, ts: seq<PluginTrigger>, op: EventOperation, st: ExecutionStage)
    requires HasBucket(b, op, st)
    ensures HasBucket(AddAll(b, ts), op, st)
    decreases |ts|
  {
    if ts != [] {
      var b1 := Added(b, ts[0].operation, ts[0].stage, ts[0]);
      AddAllKeepsBuckets(b1, ts[1..], op, st);
    }
  }

  /** A trigger added after sorting goes to the end of its bucket, because
      later registrations are not re-sorted: a sorted bucket stays sorted
      exactly when it was empty or its last trigger's order is no greater
      than the new one's. */
  lemma AppendAfterSortMayUnsort(b: Buckets, op: EventOperation, st: ExecutionStage, late: PluginTrigger)
    requires SortedByOrder(Bucket(b, op, st))
    ensures var before := Bucket(b, op, st);
            SortedByOrder(Bucket(Added(b, op, st, late), op, st))
            <==> before == [] || before[|before| - 1].order <= late.order
  {
    var before := Bucket(b, op, st);
    var after := Bucket(Added(b, op, st, late), op, st);
    assert after == before + [late];
    if before != [] && before[|before| - 1].order > late.order {
      assert after[|before| - 1].order > after[|before|].order;
    } else {
      forall i, j | 0 <= i < j < |after|
        ensures after[i].order <= after[j].order
      {
        if j < |before| {
          assert after[i] == before[i] && after[j] == before[j];
        } else {
          assert after[i] == before[i] && after[j] == late;
          assert before[i].order <= before[|before| - 1].order;
        }
      }
    }
  }
}
