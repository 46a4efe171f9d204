/**
 * DirectusStorageDriver (storage.py:200-257): opening a driver from its
 * configuration, reconciling the collection's fields with a record, and
 * `add`, which stores one record as a new row. Each method is proved
 * against a pure Run that says which requests it sends, what the backend
 * holds afterwards and how the call ends; the lemmas below are about those
 * Runs.
 */
module Driver {
  import opened Wrappers
  import opened Remote
  import opened Directus
  import opened Fields
  import opened Config

  // ---------------------------------------------------------------------
  // Row ids (storage.py:243-247)
  // ---------------------------------------------------------------------

  /** Python's `max` over a non-empty list. */
  function MaxOf(ids: seq<int>): (m: int)
    requires ids != []
    ensures m in ids
    ensures forall x :: x in ids ==> x <= m
  {
    if |ids| == 1 then ids[0]
    else
      var rest := MaxOf(ids[1..]);
      assert forall x :: x in ids ==> x == ids[0] || x in ids[1..];
      if ids[0] > rest then ids[0] else rest
  }

  /** The id `add` gives the new row: one past the largest stored id, or 1. */
  function NextRowId(items: Option<seq<int>>): (id: int)
    ensures items.None? || items.value == [] ==> id == 1
    ensures items.Some? && items.value != [] ==> id - 1 in items.value
    ensures items.Some? ==> forall x :: x in items.value ==> x < id
  {
    if items.Some? && items.value != [] then MaxOf(items.value) + 1 else 1
  }

  /** The id does not depend on the order the rows are listed in. */
  lemma NextRowIdOrderFree(a: seq<int>, b: seq<int>)
    requires multiset(a) == multiset(b)
    ensures NextRowId(Some(a)) == NextRowId(Some(b))
  {
    assert forall x :: x in a <==> x in multiset(a);
    assert forall x :: x in b <==> x in multiset(b);
    if a != [] {
      assert a[0] in b;
    }
  }

  lemma NextRowIdExamples()
    ensures NextRowId(Some([3, 7, 2])) == 8
    ensures NextRowId(Some([])) == 1 && NextRowId(None) == 1
  {
    var ids := [3, 7, 2];
    assert 7 in ids;
  }

  /** Storing the assigned id makes the next one one larger. */
  lemma NextRowIdAfterStore(ids: Option<seq<int>>)
    ensures NextRowId(Some(ids.GetOr([]) + [NextRowId(ids)])) == NextRowId(ids) + 1
  {
    var id := NextRowId(ids);
    var stored := ids.GetOr([]) + [id];
    assert id in stored;
    assert forall x :: x in stored ==> x in ids.GetOr([]) || x == id;
  }

  // ---------------------------------------------------------------------
  // Field reconciliation plan (storage.py:225-231)
  // ---------------------------------------------------------------------

  /** One `createField(name, dataType)` call. */
  datatype FieldCall = FieldCall(name: string, dataType: Option<string>)

  /** The call `_createMissingFields` makes for a record item. */
  function CallFor(f: Field): FieldCall
  {
    FieldCall(f.name, DataType(f.kind))
  }

  /** The name, and the type, of the field holding a row's timestamp. */
  const TimestampField: string := "timestamp"

  /** `createField('timestamp', 'timestamp')`. */
  const TimestampCall := FieldCall(TimestampField, Some(TimestampField))

  /** The loop over the record: one call per item whose name the remote list lacks. */
  function MissingCalls(remote: seq<string>, record: seq<Field>): (calls: seq<FieldCall>)
    ensures |calls| <= |record|
  {
    if record == [] then []
    else
      var last := record[|record| - 1];
      MissingCalls(remote, record[..|record| - 1]) + (if last.name in remote then [] else [CallFor(last)])
  }

  /** No call is made for a name the remote list already has. */
  lemma {:induction false} MissingCallsAbsent(remote: seq<string>, record: seq<Field>)
    ensures forall k :: 0 <= k < |MissingCalls(remote, record)| ==> MissingCalls(remote, record)[k].name !in remote
    decreases |record|
  {
    if record != [] {
      MissingCallsAbsent(remote, record[..|record| - 1]);
    }
  }

  /** Every call `_createMissingFields` makes, in order. */
  function ReconcilePlan(remote: seq<string>, record: seq<Field>): seq<FieldCall>
  {
    (if TimestampField in remote then [] else [TimestampCall]) + MissingCalls(remote, record)
  }

  /** The calls for a record are those for its first part, then those for the rest. */
  lemma {:induction false} MissingCallsAppend(remote: seq<string>, a: seq<Field>, b: seq<Field>)
    ensures MissingCalls(remote, a + b) == MissingCalls(remote, a) + MissingCalls(remote, b)
    decreases |b|
  {
    if b != [] {
      var b' := b[..|b| - 1];
      assert (a + b)[..|a + b| - 1] == a + b';
      MissingCallsAppend(remote, a, b');
    } else {
      assert a + b == a;
    }
  }

  /** Every item whose name is missing gets its call, whatever else the record holds. */
  lemma {:induction false} MissingCallsComplete(remote: seq<string>, record: seq<Field>, i: nat)
    requires i < |record| && record[i].name !in remote
    ensures CallFor(record[i]) in MissingCalls(remote, record)
  {
    MissingCallsAppend(remote, record[..i], record[i..]);
    MissingCallsAppend(remote, [record[i]], record[i + 1..]);
    assert record[..i] + record[i..] == record;
    assert [record[i]] + record[i + 1..] == record[i..];
    assert MissingCalls(remote, [record[i]]) == [CallFor(record[i])] by {
      assert [record[i]][..0] == [];
    }
  }

  /** Nothing is created when every name is already there. */
  lemma {:induction false} MissingCallsNone(remote: seq<string>, record: seq<Field>)
    requires forall i :: 0 <= i < |record| ==> record[i].name in remote
    ensures MissingCalls(remote, record) == []
  {
    if record != [] {
      MissingCallsNone(remote, record[..|record| - 1]);
    }
  }

  /** The timestamp field is created, and created first, exactly when the remote list lacks it. */
  lemma ReconcileTimestampFirst(remote: seq<string>, record: seq<Field>)
    ensures var plan := ReconcilePlan(remote, record);
      "timestamp" !in remote <==> (plan != [] && plan[0] == TimestampCall)
  {
    MissingCallsAbsent(remote, record);
  }

  /**
   * The remote list is read once: an item named like one already present
   * is skipped, and every item with a missing name gets its own call, even
   * when the name repeats.
   */
  lemma ReconcileExample(a: Field, b: Field)
    requires a.name != b.name && a.name != "timestamp" && b.name != "timestamp"
    ensures ReconcilePlan([a.name], [a, b, b]) == [TimestampCall, CallFor(b), CallFor(b)]
  {
    MissingCallsAppend([a.name], [a], [b, b]);
    MissingCallsAppend([a.name], [b], [b]);
    assert [a] + [b, b] == [a, b, b];
    assert [b] + [b] == [b, b];
    assert MissingCalls([a.name], [a]) == [] by {
      assert [a][..0] == [];
    }
    assert MissingCalls([a.name], [b]) == [CallFor(b)] by {
      assert [b][..0] == [];
    }
  }

  lemma AppendAssoc<T>(a: seq<T>, b: seq<T>, c: seq<T>)
    ensures (a + b) + c == a + (b + c)
  {
  }

  // ---------------------------------------------------------------------
  // Running the calls
  // ---------------------------------------------------------------------

  /** The requests a sequence of calls sent, the backend after them, and how they ended. */
  datatype Run = Run(requests: seq<Request>, after: Backend, outcome: Reply<()>)

  /** One more `createField` call, unless an earlier call raised. */
  function Then(prev: Run, c: string, call: FieldCall): Run
  {
    if prev.outcome.Raised? then prev
    else
      var s := CreateFieldStep(c, call.name, call.dataType, prev.after);
      Run(prev.requests + s.requests, s.after, Ignore(s.result))
  }

  /** The `createField` calls of a plan, in order, stopping at the first that raises. */
  function RunCreates(c: string, plan: seq<FieldCall>, st: Backend): Run
    decreases |plan|
  {
    if plan == [] then Run([], st, Returned(()))
    else Then(RunCreates(c, plan[..|plan| - 1], st), c, plan[|plan| - 1])
  }

  lemma RunCreatesSnoc(c: string, plan: seq<FieldCall>, call: FieldCall, st: Backend)
    ensures RunCreates(c, plan + [call], st) == Then(RunCreates(c, plan, st), c, call)
  {
    assert (plan + [call])[..|plan|] == plan;
  }

  /** Once a call has raised, later calls are not made. */
  lemma {:induction false} RunCreatesStopped(c: string, p: seq<FieldCall>, q: seq<FieldCall>, st: Backend)
    requires RunCreates(c, p, st).outcome.Raised?
    ensures RunCreates(c, p + q, st) == RunCreates(c, p, st)
    decreases |q|
  {
    if q == [] {
      assert p + q == p;
    } else {
      var q' := q[..|q| - 1];
      RunCreatesStopped(c, p, q', st);
      assert p + q == (p + q') + [q[|q| - 1]];
      RunCreatesSnoc(c, p + q', q[|q| - 1], st);
    }
  }

  /** Calls that all returned are followed by the next calls from the state they left. */
  lemma {:induction false} RunCreatesAppend(c: string, p: seq<FieldCall>, q: seq<FieldCall>, st: Backend)
    requires RunCreates(c, p, st).outcome.Returned?
    ensures var first := RunCreates(c, p, st);
      var second := RunCreates(c, q, first.after);
      RunCreates(c, p + q, st) == Run(first.requests + second.requests, second.after, second.outcome)
    decreases |q|
  {
    var first := RunCreates(c, p, st);
    if q == [] {
      assert p + q == p;
      assert first.requests + [] == first.requests;
    } else {
      var q' := q[..|q| - 1];
      var x := q[|q| - 1];
      RunCreatesAppend(c, p, q', st);
      assert p + q == (p + q') + [x];
      RunCreatesSnoc(c, p + q', x, st);
      var second' := RunCreates(c, q', first.after);
      if second'.outcome.Returned? {
        var s := CreateFieldStep(c, x.name, x.dataType, second'.after);
        AppendAssoc(first.requests, second'.requests, s.requests);
      }
    }
  }

  /** The POST each call sends when it has a data type. */
  function FieldPosts(c: string, plan: seq<FieldCall>): seq<Request>
  {
    seq(|plan|, i requires 0 <= i < |plan| =>
      Post(FieldsOf(c), FieldSpec(plan[i].name, ReplaceReal(plan[i].dataType.GetOr("")), "data_usage")))
  }

  /** The listing entries the calls of a plan add. */
  function Created(plan: seq<FieldCall>): seq<FieldInfo>
  {
    seq(|plan|, i requires 0 <= i < |plan| => FieldInfo(plan[i].name, ReplaceReal(plan[i].dataType.GetOr(""))))
  }

  predicate AllTyped(plan: seq<FieldCall>)
  {
    forall i :: 0 <= i < |plan| ==> plan[i].dataType.Some?
  }

  /**
   * Against a backend that answers JSON, calls that all have a data type
   * all succeed: each sends its POST and adds its field to the listing.
   */
  lemma {:induction false} RunCreatesTyped(c: string, plan: seq<FieldCall>, st: Backend)
    requires st.json && AllTyped(plan)
    ensures var run := RunCreates(c, plan, st);
      && run.outcome == Returned(())
      && run.requests == FieldPosts(c, plan)
      && run.after == st.(fields := Extended(st.fields, Created(plan)))
    decreases |plan|
  {
    if plan != [] {
      var p := plan[..|plan| - 1];
      RunCreatesTyped(c, p, st);
      assert FieldPosts(c, plan) == FieldPosts(c, p) + [FieldPosts(c, plan)[|p|]];
      assert Created(plan) == Created(p) + [Created(plan)[|p|]];
      assert st.fields.GetOr([]) + Created(plan) == Extended(st.fields, Created(p)).GetOr([]) + [Created(plan)[|p|]];
    }
  }

  /** A listing after entries were appended to it; no entries leave it as it was. */
  function Extended(fields: Option<seq<FieldInfo>>, infos: seq<FieldInfo>): Option<seq<FieldInfo>>
  {
    if infos == [] then fields else Some(fields.GetOr([]) + infos)
  }

  /** A call without a data type, reached against a JSON backend, raises AttributeError. */
  lemma {:induction false} RunCreatesUntyped(c: string, plan: seq<FieldCall>, st: Backend)
    requires st.json && !AllTyped(plan)
    ensures RunCreates(c, plan, st).outcome == Raised(AttributeError)
    decreases |plan|
  {
    var p := plan[..|plan| - 1];
    if AllTyped(p) {
      RunCreatesTyped(c, p, st);
    } else {
      RunCreatesUntyped(c, p, st);
    }
  }

  /** `_createMissingFields`: read the remote names once, then make the planned calls. */
  function ReconcileRun(c: string, record: seq<Field>, st: Backend): Run
  {
    var fields := FieldsStep(c, st);
    match fields.result
    case Raised(e) => Run(fields.requests, fields.after, Raised(e))
    case Returned(remote) =>
      var creates := RunCreates(c, ReconcilePlan(remote, record), fields.after);
      Run(fields.requests + creates.requests, creates.after, creates.outcome)
  }

  /** The timestamp call of `_createMissingFields`, made only when the remote list lacks it. */
  function Stamp(c: string, remote: seq<string>, st: Backend): Run
  {
    if TimestampField in remote then Run([], st, Returned(()))
    else Then(Run([], st, Returned(())), c, TimestampCall)
  }

  /** The item calls of `_createMissingFields`, made only when the timestamp call returned. */
  function Rest(c: string, remote: seq<string>, record: seq<Field>, stamp: Run): Run
  {
    if stamp.outcome.Raised? then Run([], stamp.after, stamp.outcome)
    else RunCreates(c, MissingCalls(remote, record), stamp.after)
  }

  /** `_createMissingFields` after a successful read: the timestamp call, then the item calls. */
  lemma ReconcileRunParts(c: string, record: seq<Field>, st: Backend, remote: seq<string>)
    requires FieldsStep(c, st).result == Returned(remote)
    ensures var stamp := Stamp(c, remote, st);
      var rest := Rest(c, remote, record, stamp);
      ReconcileRun(c, record, st) == Run(FieldsStep(c, st).requests + (stamp.requests + rest.requests), rest.after, rest.outcome)
  {
    var stamp := Stamp(c, remote, st);
    var prefix := if TimestampField in remote then [] else [TimestampCall];
    RunCreatesSnoc(c, [], TimestampCall, st);
    assert RunCreates(c, prefix, st) == stamp;
    RunCreatesAppend(c, prefix, MissingCalls(remote, record), st);
  }

  /** Once a call has raised, the remaining items add no calls. */
  lemma MissingStopped(c: string, remote: seq<string>, record: seq<Field>, i: nat, st: Backend)
    requires i <= |record| && RunCreates(c, MissingCalls(remote, record[..i]), st).outcome.Raised?
    ensures RunCreates(c, MissingCalls(remote, record), st) == RunCreates(c, MissingCalls(remote, record[..i]), st)
  {
    var head, tail := record[..i], record[i..];
    assert head + tail == record;
    MissingCallsAppend(remote, head, tail);
    RunCreatesStopped(c, MissingCalls(remote, head), MissingCalls(remote, tail), st);
  }

  /** One more item runs its call, if its name is missing, after those for the items before it. */
  lemma MissingCallsNext(c: string, remote: seq<string>, record: seq<Field>, i: nat, st: Backend)
    requires i < |record|
    ensures var before := RunCreates(c, MissingCalls(remote, record[..i]), st);
      RunCreates(c, MissingCalls(remote, record[..i + 1]), st) ==
        if record[i].name in remote then before else Then(before, c, CallFor(record[i]))
  {
    var p := MissingCalls(remote, record[..i]);
    assert record[..i + 1][..i] == record[..i];
    if record[i].name in remote {
      assert MissingCalls(remote, record[..i + 1]) == p + [];
      assert p + [] == p;
    } else {
      assert MissingCalls(remote, record[..i + 1]) == p + [CallFor(record[i])];
      RunCreatesSnoc(c, p, CallFor(record[i]), st);
    }
  }

  // ---------------------------------------------------------------------
  // The row (storage.py:251-255)
  // ---------------------------------------------------------------------

  /** The names of a record's items. */
  function Names(record: seq<Field>): set<string>
  {
    set f | f in record :: f.name
  }

  /** `data[item.name] = item.value` for each item in turn. */
  function Assign(data: map<string, Json>, record: seq<Field>): (m: map<string, Json>)
    ensures m.Keys == data.Keys + Names(record)
  {
    if record == [] then data
    else
      var last := record[|record| - 1];
      assert Names(record) == Names(record[..|record| - 1]) + {last.name} by {
        assert record == record[..|record| - 1] + [last];
      }
      Assign(data, record[..|record| - 1])[last.name := JStr(last.value)]
  }

  /** The row `add` posts: its id, its timestamp, then the record's items. */
  function RowData(rowId: int, timestamp: string, record: seq<Field>): map<string, Json>
  {
    Assign(map["id" := JInt(rowId), "timestamp" := JStr(timestamp)], record)
  }

  /** The last item with a name decides that name's value. */
  lemma {:induction false} AssignLastWins(data: map<string, Json>, record: seq<Field>, i: nat)
    requires i < |record|
    requires forall j :: i < j < |record| ==> record[j].name != record[i].name
    ensures Assign(data, record)[record[i].name] == JStr(record[i].value)
    decreases |record|
  {
    if i < |record| - 1 {
      AssignLastWins(data, record[..|record| - 1], i);
    }
  }

  /** A name no item carries keeps the value it had. */
  lemma {:induction false} AssignKeeps(data: map<string, Json>, record: seq<Field>, k: string)
    requires k in data && k !in Names(record)
    ensures Assign(data, record)[k] == data[k]
    decreases |record|
  {
    if record != [] {
      assert record[..|record| - 1] <= record;
      assert Names(record[..|record| - 1]) <= Names(record);
      AssignKeeps(data, record[..|record| - 1], k);
    }
  }

  /**
   * The posted row: keys `id`, `timestamp` and the item names; `id` and
   * `timestamp` hold the injected values unless an item of that name
   * replaces them; and each name holds the value of its last item.
   */
  lemma RowDataShape(rowId: int, timestamp: string, record: seq<Field>)
    ensures RowData(rowId, timestamp, record).Keys == {"id", "timestamp"} + Names(record)
    ensures "id" !in Names(record) ==> RowData(rowId, timestamp, record)["id"] == JInt(rowId)
    ensures "timestamp" !in Names(record) ==> RowData(rowId, timestamp, record)["timestamp"] == JStr(timestamp)
    ensures forall i :: 0 <= i < |record| && (forall j :: i < j < |record| ==> record[j].name != record[i].name) ==>
      RowData(rowId, timestamp, record)[record[i].name] == JStr(record[i].value)
  {
    var data := map["id" := JInt(rowId), "timestamp" := JStr(timestamp)];
    if "id" !in Names(record) {
      AssignKeeps(data, record, "id");
    }
    if "timestamp" !in Names(record) {
      AssignKeeps(data, record, "timestamp");
    }
    forall i | 0 <= i < |record| && (forall j :: i < j < |record| ==> record[j].name != record[i].name)
      ensures RowData(rowId, timestamp, record)[record[i].name] == JStr(record[i].value)
    {
      AssignLastWins(data, record, i);
    }
  }

  // ---------------------------------------------------------------------
  // add (storage.py:233-257)
  // ---------------------------------------------------------------------

  /**
   * The start of `add`: cache clear, item read, existence check, and the
   * collection's creation when it is missing.
   */
  function Prelude(c: string, st: Backend): Run
  {
    var clear := ClearCacheStep(st);
    var items := ItemsStep(c, clear.after);
    var check := ExistsStep(c, items.after);
    var head := clear.requests + items.requests + check.requests;
    if check.result.value then Run(head, check.after, Returned(()))
    else
      var create := CreateCollectionStep(c, check.after);
      Run(head + create.requests, create.after, Ignore(create.result))
  }

  /** The rest of `add`: field reconciliation, the row's POST and a last cache clear. */
  function Finish(c: string, row: map<string, Json>, record: seq<Field>, st: Backend): Run
  {
    var fields := ReconcileRun(c, record, st);
    if fields.outcome.Raised? then fields
    else
      var post := PostItemStep(c, row, fields.after);
      if post.result.Raised? then Run(fields.requests + post.requests, post.after, Ignore(post.result))
      else
        var clear := ClearCacheStep(post.after);
        Run(fields.requests + post.requests + clear.requests, clear.after, Returned(()))
  }

  /** What `add` does, call by call; an exception ends it where it is raised. */
  function AddRun(c: string, timestamp: string, record: seq<Field>, st: Backend): Run
  {
    var prelude := Prelude(c, st);
    if prelude.outcome.Raised? then prelude
    else
      var rowId := NextRowId(ItemsStep(c, st).result.value);
      var rest := Finish(c, RowData(rowId, timestamp, record), record, prelude.after);
      Run(prelude.requests + rest.requests, rest.after, rest.outcome)
  }

  /** The names the backend lists for the collection. */
  function RemoteNames(st: Backend): seq<string>
  {
    FieldNames(st.fields.GetOr([]))
  }

  /** Every item whose name the remote list lacks carries a data type. */
  predicate MissingTyped(remote: seq<string>, record: seq<Field>)
  {
    forall i :: 0 <= i < |record| && record[i].name !in remote ==> record[i].kind != Untyped
  }

  /**
   * The planned calls all carry a data type exactly when no GenericField
   * has a missing name: a GenericField already listed plans no call.
   */
  lemma {:induction false} MissingCallsTyped(remote: seq<string>, record: seq<Field>)
    ensures AllTyped(MissingCalls(remote, record)) <==> MissingTyped(remote, record)
    decreases |record|
  {
    if record != [] {
      var init, last := record[..|record| - 1], record[|record| - 1];
      MissingCallsTyped(remote, init);
      var p := MissingCalls(remote, init);
      var tail := if last.name in remote then [] else [CallFor(last)];
      assert MissingCalls(remote, record) == p + tail;
      assert AllTyped(p + tail) <==> AllTyped(p) && AllTyped(tail) by {
        assert forall k :: 0 <= k < |p| ==> (p + tail)[k] == p[k];
        assert forall k :: 0 <= k < |tail| ==> (p + tail)[|p| + k] == tail[k];
      }
      assert AllTyped(tail) <==> (last.name !in remote ==> last.kind != Untyped) by {
        if last.name !in remote {
          assert tail[0] == CallFor(last) && |tail| == 1;
          assert DataType(last.kind).Some? <==> last.kind != Untyped;
        }
      }
      assert MissingTyped(remote, record) <==> MissingTyped(remote, init) && (last.name !in remote ==> last.kind != Untyped) by {
        assert forall i :: 0 <= i < |init| ==> init[i] == record[i];
      }
    }
  }

  /** The timestamp call is typed, so the whole plan is typed exactly when the item calls are. */
  lemma PlanTyped(remote: seq<string>, record: seq<Field>)
    ensures AllTyped(ReconcilePlan(remote, record)) <==> MissingTyped(remote, record)
  {
    MissingCallsTyped(remote, record);
    var head := if TimestampField in remote then [] else [TimestampCall];
    var p := MissingCalls(remote, record);
    assert forall k :: 0 <= k < |p| ==> (head + p)[|head| + k] == p[k];
  }

  /**
   * Against a backend that answers JSON, the start of `add` sends the cache
   * clear, the item read and the existence check, creates the collection only
   * when it is missing, and returns normally with the collection in place.
   */
  lemma PreludeJson(c: string, st: Backend)
    requires st.json
    ensures Prelude(c, st) == Run(
      [Post(CacheClear, NoBody), Get(ItemsByIdDesc(c)), Get(CollectionOf(c))]
        + (if st.present then [] else [Post(CollectionsRoot, CollectionSpec(c, "timeline"))]),
      AfterCreateCollection(st), Returned(()))
  {
    if st.present {
      assert [Post(CacheClear, NoBody), Get(ItemsByIdDesc(c)), Get(CollectionOf(c))] + [] ==
        [Post(CacheClear, NoBody), Get(ItemsByIdDesc(c)), Get(CollectionOf(c))];
    }
  }

  /**
   * Against a backend that answers JSON, the rest of `add` for typed items
   * reads the fields, creates the planned ones, posts the row and clears the
   * cache: the listing gains the created fields, the row is stored, and the
   * call returns normally.
   */
  lemma FinishJson(c: string, row: map<string, Json>, record: seq<Field>, st: Backend)
    requires st.json && AllTyped(ReconcilePlan(RemoteNames(st), record))
    ensures var plan := ReconcilePlan(RemoteNames(st), record);
      Finish(c, row, record, st) == Run(
        [Get(FieldsOf(c))] + FieldPosts(c, plan) + [Post(ItemsOf(c), ItemRow(row)), Post(CacheClear, NoBody)],
        AfterPostItem(st.(fields := Extended(st.fields, Created(plan))), row), Returned(()))
  {
    var plan := ReconcilePlan(RemoteNames(st), record);
    RunCreatesTyped(c, plan, st);
    var head := [Get(FieldsOf(c))] + FieldPosts(c, plan);
    assert ReconcileRun(c, record, st).requests == head;
    AppendAssoc(head, [Post(ItemsOf(c), ItemRow(row))], [Post(CacheClear, NoBody)]);
  }

  /**
   * Against a backend that answers JSON, `add` of typed items sends, in
   * order: cache clear, item read, existence check, the collection's
   * creation only when it is missing, the field read, the planned field
   * creations, the row, and a final cache clear; and it returns normally.
   */
  lemma AddCallOrder(c: string, timestamp: string, record: seq<Field>, st: Backend)
    requires st.json && AllTyped(ReconcilePlan(RemoteNames(st), record))
    ensures var run := AddRun(c, timestamp, record, st);
      && run.outcome == Returned(())
      && run.requests ==
        [Post(CacheClear, NoBody), Get(ItemsByIdDesc(c)), Get(CollectionOf(c))]
        + (if st.present then [] else [Post(CollectionsRoot, CollectionSpec(c, "timeline"))])
        + [Get(FieldsOf(c))]
        + FieldPosts(c, ReconcilePlan(RemoteNames(st), record))
        + [Post(ItemsOf(c), ItemRow(RowData(NextRowId(st.ids), timestamp, record))), Post(CacheClear, NoBody)]
  {
    var st1 := AfterCreateCollection(st);
    var row := RowData(NextRowId(st.ids), timestamp, record);
    assert NextRowId(ItemsStep(c, st).result.value) == NextRowId(st.ids);
    PreludeJson(c, st);
    FinishJson(c, row, record, st1);
    var pre, fin := Prelude(c, st), Finish(c, row, record, st1);
    assert AddRun(c, timestamp, record, st) == Run(pre.requests + fin.requests, fin.after, fin.outcome);
    assert RemoteNames(st1) == RemoteNames(st);
    var g := [Get(FieldsOf(c))];
    var b := FieldPosts(c, ReconcilePlan(RemoteNames(st), record));
    var d := [Post(ItemsOf(c), ItemRow(row)), Post(CacheClear, NoBody)];
    AppendAssoc(pre.requests, g + b, d);
    AppendAssoc(pre.requests, g, b);
  }

  /** The names of a longer listing are those of its parts, in order. */
  lemma FieldNamesAppend(a: seq<FieldInfo>, b: seq<FieldInfo>)
    ensures FieldNames(a + b) == FieldNames(a) + FieldNames(b)
  {
    var l, r := FieldNames(a + b), FieldNames(a) + FieldNames(b);
    assert |l| == |r|;
    forall k | 0 <= k < |l|
      ensures l[k] == r[k]
    {
      if k < |a| {
        assert (a + b)[k] == a[k];
      } else {
        assert (a + b)[k] == b[k - |a|];
      }
    }
  }

  /** A missing name that the record or the timestamp needs has a call in the plan. */
  lemma PlanCovers(remote: seq<string>, record: seq<Field>, n: string)
    requires n !in remote && (n == TimestampField || n in Names(record))
    ensures exists k :: 0 <= k < |ReconcilePlan(remote, record)| && ReconcilePlan(remote, record)[k].name == n
  {
    var plan := ReconcilePlan(remote, record);
    if n == TimestampField {
      assert plan[0] == TimestampCall;
    } else {
      var f :| f in record && f.name == n;
      var i :| 0 <= i < |record| && record[i] == f;
      MissingCallsComplete(remote, record, i);
      var missing := MissingCalls(remote, record);
      var k :| 0 <= k < |missing| && missing[k] == CallFor(record[i]);
      assert plan[|plan| - |missing| + k] == CallFor(record[i]);
    }
  }

  /** Every name listed before the calls, and every name the plan needs, is listed after them. */
  lemma PlanListed(remote: seq<string>, record: seq<Field>, st: Backend, n: string)
    requires remote == RemoteNames(st)
    requires n in remote || n == TimestampField || n in Names(record)
    ensures n in FieldNames(st.fields.GetOr([]) + Created(ReconcilePlan(remote, record)))
  {
    var plan := ReconcilePlan(remote, record);
    var made := Created(plan);
    FieldNamesAppend(st.fields.GetOr([]), made);
    if n !in remote {
      PlanCovers(remote, record, n);
      var k :| 0 <= k < |plan| && plan[k].name == n;
      assert FieldNames(made)[k] == n;
    }
  }

  /**
   * Against a backend that answers JSON, `add` leaves the collection in
   * place, every item's name and "timestamp" among its fields, and the row's
   * id stored, unless an item named "id" replaced it.
   */
  lemma AddReconciles(c: string, timestamp: string, record: seq<Field>, st: Backend)
    requires st.json && AllTyped(ReconcilePlan(RemoteNames(st), record))
    ensures var after := AddRun(c, timestamp, record, st).after;
      && after.present
      && TimestampField in RemoteNames(after)
      && (forall f :: f in record ==> f.name in RemoteNames(after))
      && ("id" !in Names(record) ==> after.ids == Some(st.ids.GetOr([]) + [NextRowId(st.ids)]))
  {
    var st1 := AfterCreateCollection(st);
    var remote := RemoteNames(st1);
    var plan := ReconcilePlan(remote, record);
    var row := RowData(NextRowId(st.ids), timestamp, record);
    PreludeJson(c, st);
    FinishJson(c, row, record, st1);
    var after := AddRun(c, timestamp, record, st).after;
    var all := st1.fields.GetOr([]) + Created(plan);
    assert RemoteNames(after) == FieldNames(all) by {
      assert plan == [] ==> all == st1.fields.GetOr([]);
    }
    PlanListed(remote, record, st1, TimestampField);
    forall f | f in record
      ensures f.name in RemoteNames(after)
    {
      assert f.name in Names(record);
      PlanListed(remote, record, st1, f.name);
    }
    RowDataShape(NextRowId(st.ids), timestamp, record);
  }

  /** Two adds in a row that do not name an "id" item get consecutive ids. */
  lemma AddIdsConsecutive(c: string, timestamp: string, record: seq<Field>, st: Backend)
    requires st.json && AllTyped(ReconcilePlan(RemoteNames(st), record)) && "id" !in Names(record)
    ensures NextRowId(AddRun(c, timestamp, record, st).after.ids) == NextRowId(st.ids) + 1
  {
    AddReconciles(c, timestamp, record, st);
    NextRowIdAfterStore(st.ids);
  }

  /**
   * Against a backend that answers JSON, a missing item without a data type
   * makes `add` raise AttributeError before any row is posted.
   */
  lemma AddRaisesUntyped(c: string, timestamp: string, record: seq<Field>, st: Backend, i: nat)
    requires st.json && i < |record| && record[i].kind == Untyped && record[i].name !in RemoteNames(st)
    ensures var run := AddRun(c, timestamp, record, st);
      && run.outcome == Raised(AttributeError)
      && run.after.ids == st.ids
      && Post(ItemsOf(c), ItemRow(RowData(NextRowId(st.ids), timestamp, record))) !in run.requests
  {
    var st1 := AfterCreateCollection(st);
    var plan := ReconcilePlan(RemoteNames(st1), record);
    MissingCallsComplete(RemoteNames(st1), record, i);
    var k :| 0 <= k < |MissingCalls(RemoteNames(st1), record)| && MissingCalls(RemoteNames(st1), record)[k] == CallFor(record[i]);
    assert plan[|plan| - |MissingCalls(RemoteNames(st1), record)| + k].dataType.None?;
    RunCreatesUntyped(c, plan, st1);
    RunCreatesIds(c, plan, st1);
    RunCreatesOnlyFields(c, plan, st1);
  }

  /** Field creations never touch the stored rows. */
  lemma {:induction false} RunCreatesIds(c: string, plan: seq<FieldCall>, st: Backend)
    ensures RunCreates(c, plan, st).after.ids == st.ids
    decreases |plan|
  {
    if plan != [] {
      RunCreatesIds(c, plan[..|plan| - 1], st);
    }
  }

  /** Field creations send nothing but field POSTs. */
  lemma {:induction false} RunCreatesOnlyFields(c: string, plan: seq<FieldCall>, st: Backend)
    ensures forall r :: r in RunCreates(c, plan, st).requests ==> r.Post? && r.endpoint == FieldsOf(c)
    decreases |plan|
  {
    if plan != [] {
      RunCreatesOnlyFields(c, plan[..|plan| - 1], st);
    }
  }

  /**
   * A backend that does not answer JSON: the item read and the existence
   * check both come back empty, so the collection is created, and parsing
   * that POST's answer raises; nothing changes on the backend.
   */
  lemma AddNotJson(c: string, timestamp: string, record: seq<Field>, st: Backend)
    requires !st.json
    ensures AddRun(c, timestamp, record, st) ==
      Run([Post(CacheClear, NoBody), Get(ItemsByIdDesc(c)), Get(CollectionOf(c)), Post(CollectionsRoot, CollectionSpec(c, "timeline"))],
          st, Raised(JsonDecodeError))
  {
  }

  // ---------------------------------------------------------------------
  // The driver object
  // ---------------------------------------------------------------------

  class StorageDriver {
    const api: DirectusAPI
    const collection: string
    const timestamp: string

    /** The driver and its API wrapper name the same collection. */
    predicate Valid()
    {
      api.collection == collection
    }

    /** `__init__` after the configuration was read (storage.py:221-223). */
    constructor (settings: Settings, timestamp: string, server: Server)
      ensures Valid()
      ensures collection == settings.collection && this.timestamp == timestamp
      ensures api.host == settings.host && api.token == settings.token && api.server == server
    {
      api := new DirectusAPI(settings.host, settings.token, settings.collection, server);
      collection := settings.collection;
      this.timestamp := timestamp;
    }

    method CreateMissingFields(record: seq<Field>) returns (r: Reply<()>)
      requires Valid()
      modifies api.server
      ensures var run := ReconcileRun(collection, record, old(api.server.State()));
        api.server.trace == old(api.server.trace) + run.requests && api.server.State() == run.after && r == run.outcome
    {
      ghost var st0 := api.server.State();
      var remoteFields := api.GetFields();
      if remoteFields.Raised? {
        return Raised(remoteFields.error);
      }
      var remote := remoteFields.value;
      ghost var trace1 := api.server.trace;
      ghost var stamp := Stamp(collection, remote, st0);
      r := Returned(());
      if TimestampField !in remote {
        var made := api.CreateField(TimestampField, Some(TimestampField));
        r := Ignore(made);
        assert [] + CreateFieldStep(collection, TimestampField, Some(TimestampField), st0).requests == stamp.requests;
      } else {
        assert trace1 + [] == trace1;
      }
      assert api.server.trace == trace1 + stamp.requests;
      ghost var rest := Rest(collection, remote, record, stamp);
      ghost var trace2 := api.server.trace;
      if r.Returned? {
        r := CreateEach(remote, record);
      }
      assert api.server.trace == trace2 + rest.requests;
      ReconcileRunParts(collection, record, st0, remote);
      AppendAssoc(trace1, stamp.requests, rest.requests);
      AppendAssoc(old(api.server.trace), FieldsStep(collection, st0).requests, stamp.requests + rest.requests);
    }

    /** The loop of `_createMissingFields`: one `createField` per item whose name is missing. */
    method CreateEach(remote: seq<string>, record: seq<Field>) returns (r: Reply<()>)
      requires Valid()
      modifies api.server
      ensures var run := RunCreates(collection, MissingCalls(remote, record), old(api.server.State()));
        api.server.trace == old(api.server.trace) + run.requests && api.server.State() == run.after && r == run.outcome
    {
      ghost var st0 := api.server.State();
      ghost var trace0 := api.server.trace;
      ghost var run := RunCreates(collection, [], st0);
      r := Returned(());
      var i := 0;
      while i < |record| && r.Returned?
        invariant i <= |record|
        invariant run == RunCreates(collection, MissingCalls(remote, record[..i]), st0) && r == run.outcome
        invariant api.server.trace == trace0 + run.requests && api.server.State() == run.after
      {
        MissingCallsNext(collection, remote, record, i, st0);
        if record[i].name !in remote {
          ghost var before := run;
          ghost var s := CreateFieldStep(collection, record[i].name, DataType(record[i].kind), before.after);
          var made := api.CreateField(record[i].name, DataType(record[i].kind));
          run := Then(run, collection, CallFor(record[i]));
          AppendAssoc(trace0, before.requests, s.requests);
          r := Ignore(made);
        }
        i := i + 1;
      }
      if r.Raised? {
        MissingStopped(collection, remote, record, i, st0);
      } else {
        assert record[..i] == record;
      }
    }

    /** The row `add` posts: the id, the run's timestamp, then each item's value by name. */
    method BuildRow(rowId: int, record: seq<Field>) returns (data: map<string, Json>)
      ensures data == RowData(rowId, timestamp, record)
    {
      data := map[];
      data := data["id" := JInt(rowId)];
      data := data["timestamp" := JStr(timestamp)];
      for i := 0 to |record|
        invariant data == Assign(map["id" := JInt(rowId), "timestamp" := JStr(timestamp)], record[..i])
      {
        assert record[..i + 1][..i] == record[..i];
        data := data[record[i].name := JStr(record[i].value)];
      }
      assert record[..|record|] == record;
    }

    /** `add`: the first exception raised ends it and is passed on. */
    method Add(record: seq<Field>) returns (r: Reply<()>)
      requires Valid()
      modifies api.server
      ensures var run := AddRun(collection, timestamp, record, old(api.server.State()));
        api.server.trace == old(api.server.trace) + run.requests && api.server.State() == run.after && r == run.outcome
    {
      ghost var st0 := api.server.State();
      ghost var trace0 := api.server.trace;
      ghost var prelude := Prelude(collection, st0);
      api.ClearCache();
      var rowId := 1;
      var remoteItems := api.GetItems();
      if remoteItems.value.Some? && remoteItems.value.value != [] {
        rowId := MaxOf(remoteItems.value.value) + 1;
      }
      var present := api.CollectionExists();
      r := Returned(());
      if !present {
        var created := api.CreateCollection();
        r := Ignore(created);
      }
      assert api.server.trace == trace0 + prelude.requests && api.server.State() == prelude.after && r == prelude.outcome;
      if r.Returned? {
        ghost var finish := Finish(collection, RowData(rowId, timestamp, record), record, api.server.State());
        r := FinishAdd(rowId, record);
        AppendAssoc(trace0, prelude.requests, finish.requests);
      }
    }

    /** The part of `add` after the collection is in place: fields, the row, a last cache clear. */
    method FinishAdd(rowId: int, record: seq<Field>) returns (r: Reply<()>)
      requires Valid()
      modifies api.server
      ensures var run := Finish(collection, RowData(rowId, timestamp, record), record, old(api.server.State()));
        api.server.trace == old(api.server.trace) + run.requests && api.server.State() == run.after && r == run.outcome
    {
      ghost var st0 := api.server.State();
      ghost var trace0 := api.server.trace;
      ghost var fields := ReconcileRun(collection, record, st0);
      r := CreateMissingFields(record);
      if r.Returned? {
        var row := BuildRow(rowId, record);
        ghost var post := PostItemStep(collection, row, fields.after);
        var posted := api.PostItem(row);
        r := Ignore(posted);
        AppendAssoc(trace0, fields.requests, post.requests);
        if r.Returned? {
          api.ClearCache();
          AppendAssoc(trace0, fields.requests + post.requests, [Post(CacheClear, NoBody)]);
        }
      }
    }
  }

  /**
   * `DirectusStorageDriver(config)`: a configuration missing a key ends the
   * program (`sys.exit(1)`), which is `None` here.
   */
  method Open(config: map<string, string>, env: map<string, string>, timestamp: string, server: Server)
    returns (d: Option<StorageDriver>)
    ensures d.None? <==> Configure(config, env).None?
    ensures d.Some? ==>
      && fresh(d.value) && d.value.Valid() && d.value.api.server == server && d.value.timestamp == timestamp
      && d.value.collection == Configure(config, env).value.collection
      && d.value.api.host == Configure(config, env).value.host
      && d.value.api.token == Configure(config, env).value.token
  {
    var settings := Configure(config, env);
    if settings.None? {
      return None;
    }
    var driver := new StorageDriver(settings.value, timestamp, server);
    return Some(driver);
  }
}
