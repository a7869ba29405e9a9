/** createBulkOps (src/utils/bulkOps.ts) and the upsert semantics of the
    ordered bulk write it feeds, over a collection keyed by external id. */
module BulkOps {

  /** `{updateOne: {filter: {id: filterId}, update: {$set: setItem}, upsert}}` */
  datatype UpdateOne<T> = UpdateOne(filterId: int, setItem: T, upsert: bool)

  /** One operation per item, in item order: filter by the item's id, `$set`
      the whole item, upsert. */
  function CreateBulkOps<T>(items: seq<T>, idOf: T -> int): (ops: seq<UpdateOne<T>>)
    ensures |ops| == |items|
    ensures forall i :: 0 <= i < |items| ==>
      ops[i].filterId == idOf(items[i]) && ops[i].setItem == items[i] && ops[i].upsert
    ensures items == [] ==> ops == []
  {
    if items == [] then [] else [UpdateOne(idOf(items[0]), items[0], true)] + CreateBulkOps(items[1..], idOf)
  }

  predicate AllUpsert<T>(ops: seq<UpdateOne<T>>) {
    forall i :: 0 <= i < |ops| ==> ops[i].upsert
  }

  /** One updateOne on a collection keyed by `id`: the matching document takes
      the item's fields; with upsert, a missing one is inserted. (`$set` of all
      of a document's fields replaces it; the server's timestamps and the
      immutability of `_id` are not modelled.) */
  function ApplyOp<T>(store: map<int, T>, op: UpdateOne<T>): map<int, T> {
    if op.upsert || op.filterId in store then store[op.filterId := op.setItem] else store
  }

  /** An ordered bulkWrite: the operations run one after the other. */
  function ApplyOps<T>(store: map<int, T>, ops: seq<UpdateOne<T>>): map<int, T>
    decreases |ops|
  {
    if ops == [] then store else ApplyOp(ApplyOps(store, ops[..|ops| - 1]), ops[|ops| - 1])
  }

  /** What a list of upserts leaves behind: for each key, the last item written to it. */
  function Written<T>(ops: seq<UpdateOne<T>>): map<int, T>
    decreases |ops|
  {
    if ops == [] then map[] else Written(ops[..|ops| - 1])[ops[|ops| - 1].filterId := ops[|ops| - 1].setItem]
  }

  /** The keys written are exactly the filters of the batch. */
  lemma {:induction false} WrittenKeys<T>(ops: seq<UpdateOne<T>>)
    ensures Written(ops).Keys == set i | 0 <= i < |ops| :: ops[i].filterId
    decreases |ops|
  {
    if ops != [] {
      var init := ops[..|ops| - 1];
      WrittenKeys(init);
      assert forall i :: 0 <= i < |init| ==> init[i] == ops[i];
      var s := set i | 0 <= i < |ops| :: ops[i].filterId;
      var s' := set i | 0 <= i < |init| :: init[i].filterId;
      assert s == s' + {ops[|ops| - 1].filterId} by {
        forall k | k in s ensures k in s' + {ops[|ops| - 1].filterId} {
          var i :| 0 <= i < |ops| && ops[i].filterId == k;
          if i < |init| { assert init[i].filterId == k; }
        }
      }
    }
  }

  /** Each key holds the item of the LAST operation of the batch that targets it. */
  lemma {:induction false} WrittenIsLastWrite<T>(ops: seq<UpdateOne<T>>, i: nat)
    requires i < |ops|
    requires forall j :: i < j < |ops| ==> ops[j].filterId != ops[i].filterId
    ensures ops[i].filterId in Written(ops) && Written(ops)[ops[i].filterId] == ops[i].setItem
    decreases |ops|
  {
    if i < |ops| - 1 {
      var init := ops[..|ops| - 1];
      assert forall j :: i < j < |init| ==> init[j] == ops[j];
      WrittenIsLastWrite(init, i);
    }
  }

  /** A batch of upserts overlays its writes on the store. */
  lemma {:induction false} ApplyUpsertsIsOverlay<T>(store: map<int, T>, ops: seq<UpdateOne<T>>)
    requires AllUpsert(ops)
    ensures ApplyOps(store, ops) == store + Written(ops)
    decreases |ops|
  {
    if ops != [] {
      var init := ops[..|ops| - 1];
      ApplyUpsertsIsOverlay(store, init);
    }
  }

  /** After an upsert batch on any store, every item's id is present and holds
      the last item with that id; keys outside the batch are untouched. */
  lemma UpsertEffect<T>(store: map<int, T>, items: seq<T>, idOf: T -> int)
    ensures var after := ApplyOps(store, CreateBulkOps(items, idOf));
      && (forall i :: 0 <= i < |items| ==> idOf(items[i]) in after)
      && after.Keys == store.Keys + (set i | 0 <= i < |items| :: idOf(items[i]))
      && (forall k :: k in store && k !in (set i | 0 <= i < |items| :: idOf(items[i])) ==> k in after && after[k] == store[k])
      && (forall i :: 0 <= i < |items| && (forall j :: i < j < |items| ==> idOf(items[j]) != idOf(items[i]))
            ==> after[idOf(items[i])] == items[i])
  {
    var ops := CreateBulkOps(items, idOf);
    ApplyUpsertsIsOverlay(store, ops);
    WrittenKeys(ops);
    assert (set i | 0 <= i < |ops| :: ops[i].filterId) == (set i | 0 <= i < |items| :: idOf(items[i]));
    forall i | 0 <= i < |items| && (forall j :: i < j < |items| ==> idOf(items[j]) != idOf(items[i]))
      ensures ApplyOps(store, ops)[idOf(items[i])] == items[i]
    {
      WrittenIsLastWrite(ops, i);
    }
  }

  /** Replaying the same upsert batch changes nothing: bulk upserts are idempotent. */
  lemma UpsertIdempotent<T>(store: map<int, T>, ops: seq<UpdateOne<T>>)
    requires AllUpsert(ops)
    ensures ApplyOps(ApplyOps(store, ops), ops) == ApplyOps(store, ops)
  {
    ApplyUpsertsIsOverlay(store, ops);
    ApplyUpsertsIsOverlay(store + Written(ops), ops);
  }
}
