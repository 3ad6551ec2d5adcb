/** Slicing the id list into request batches: `range(0, len(user_ids), BATCH_SIZE)`
    with `user_ids[i:i + BATCH_SIZE]` (run.py:152-153). */
module Batching {
  import opened Config

  function Min(a: int, b: int): int {
    if a <= b then a else b
  }

  /** Concatenation of a sequence of batches. */
  function Flatten<T>(bs: seq<seq<T>>): seq<T> {
    if |bs| == 0 then [] else bs[0] + Flatten(bs[1..])
  }

  /** The batches whose start offsets are `start`, `start + BATCH_SIZE`, ...
      below `|ids|`; a Python slice past the end is cut at the end. */
  function BatchesFrom<T>(ids: seq<T>, start: nat): (bs: seq<seq<T>>)
    ensures start <= |ids| ==> |bs| == (|ids| - start + BATCH_SIZE - 1) / BATCH_SIZE
    ensures start >= |ids| ==> bs == []
    ensures forall k :: 0 <= k < |bs| ==>
              start + k * BATCH_SIZE < |ids| &&
              bs[k] == ids[start + k * BATCH_SIZE .. Min(start + k * BATCH_SIZE + BATCH_SIZE, |ids|)]
    decreases |ids| - start
  {
    if start >= |ids| then []
    else
      var rest := BatchesFrom(ids, start + BATCH_SIZE);
      var bs := [ids[start .. Min(start + BATCH_SIZE, |ids|)]] + rest;
      assert forall k :: 1 <= k < |bs| ==> bs[k] == rest[k - 1] && start + k * BATCH_SIZE == start + BATCH_SIZE + (k - 1) * BATCH_SIZE;
      bs
  }

  /** `fetch_user_details`' batches of the whole id list. */
  function Batches<T>(ids: seq<T>): (bs: seq<seq<T>>)
    ensures |bs| == (|ids| + BATCH_SIZE - 1) / BATCH_SIZE
  {
    BatchesFrom(ids, 0)
  }

  /** Every batch is non-empty and holds at most BATCH_SIZE ids, and all but
      the last hold exactly BATCH_SIZE. */
  lemma BatchSizes<T>(ids: seq<T>)
    ensures forall k :: 0 <= k < |Batches(ids)| ==> 0 < |Batches(ids)[k]| <= BATCH_SIZE
    ensures forall k :: 0 <= k < |Batches(ids)| - 1 ==> |Batches(ids)[k]| == BATCH_SIZE
  {
  }

  /** Concatenating the batches gives back the ids from `start` on, in order. */
  lemma {:induction false} BatchesFromFlatten<T>(ids: seq<T>, start: nat)
    requires start <= |ids|
    ensures Flatten(BatchesFrom(ids, start)) == ids[start..]
    decreases |ids| - start
  {
    if start < |ids| {
      var next := Min(start + BATCH_SIZE, |ids|);
      var bs := BatchesFrom(ids, start);
      if start + BATCH_SIZE <= |ids| {
        BatchesFromFlatten(ids, start + BATCH_SIZE);
        assert bs[1..] == BatchesFrom(ids, start + BATCH_SIZE);
      } else {
        assert bs[1..] == [];
      }
      assert ids[start..] == ids[start..next] + ids[next..];
    }
  }

  /** Round trip: flattening the batches restores the id list. */
  lemma BatchesFlatten<T>(ids: seq<T>)
    ensures Flatten(Batches(ids)) == ids
  {
    BatchesFromFlatten(ids, 0);
  }

  /** 120 ids make three batches of 50, 50 and 20. */
  lemma HundredTwentyIds<T>(ids: seq<T>)
    requires |ids| == 120
    ensures |Batches(ids)| == 3
    ensures Batches(ids) == [ids[0..50], ids[50..100], ids[100..120]]
  {
  }
}
