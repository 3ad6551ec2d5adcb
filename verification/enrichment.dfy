/** `fetch_user_details` (run.py:136-201): batched detail lookup, then the
    merge API record > local history record > raw entry. */
module Enrichment {
  import opened Wrappers
  import opened Config
  import opened Records
  import opened Batching
  import opened Retry

  /** The local-history fallback applies to `f`: no API record for its id, but
      a local record with a non-empty name. */
  predicate Recoverable(f: FriendRecord, api: map<int, FriendRecord>, local: map<int, FriendRecord>) {
    f.id !in api && f.id in local && !Nameless(local[f.id])
  }

  /** `f.update(...)` with the three detail fields of `src`; the id is kept. */
  function WithDetails(f: FriendRecord, src: FriendRecord): FriendRecord {
    f.(name := src.name, displayName := src.displayName, hasVerifiedBadge := src.hasVerifiedBadge)
  }

  /** The merge of one entry (run.py:177-194). */
  function MergeEntry(f: FriendRecord, api: map<int, FriendRecord>, local: map<int, FriendRecord>): (r: FriendRecord)
    ensures r.id == f.id
    ensures Nameless(r) ==> if f.id in api then Nameless(api[f.id]) else Nameless(f)
  {
    if f.id in api then WithDetails(f, api[f.id])
    else if Recoverable(f, api, local) then WithDetails(f, local[f.id])
    else f
  }

  /** Indices of the entries the fallback recovers. */
  function RecoverableIndices(friends: seq<FriendRecord>, api: map<int, FriendRecord>, local: map<int, FriendRecord>): set<int> {
    set i | 0 <= i < |friends| && Recoverable(friends[i], api, local)
  }

  /** The merge loop over `friends`, in order, with its `recovered` counter. */
  function Merge(friends: seq<FriendRecord>, api: map<int, FriendRecord>, local: map<int, FriendRecord>): (r: (seq<FriendRecord>, nat))
    ensures |r.0| == |friends|
    ensures forall i :: 0 <= i < |friends| ==> r.0[i] == MergeEntry(friends[i], api, local)
    ensures r.1 <= |friends|
  {
    if |friends| == 0 then ([], 0)
    else
      var f := friends[|friends| - 1];
      var (init, recovered) := Merge(friends[..|friends| - 1], api, local);
      (init + [MergeEntry(f, api, local)], recovered + if Recoverable(f, api, local) then 1 else 0)
  }

  /** The merge keeps the list's length, order and identifiers. */
  lemma MergeKeepsIds(friends: seq<FriendRecord>, api: map<int, FriendRecord>, local: map<int, FriendRecord>)
    ensures |Merge(friends, api, local).0| == |friends|
    ensures IdsOf(Merge(friends, api, local).0) == IdsOf(friends)
  {
  }

  /** Merge priority: an API record wins even with an empty name; otherwise a
      named local record; otherwise the entry is left as it was. */
  lemma MergePriority(friends: seq<FriendRecord>, api: map<int, FriendRecord>, local: map<int, FriendRecord>, i: int)
    requires 0 <= i < |friends|
    ensures var f := friends[i];
            var out := Merge(friends, api, local).0[i];
            && out.id == f.id
            && (f.id in api ==>
                  out.name == api[f.id].name && out.displayName == api[f.id].displayName
                  && out.hasVerifiedBadge == api[f.id].hasVerifiedBadge)
            && (f.id !in api && f.id in local && !Nameless(local[f.id]) ==>
                  out.name == local[f.id].name && out.displayName == local[f.id].displayName
                  && out.hasVerifiedBadge == local[f.id].hasVerifiedBadge)
            && (f.id !in api && (f.id !in local || Nameless(local[f.id])) ==> out == f)
  {
  }

  /** An entry comes out nameless exactly when its API record is nameless, or
      when it has none and the fallback does not apply and it was nameless. */
  lemma MergeNameless(friends: seq<FriendRecord>, api: map<int, FriendRecord>, local: map<int, FriendRecord>, i: int)
    requires 0 <= i < |friends|
    ensures var f := friends[i];
            Nameless(Merge(friends, api, local).0[i]) <==>
              if f.id in api then Nameless(api[f.id])
              else !Recoverable(f, api, local) && Nameless(f)
  {
  }

  /** `recovered` counts exactly the entries the fallback applies to. */
  lemma {:induction false} MergeCountsRecovered(friends: seq<FriendRecord>, api: map<int, FriendRecord>, local: map<int, FriendRecord>)
    ensures Merge(friends, api, local).1 == |RecoverableIndices(friends, api, local)|
  {
    if |friends| > 0 {
      var n := |friends| - 1;
      var init := friends[..n];
      MergeCountsRecovered(init, api, local);
      var s0 := RecoverableIndices(init, api, local);
      var s := RecoverableIndices(friends, api, local);
      assert forall i :: 0 <= i < n ==> init[i] == friends[i];
      if Recoverable(friends[n], api, local) {
        assert s == s0 + {n};
      } else {
        assert s == s0;
      }
    }
  }

  /** The outcome of `fetch_user_details`: the merged list, the recovered
      count, the id batches sent, each batch's run, and the id-to-record map
      built from every 200 response. */
  datatype Enriched = Enriched(
    friends: seq<FriendRecord>,
    recovered: nat,
    payloads: seq<seq<int>>,
    runs: seq<BatchRun>,
    fetched: map<int, FriendRecord>)

  /** The records of all batches, batch by batch, in order. */
  function AllRecords(runs: seq<BatchRun>): seq<FriendRecord> {
    if |runs| == 0 then [] else runs[0].records + AllRecords(runs[1..])
  }

  /** The answers to the attempts of batch `b`. */
  function BatchResponder(respond: (nat, nat) -> DetailResponse, b: nat): nat -> DetailResponse {
    (k: nat) => respond(b, k)
  }

  /** The run of batch `b`. */
  function BatchRunOf(respond: (nat, nat) -> DetailResponse, b: nat): (run: BatchRun)
    ensures 0 < |run.waits| <= MAX_RETRIES
  {
    RunBatch(BatchResponder(respond, b))
  }

  /** `fetch_user_details`. `history` is the local snapshot and
      `respond(b, k)` the answer to attempt `k` of batch `b`. */
  function FetchUserDetails(friends: seq<FriendRecord>, history: seq<FriendRecord>,
                            respond: (nat, nat) -> DetailResponse): (r: Enriched)
    ensures |r.friends| == |friends| && IdsOf(r.friends) == IdsOf(friends)
    ensures |r.runs| == |r.payloads| == (|friends| + BATCH_SIZE - 1) / BATCH_SIZE
    ensures r.payloads == Batches(IdsOf(friends)) && Flatten(r.payloads) == IdsOf(friends)
    ensures forall b :: 0 <= b < |r.runs| ==> r.runs[b] == BatchRunOf(respond, b)
    ensures forall b :: 0 <= b < |r.runs| ==> 0 < |r.runs[b].waits| <= MAX_RETRIES
    ensures r.fetched == MapById(AllRecords(r.runs))
    ensures forall i :: 0 <= i < |friends| ==>
              r.friends[i] == MergeEntry(friends[i], r.fetched, MapById(history))
    ensures r.recovered == |RecoverableIndices(friends, r.fetched, MapById(history))|
    ensures r.fetched.Keys == IdSet(AllRecords(r.runs))
  {
    if |friends| == 0 then
      BatchesFlatten(IdsOf(friends));
      Enriched([], 0, [], [], map[])
    else
      var local := MapById(history);
      var payloads := Batches(IdsOf(friends));
      BatchesFlatten(IdsOf(friends));
      var runs := seq(|payloads|, b requires 0 <= b < |payloads| => BatchRunOf(respond, b));
      var fetched := MapById(AllRecords(runs));
      var merged := Merge(friends, fetched, local);
      MergeCountsRecovered(friends, fetched, local);
      Enriched(merged.0, merged.1, payloads, runs, fetched)
  }

  /** When the record a 200 response returned last for an entry's id is `u`,
      the entry takes `u`'s name, display name and badge, and is not counted
      as recovered. */
  lemma FetchedRecordWins(friends: seq<FriendRecord>, history: seq<FriendRecord>,
                          respond: (nat, nat) -> DetailResponse, i: int)
    requires 0 <= i < |friends|
    ensures var r := FetchUserDetails(friends, history, respond);
            var all := AllRecords(r.runs);
            forall j :: 0 <= j < |all| && LastWithId(all, j) && all[j].id == friends[i].id ==>
              && r.friends[i].id == friends[i].id
              && r.friends[i].name == all[j].name
              && r.friends[i].displayName == all[j].displayName
              && r.friends[i].hasVerifiedBadge == all[j].hasVerifiedBadge
              && i !in RecoverableIndices(friends, r.fetched, MapById(history))
  {
    var r := FetchUserDetails(friends, history, respond);
    var all := AllRecords(r.runs);
    forall j | 0 <= j < |all| && LastWithId(all, j) && all[j].id == friends[i].id {
      MapByIdLastWins(all, j);
    }
  }

  /** When no batch ever gets a 200, nothing is fetched, and an entry is
      recovered exactly when the local history holds a named record for it. */
  lemma AllBatchesFail(friends: seq<FriendRecord>, history: seq<FriendRecord>, respond: (nat, nat) -> DetailResponse)
    requires forall b: nat, k: nat :: !(respond(b, k).DetailResponse? && respond(b, k).status == STATUS_OK)
    ensures var r := FetchUserDetails(friends, history, respond);
            && r.fetched == map[]
            && forall i :: 0 <= i < |friends| ==>
                 (friends[i].id in MapById(history) && !Nameless(MapById(history)[friends[i].id]) ==>
                    r.friends[i].name == MapById(history)[friends[i].id].name && i in RecoverableIndices(friends, r.fetched, MapById(history)))
  {
    var r := FetchUserDetails(friends, history, respond);
    forall b | 0 <= b < |r.runs|
      ensures r.runs[b].records == []
    {
      RecordsOnlyFromSuccess(BatchResponder(respond, b), 0);
    }
    AllRecordsEmpty(r.runs);
  }

  lemma {:induction false} AllRecordsEmpty(runs: seq<BatchRun>)
    requires forall b :: 0 <= b < |runs| ==> runs[b].records == []
    ensures AllRecords(runs) == []
  {
    if |runs| > 0 {
      AllRecordsEmpty(runs[1..]);
    }
  }
}
