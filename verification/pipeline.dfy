/** The run after authentication (run.py:300-307): fetch the friend list,
    enrich it, analyse changes against the stored snapshot, save. */
module Pipeline {
  import opened Wrappers
  import opened Records
  import opened Pagination
  import opened Retry
  import opened Enrichment
  import opened Changes
  import opened Store

  /** Every stage's outcome, and the snapshot file afterwards. */
  datatype RunResult = RunResult(
    fetch: Fetch,
    enriched: Enriched,
    analysis: Analysis,
    save: SaveDecision,
    storedAfter: Option<seq<FriendRecord>>)

  /** The pagination loop stopped on an error status or a connection error. */
  predicate FetchFailed(f: Fetch) {
    f.end.ErrorStatus? || f.end.NetworkFailure?
  }

  /** The run as written: `fetch_friend_ids` never returns null, so the
      halting branch of run.py:301-303 is never taken and every fetch, failed
      or not, goes on to analysis and save. */
  function RunAsWritten(stored: Option<seq<FriendRecord>>, pages: seq<PageResponse>,
                        respond: (nat, nat) -> DetailResponse): (r: RunResult)
    ensures r.fetch == FetchFriendIds(pages)
    ensures r.enriched == FetchUserDetails(r.fetch.friends, LoadLocalHistory(stored), respond)
    ensures IdsOf(r.enriched.friends) == IdsOf(r.fetch.friends)
    ensures r.analysis == AnalyzeChanges(r.enriched.friends, stored)
    ensures r.save == SaveDatabase(r.enriched.friends)
    ensures r.storedAfter == if r.save.Persist? then Some(r.enriched.friends) else stored
  {
    var fetch := FetchFriendIds(pages);
    var enriched := FetchUserDetails(fetch.friends, LoadLocalHistory(stored), respond);
    var analysis := AnalyzeChanges(enriched.friends, stored);
    var save := SaveDatabase(enriched.friends);
    RunResult(fetch, enriched, analysis, save, StoredAfter(stored, save))
  }

  /** As written, a connection error on the very first page makes every
      stored friend look removed: the empty list passes the nameless guard
      and each stored id is logged as unfriended, while the file is kept. */
  lemma PhantomUnfriendAsWritten(s: seq<FriendRecord>, rest: seq<PageResponse>, respond: (nat, nat) -> DetailResponse)
    requires s != []
    ensures var r := RunAsWritten(Some(s), [PageNetworkError] + rest, respond);
            && r.fetch.end == NetworkFailure
            && r.fetch.friends == []
            && r.analysis.Report?
            && r.analysis.unfriended == IdSet(s)
            && r.analysis.newFriends == {}
            && (forall l :: l in r.analysis.removals <==>
                  l.kind == Unfriended && l.id in IdSet(s) && l.name == MapById(s)[l.id].name)
            && r.storedAfter == Some(s)
  {
    var r := RunAsWritten(Some(s), [PageNetworkError] + rest, respond);
    assert r.fetch.friends == [];
    assert r.enriched.friends == [];
    assert !AnalysisGuardTrips([]);
    assert IdSet([]) == {};
    assert s[0].id in IdSet(s);
    assert r.analysis == AnalyzeChanges([], Some(s));
    assert r.save.NothingToSave?;
  }

  /** The run's outcome: halted after a failed friend-list fetch, or completed. */
  datatype Outcome = Halted(fetch: Fetch) | Completed(result: RunResult)

  /** The friend list with the null outcome the caller tests for: `None` when
      pagination stopped on an error, otherwise the accumulated entries. */
  function FetchFriendIdsChecked(pages: seq<PageResponse>): (r: Option<seq<FriendRecord>>)
    ensures r.None? <==> FetchFailed(FetchFriendIds(pages))
    ensures r.Some? ==>
              var n := |FetchFriendIds(pages).requests|;
              r.value == OkItems(pages[..n])
              && (forall i :: 0 <= i < n ==> Continues(pages[i]) || EndOf(pages[i]) == LastPage)
  {
    var f := FetchFriendIds(pages);
    FetchCollectsOkItems(None, pages);
    FetchStopsAtFirstStop(None, pages);
    if FetchFailed(f) then None else Some(f.friends)
  }

  /** The run with the halt the caller intends: a failed fetch stops the run
      before analysis and save; otherwise it is the run as written. */
  function Run(stored: Option<seq<FriendRecord>>, pages: seq<PageResponse>,
               respond: (nat, nat) -> DetailResponse): (o: Outcome)
    ensures o.Halted? <==> FetchFriendIdsChecked(pages).None?
    ensures o.Completed? ==> o.result == RunAsWritten(stored, pages, respond)
    ensures o.Completed? ==> o.result.fetch.friends == FetchFriendIdsChecked(pages).value
  {
    match FetchFriendIdsChecked(pages)
    case None => Halted(FetchFriendIds(pages))
    case Some(_) => Completed(RunAsWritten(stored, pages, respond))
  }

  /** With the halt in place, a reported removal always comes from a friend
      list that every consumed page response accounted for: no page ended in
      an error, and the list is all the 200 pages' items. */
  lemma RunReportsOnlyCleanFetches(stored: Option<seq<FriendRecord>>, pages: seq<PageResponse>,
                                   respond: (nat, nat) -> DetailResponse)
    ensures var o := Run(stored, pages, respond);
            o.Completed? ==>
              && !FetchFailed(o.result.fetch)
              && (o.result.fetch.end == LastPage || o.result.fetch.end.OutOfResponses?)
              && o.result.fetch.friends == OkItems(pages[..|o.result.fetch.requests|])
  {
  }

  /** The input that shows the defect halts the corrected run: nothing is
      logged and the stored snapshot is left as it was. */
  lemma NetworkErrorHalts(stored: Option<seq<FriendRecord>>, rest: seq<PageResponse>, respond: (nat, nat) -> DetailResponse)
    ensures Run(stored, [PageNetworkError] + rest, respond).Halted?
  {
  }
}
