/** The friend-list pagination loop of `fetch_friend_ids` (run.py:96-134),
    as a fold over the sequence of responses the server gives. */
module Pagination {
  import opened Wrappers
  import opened Config
  import opened Records

  /** The JSON body of a successful page. A missing or null list is the empty
      list; a missing or null cursor is `None`. */
  datatype PageBody = PageBody(
    pageItems: seq<FriendRecord>,
    data: seq<FriendRecord>,
    nextCursor: Option<string>)

  /** What one page request yields: an HTTP status with its body, or a
      connection failure. */
  datatype PageResponse = PageResponse(status: int, body: PageBody) | PageNetworkError

  /** The query of one page request: the page size and, when set, the cursor. */
  datatype PageRequest = PageRequest(limit: nat, cursor: Option<string>)

  /** Why the loop stopped. `OutOfResponses` means the modelled response
      sequence ran out while the loop still wanted another page. */
  datatype PageEnd = LastPage | ErrorStatus(status: int) | NetworkFailure | OutOfResponses

  /** The loop's result: the accumulated entries, the requests issued (one per
      response consumed), the seconds slept after each, and the stop reason. */
  datatype Fetch = Fetch(
    friends: seq<FriendRecord>,
    requests: seq<PageRequest>,
    sleeps: seq<nat>,
    end: PageEnd)

  /** Python truthiness of a cursor: present and non-empty. */
  predicate Truthy(c: Option<string>) {
    c.Some? && c.value != ""
  }

  /** `data.get('PageItems', []) or data.get('data', [])`. */
  function ItemsOf(b: PageBody): (items: seq<FriendRecord>)
    ensures items == b.pageItems || items == b.data
    ensures |b.pageItems| > 0 ==> items == b.pageItems
    ensures |items| == 0 <==> |b.pageItems| == 0 && |b.data| == 0
  {
    if |b.pageItems| > 0 then b.pageItems else b.data
  }

  /** A response after which the loop issues another request. */
  predicate Continues(r: PageResponse) {
    r.PageResponse? &&
    (r.status == STATUS_TOO_MANY_REQUESTS || (r.status == STATUS_OK && Truthy(r.body.nextCursor)))
  }

  /** The stop reason a non-continuing response gives. */
  function EndOf(r: PageResponse): PageEnd {
    match r
    case PageNetworkError => NetworkFailure
    case PageResponse(status, _) => if status == STATUS_OK then LastPage else ErrorStatus(status)
  }

  /** Reference definition: the items of every 200 response, in order,
      whatever the cursors say. */
  function OkItems(rs: seq<PageResponse>): seq<FriendRecord> {
    if |rs| == 0 then []
    else
      (if rs[0].PageResponse? && rs[0].status == STATUS_OK then ItemsOf(rs[0].body) else [])
      + OkItems(rs[1..])
  }

  /** The loop from the state where `cursor` is the current cursor and `rs`
      are the responses still to come. */
  function FetchFrom(cursor: Option<string>, rs: seq<PageResponse>): (r: Fetch)
    ensures |r.requests| == |r.sleeps| <= |rs|
    ensures |rs| > 0 ==>
              |r.requests| > 0 && r.requests[0] == PageRequest(PAGE_LIMIT, if Truthy(cursor) then cursor else None)
    ensures r.end.OutOfResponses? ==> |r.requests| == |rs|
    decreases |rs|
  {
    if |rs| == 0 then Fetch([], [], [], OutOfResponses)
    else
      var req := PageRequest(PAGE_LIMIT, if Truthy(cursor) then cursor else None);
      match rs[0]
      case PageNetworkError => Fetch([], [req], [0], NetworkFailure)
      case PageResponse(status, body) =>
        if status == STATUS_OK then
          if !Truthy(body.nextCursor) then Fetch(ItemsOf(body), [req], [0], LastPage)
          else
            var rest := FetchFrom(body.nextCursor, rs[1..]);
            Fetch(ItemsOf(body) + rest.friends, [req] + rest.requests, [0] + rest.sleeps, rest.end)
        else if status == STATUS_TOO_MANY_REQUESTS then
          var rest := FetchFrom(cursor, rs[1..]);
          Fetch(rest.friends, [req] + rest.requests, [RATE_LIMIT_DELAY] + rest.sleeps, rest.end)
        else Fetch([], [req], [0], ErrorStatus(status))
  }

  /** `fetch_friend_ids`: start without a cursor. The result is always a list;
      there is no null outcome. */
  function FetchFriendIds(rs: seq<PageResponse>): (r: Fetch)
    ensures |rs| > 0 ==> |r.requests| > 0 && r.requests[0] == PageRequest(PAGE_LIMIT, None)
  {
    FetchFrom(None, rs)
  }

  /** The loop stops exactly at the first response that does not continue it:
      every earlier response continued it, the stop reason is that response's,
      and running out means every response continued. */
  lemma {:induction false} FetchStopsAtFirstStop(cursor: Option<string>, rs: seq<PageResponse>)
    ensures var r := FetchFrom(cursor, rs);
            && (forall i :: 0 <= i < |r.requests| - 1 ==> Continues(rs[i]))
            && (r.end.OutOfResponses? <==> |r.requests| == |rs| && forall i :: 0 <= i < |rs| ==> Continues(rs[i]))
            && (!r.end.OutOfResponses? ==> !Continues(rs[|r.requests| - 1]) && r.end == EndOf(rs[|r.requests| - 1]))
    decreases |rs|
  {
    var r := FetchFrom(cursor, rs);
    if |rs| > 0 && Continues(rs[0]) {
      var next := if rs[0].status == STATUS_OK then rs[0].body.nextCursor else cursor;
      FetchStopsAtFirstStop(next, rs[1..]);
      var rest := FetchFrom(next, rs[1..]);
      assert r.requests == [r.requests[0]] + rest.requests;
      assert r.end == rest.end;
      forall i | 0 <= i < |r.requests| - 1
        ensures Continues(rs[i])
      {
        if i > 0 { assert rs[i] == rs[1..][i - 1]; }
      }
      if !r.end.OutOfResponses? {
        assert rs[|r.requests| - 1] == rs[1..][|rest.requests| - 1];
      }
      if |r.requests| == |rs| && forall i :: 0 <= i < |rs| ==> Continues(rs[i]) {
        assert forall i :: 0 <= i < |rs[1..]| ==> Continues(rs[1..][i]);
      }
    }
  }

  /** Only a 429 makes the loop sleep, and then for the fixed delay. */
  lemma {:induction false} FetchSleepsOnRateLimit(cursor: Option<string>, rs: seq<PageResponse>, i: nat)
    requires i < |FetchFrom(cursor, rs).sleeps|
    ensures FetchFrom(cursor, rs).sleeps[i] ==
            (if rs[i].PageResponse? && rs[i].status == STATUS_TOO_MANY_REQUESTS then RATE_LIMIT_DELAY else 0)
    decreases |rs|
  {
    if i > 0 {
      var next := if rs[0].status == STATUS_OK then rs[0].body.nextCursor else cursor;
      FetchSleepsOnRateLimit(next, rs[1..], i - 1);
    }
  }

  /** The accumulated list is the in-order concatenation of the items of every
      200 response the loop consumed. */
  lemma {:induction false} FetchCollectsOkItems(cursor: Option<string>, rs: seq<PageResponse>)
    ensures FetchFrom(cursor, rs).friends == OkItems(rs[..|FetchFrom(cursor, rs).requests|])
    decreases |rs|
  {
    var r := FetchFrom(cursor, rs);
    var n := |r.requests|;
    if |rs| > 0 && rs[0].PageResponse? {
      var status := rs[0].status;
      var body := rs[0].body;
      if (status == STATUS_OK && Truthy(body.nextCursor)) || status == STATUS_TOO_MANY_REQUESTS {
        var next := if status == STATUS_OK then body.nextCursor else cursor;
        FetchCollectsOkItems(next, rs[1..]);
        assert rs[..n][1..] == rs[1..][..n - 1];
      } else {
        assert rs[..n][1..] == [];
      }
    } else if |rs| > 0 {
      assert rs[..n][1..] == [];
    }
  }

  /** Cursor chaining: after a 429 the same cursor is sent again; after a 200
      the next request carries that page's `NextCursor`. */
  lemma {:induction false} FetchChainsCursors(cursor: Option<string>, rs: seq<PageResponse>, i: nat)
    requires i + 1 < |FetchFrom(cursor, rs).requests|
    ensures rs[i].PageResponse?
    ensures rs[i].status == STATUS_TOO_MANY_REQUESTS ==>
        FetchFrom(cursor, rs).requests[i + 1] == FetchFrom(cursor, rs).requests[i]
    ensures rs[i].status == STATUS_OK ==>
        FetchFrom(cursor, rs).requests[i + 1] == PageRequest(PAGE_LIMIT, rs[i].body.nextCursor)
    decreases |rs|
  {
    var body := rs[0].body;
    var next := if rs[0].status == STATUS_OK then body.nextCursor else cursor;
    if i > 0 {
      FetchChainsCursors(next, rs[1..], i - 1);
    }
  }

  /** Three pages linked A then B then no cursor: exactly three requests, the
      entries of all three pages in page order, and the cursors sent in turn. */
  lemma ThreePages(p1: seq<FriendRecord>, p2: seq<FriendRecord>, p3: seq<FriendRecord>, tail: seq<PageResponse>)
    ensures var rs := [PageResponse(200, PageBody(p1, [], Some("A"))),
                       PageResponse(200, PageBody([], p2, Some("B"))),
                       PageResponse(200, PageBody(p3, [], None))] + tail;
            var r := FetchFriendIds(rs);
            && r.friends == p1 + p2 + p3
            && r.requests == [PageRequest(50, None), PageRequest(50, Some("A")), PageRequest(50, Some("B"))]
            && r.end == LastPage
  {
    var rs := [PageResponse(200, PageBody(p1, [], Some("A"))),
               PageResponse(200, PageBody([], p2, Some("B"))),
               PageResponse(200, PageBody(p3, [], None))] + tail;
    assert rs[1..] == [rs[1], rs[2]] + tail;
    assert rs[1..][1..] == [rs[2]] + tail;
    var r3 := FetchFrom(Some("B"), rs[1..][1..]);
    assert r3 == Fetch(p3, [PageRequest(50, Some("B"))], [0], LastPage);
    var r2 := FetchFrom(Some("A"), rs[1..]);
    assert r2 == Fetch(p2 + r3.friends, [PageRequest(50, Some("A"))] + r3.requests, [0] + r3.sleeps, LastPage);
    assert FetchFrom(None, rs) == Fetch(p1 + r2.friends, [PageRequest(50, None)] + r2.requests, [0] + r2.sleeps, LastPage);
  }

  /** A 429 in the middle re-issues the same request and adds nothing. */
  lemma RateLimitRepeatsRequest(p1: seq<FriendRecord>, p2: seq<FriendRecord>)
    ensures var rs := [PageResponse(200, PageBody(p1, [], Some("A"))),
                       PageResponse(429, PageBody([], [], None)),
                       PageResponse(200, PageBody(p2, [], None))];
            var r := FetchFriendIds(rs);
            && r.friends == p1 + p2
            && r.requests == [PageRequest(50, None), PageRequest(50, Some("A")), PageRequest(50, Some("A"))]
            && r.sleeps == [0, 5, 0]
  {
    var rs := [PageResponse(200, PageBody(p1, [], Some("A"))),
               PageResponse(429, PageBody([], [], None)),
               PageResponse(200, PageBody(p2, [], None))];
    assert rs[1..] == [rs[1], rs[2]];
    assert rs[1..][1..] == [rs[2]];
    var r3 := FetchFrom(Some("A"), rs[1..][1..]);
    assert r3 == Fetch(p2, [PageRequest(50, Some("A"))], [0], LastPage);
    var r2 := FetchFrom(Some("A"), rs[1..]);
    assert r2 == Fetch(r3.friends, [PageRequest(50, Some("A"))] + r3.requests, [5] + r3.sleeps, LastPage);
    assert FetchFrom(None, rs) == Fetch(p1 + r2.friends, [PageRequest(50, None)] + r2.requests, [0] + r2.sleeps, LastPage);
  }
}
