/** `analyze_changes` (run.py:203-261): the nameless guard, then the id-set
    difference between the stored snapshot and the current list, as
    activity-log lines. */
module Changes {
  import opened Wrappers
  import opened Records

  datatype ChangeKind = Unfriended | NewFriend

  /** One activity-log line, without its timestamp: the kind of change, the
      friend's id and the name resolved for it (JSON null when missing). */
  datatype LogLine = LogLine(kind: ChangeKind, id: int, name: Option<string>)

  /** The outcome of one analysis. A report's lines are written removals
      first, then additions; within a group the order is unspecified. */
  datatype Analysis =
    | SkippedCorrupt
    | NoHistory
    | NoChanges
    | Report(unfriended: set<int>, newFriends: set<int>, removals: set<LogLine>, additions: set<LogLine>)

  /** `len > 0 and nameless / len > 0.5`, by cross-multiplication; the
      ensures reads the quotient exactly, over the reals. */
  function AnalysisGuardTrips(fs: seq<FriendRecord>): (b: bool)
    ensures b <==> |fs| > 0 && QuotientExceeds(NamelessCount(fs), |fs|, 0.5)
  {
    if |fs| == 0 then false
    else
      QuotientAbove(NamelessCount(fs), |fs|, 0.5);
      2 * NamelessCount(fs) > |fs|
  }

  /** One line of `kind` per id in `ids`, each naming the record `m` holds. */
  function Lines(kind: ChangeKind, ids: set<int>, m: map<int, FriendRecord>): (ls: set<LogLine>)
    requires ids <= m.Keys
    ensures forall uid :: uid in ids ==> LogLine(kind, uid, m[uid].name) in ls
    ensures forall l :: l in ls ==> l.kind == kind && l.id in ids && l.name == m[l.id].name
  {
    set uid | uid in ids :: LogLine(kind, uid, m[uid].name)
  }

  /** `analyze_changes`. `stored` is the snapshot file: `None` when it is
      missing or unreadable. */
  function AnalyzeChanges(current: seq<FriendRecord>, stored: Option<seq<FriendRecord>>): (a: Analysis)
    ensures a.SkippedCorrupt? <==> AnalysisGuardTrips(current)
    ensures a.NoHistory? <==> !AnalysisGuardTrips(current) && stored.None?
    ensures a.NoChanges? <==> !AnalysisGuardTrips(current) && stored.Some? && IdSet(stored.value) == IdSet(current)
    ensures a.Report? ==>
              && a.unfriended == IdSet(stored.value) - IdSet(current)
              && a.newFriends == IdSet(current) - IdSet(stored.value)
              && a.unfriended !! a.newFriends
              && a.unfriended + a.newFriends != {}
    ensures a.Report? ==>
              forall l :: l in a.removals <==>
                l.kind == Unfriended && l.id in a.unfriended && l.name == MapById(stored.value)[l.id].name
    ensures a.Report? ==>
              forall l :: l in a.additions <==>
                l.kind == NewFriend && l.id in a.newFriends && l.name == MapById(current)[l.id].name
  {
    if AnalysisGuardTrips(current) then SkippedCorrupt
    else if stored.None? then NoHistory
    else
      var oldMap := MapById(stored.value);
      var curMap := MapById(current);
      var unfriended := oldMap.Keys - curMap.Keys;
      var newFriends := curMap.Keys - oldMap.Keys;
      if unfriended == {} && newFriends == {} then NoChanges
      else Report(unfriended, newFriends, Lines(Unfriended, unfriended, oldMap), Lines(NewFriend, newFriends, curMap))
  }

  /** When both lists have unique identifiers, as a saved snapshot and a
      fetched friend list do, each line names the very entry its friend has
      in the list it was resolved against. */
  lemma ReportNamesEntries(current: seq<FriendRecord>, stored: Option<seq<FriendRecord>>)
    requires forall i, j :: 0 <= i < j < |current| ==> current[i].id != current[j].id
    requires stored.Some? ==> forall i, j :: 0 <= i < j < |stored.value| ==> stored.value[i].id != stored.value[j].id
    ensures var a := AnalyzeChanges(current, stored);
            a.Report? ==>
            && (forall i :: 0 <= i < |current| && current[i].id in a.newFriends ==>
                  LogLine(NewFriend, current[i].id, current[i].name) in a.additions)
            && (forall i :: 0 <= i < |stored.value| && stored.value[i].id in a.unfriended ==>
                  LogLine(Unfriended, stored.value[i].id, stored.value[i].name) in a.removals)
  {
    UniqueIdsMapBack(current);
    if stored.Some? {
      UniqueIdsMapBack(stored.value);
    }
  }

  /** Some member of a non-empty id set. */
  lemma PickId(ids: set<int>) returns (x: int)
    requires ids != {}
    ensures x in ids
  {
    if forall y :: y !in ids {
      assert false;
    }
    x :| x in ids;
  }

  /** Each id gets its own line: a group has as many lines as ids. */
  lemma {:induction false} LinesCount(kind: ChangeKind, ids: set<int>, m: map<int, FriendRecord>)
    requires ids <= m.Keys
    ensures |Lines(kind, ids, m)| == |ids|
    decreases |ids|
  {
    if ids != {} {
      var x := PickId(ids);
      var rest := ids - {x};
      LinesCount(kind, rest, m);
      assert Lines(kind, ids, m) == Lines(kind, rest, m) + {LogLine(kind, x, m[x].name)};
      assert LogLine(kind, x, m[x].name) !in Lines(kind, rest, m);
    }
  }

  /** A report holds exactly one line per changed id: |removed| + |added| lines. */
  lemma ReportLineCount(current: seq<FriendRecord>, stored: Option<seq<FriendRecord>>)
    ensures var a := AnalyzeChanges(current, stored);
            a.Report? ==>
              && |a.removals| == |a.unfriended|
              && |a.additions| == |a.newFriends|
              && |a.removals| + |a.additions| == |a.unfriended + a.newFriends|
  {
    var a := AnalyzeChanges(current, stored);
    if a.Report? {
      LinesCount(Unfriended, a.unfriended, MapById(stored.value));
      LinesCount(NewFriend, a.newFriends, MapById(current));
    }
  }

  /** Old snapshot {1, 2, 3} against current {2, 3, 4}: friend 1 removed,
      friend 4 added, one line each. */
  lemma OneRemovedOneAdded(r1: FriendRecord, r2: FriendRecord, r3: FriendRecord, r4: FriendRecord)
    requires r1.id == 1 && r2.id == 2 && r3.id == 3 && r4.id == 4
    requires !Nameless(r2) && !Nameless(r3) && !Nameless(r4)
    ensures var a := AnalyzeChanges([r2, r3, r4], Some([r1, r2, r3]));
            && a.Report?
            && a.unfriended == {1} && a.newFriends == {4}
            && a.removals == {LogLine(Unfriended, 1, r1.name)}
            && a.additions == {LogLine(NewFriend, 4, r4.name)}
  {
    var cur := [r2, r3, r4];
    var prev := [r1, r2, r3];
    NamelessCountExtremes(cur);
    assert IdSet(prev) == {1, 2, 3} by {
      assert prev[0].id == 1 && prev[1].id == 2 && prev[2].id == 3;
    }
    assert IdSet(cur) == {2, 3, 4} by {
      assert cur[0].id == 2 && cur[1].id == 3 && cur[2].id == 4;
    }
    assert LastWithId(prev, 0) && LastWithId(cur, 2);
    MapByIdLastWins(prev, 0);
    MapByIdLastWins(cur, 2);
    var a := AnalyzeChanges(cur, Some(prev));
    assert a.unfriended == {1} && a.newFriends == {4};
    assert a.removals == {LogLine(Unfriended, 1, r1.name)};
    assert a.additions == {LogLine(NewFriend, 4, r4.name)};
  }

  /** At exactly half nameless the guard does not trip, because the
      comparison is strict; one more nameless entry trips it. */
  lemma {:induction false} ExactlyHalfNamelessIsAnalysed(fs: seq<FriendRecord>, g: FriendRecord)
    requires 2 * NamelessCount(fs) == |fs|
    requires Nameless(g)
    ensures !AnalysisGuardTrips(fs)
    ensures AnalysisGuardTrips(fs + [g])
  {
    assert (fs + [g])[..|fs|] == fs;
    assert NamelessCount(fs + [g]) == NamelessCount(fs) + 1;
  }
}
