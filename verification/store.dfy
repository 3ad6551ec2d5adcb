/** The snapshot file: `load_local_history` (run.py:70-79) and the guards of
    `save_database` (run.py:263-270). */
module Store {
  import opened Wrappers
  import opened Records
  import Changes

  /** What `save_database` does with a list. */
  datatype SaveDecision = NothingToSave | RefusedCorrupt | Persist(snapshot: seq<FriendRecord>)

  /** `invalid_count / len(friends) > 0.2`, by cross-multiplication; the
      ensures reads the quotient exactly, over the reals. */
  function SaveGuardTrips(fs: seq<FriendRecord>): (b: bool)
    ensures b <==> |fs| > 0 && QuotientExceeds(NamelessCount(fs), |fs|, 0.2)
  {
    if |fs| == 0 then false
    else
      QuotientAbove(NamelessCount(fs), |fs|, 0.2);
      5 * NamelessCount(fs) > |fs|
  }

  /** `load_local_history`: the stored list, or the empty list when the file
      is missing or unreadable. */
  function LoadLocalHistory(stored: Option<seq<FriendRecord>>): (h: seq<FriendRecord>)
    ensures stored.None? ==> h == []
    ensures stored.Some? ==> h == stored.value
  {
    stored.GetOr([])
  }

  /** `save_database`: nothing for an empty list, a refusal when more than a
      fifth of the entries are nameless, otherwise the whole list is written. */
  function SaveDatabase(friends: seq<FriendRecord>): (d: SaveDecision)
    ensures d.NothingToSave? <==> |friends| == 0
    ensures d.RefusedCorrupt? <==> SaveGuardTrips(friends)
    ensures d.Persist? ==> d.snapshot == friends
  {
    if |friends| == 0 then NothingToSave
    else if SaveGuardTrips(friends) then RefusedCorrupt
    else Persist(friends)
  }

  /** The file after the save: replaced by a persisted list, else untouched. */
  function StoredAfter(stored: Option<seq<FriendRecord>>, d: SaveDecision): (s: Option<seq<FriendRecord>>)
    ensures d.Persist? ==> s == Some(d.snapshot)
    ensures !d.Persist? ==> s == stored
  {
    if d.Persist? then Some(d.snapshot) else stored
  }

  /** A persisted list is what the next run loads as history. */
  lemma SaveThenLoad(stored: Option<seq<FriendRecord>>, friends: seq<FriendRecord>)
    requires SaveDatabase(friends).Persist?
    ensures LoadLocalHistory(StoredAfter(stored, SaveDatabase(friends))) == friends
  {
  }

  /** The save guard is stricter than the analysis guard: whatever is
      persisted would also have been analysed. */
  lemma SaveGuardStricter(friends: seq<FriendRecord>)
    ensures SaveDatabase(friends).Persist? ==> !Changes.AnalysisGuardTrips(friends)
    ensures Changes.AnalysisGuardTrips(friends) ==> SaveDatabase(friends).RefusedCorrupt?
  {
  }

  /** One nameless entry in five is still saved (the comparison is strict);
      one in four is refused. */
  lemma ExactlyOneFifthIsSaved(a: FriendRecord, b: FriendRecord, c: FriendRecord, d: FriendRecord, e: FriendRecord)
    requires !Nameless(a) && !Nameless(b) && !Nameless(c) && !Nameless(d) && Nameless(e)
    ensures SaveDatabase([a, b, c, d, e]).Persist?
    ensures SaveDatabase([a, b, c, e]).RefusedCorrupt?
  {
    NamelessCountExtremes([a, b, c, d]);
    assert [a, b, c, d, e][..4] == [a, b, c, d];
    NamelessCountExtremes([a, b, c]);
    assert [a, b, c, e][..3] == [a, b, c];
  }
}
