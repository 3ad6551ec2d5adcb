/** Friend records and the dictionary-building idioms shared by every stage. */
module Records {
  import opened Wrappers

  /** One friend entry. Every field except `id` may be absent; the tracker
      only ever reads these four keys. */
  datatype FriendRecord = FriendRecord(
    id: int,
    name: Option<string>,
    displayName: Option<string>,
    hasVerifiedBadge: Option<bool>)

  /** The tracker's `not f.get('name')`: the name is missing, null or empty. */
  function Nameless(f: FriendRecord): (b: bool)
    ensures b <==> |f.name.GetOr("")| == 0
  {
    f.name.None? || f.name.value == ""
  }

  /** How many entries of `fs` are nameless (run.py:209 and run.py:267). */
  function NamelessCount(fs: seq<FriendRecord>): (k: nat)
    ensures k <= |fs|
  {
    if |fs| == 0 then 0
    else NamelessCount(fs[..|fs| - 1]) + (if Nameless(fs[|fs| - 1]) then 1 else 0)
  }

  /** The count is 0 exactly when every entry is named, and the full length
      exactly when every entry is nameless. */
  lemma {:induction false} NamelessCountExtremes(fs: seq<FriendRecord>)
    ensures NamelessCount(fs) == 0 <==> forall i :: 0 <= i < |fs| ==> !Nameless(fs[i])
    ensures NamelessCount(fs) == |fs| <==> forall i :: 0 <= i < |fs| ==> Nameless(fs[i])
  {
    if |fs| > 0 {
      var init := fs[..|fs| - 1];
      NamelessCountExtremes(init);
      assert forall i :: 0 <= i < |init| ==> init[i] == fs[i];
    }
  }

  /** The exact quotient `k / n` exceeds the threshold `t`. */
  predicate QuotientExceeds(k: nat, n: nat, t: real)
    requires n > 0
  {
    k as real / n as real > t
  }

  /** Comparing the quotient `k / n` with a threshold is comparing `k` with
      the threshold's multiple of `n`. */
  lemma QuotientAbove(k: nat, n: nat, t: real)
    requires n > 0
    ensures QuotientExceeds(k, n, t) <==> k as real > t * n as real
  {
    var x := k as real / n as real;
    assert x * n as real == k as real;
    if x > t {
      assert (x - t) * n as real > 0.0;
    } else {
      assert (t - x) * n as real >= 0.0;
    }
  }

  /** Reference definition: the count is the number of positions holding a
      nameless entry. */
  lemma {:induction false} NamelessCountIsIndexCount(fs: seq<FriendRecord>)
    ensures NamelessCount(fs) == |set i | 0 <= i < |fs| && Nameless(fs[i])|
  {
    if |fs| > 0 {
      var n := |fs| - 1;
      var init := fs[..n];
      NamelessCountIsIndexCount(init);
      var s0 := set i | 0 <= i < |init| && Nameless(init[i]);
      var s := set i | 0 <= i < |fs| && Nameless(fs[i]);
      assert forall i :: 0 <= i < n ==> init[i] == fs[i];
      if Nameless(fs[n]) {
        assert s == s0 + {n};
      } else {
        assert s == s0;
      }
    }
  }

  /** The set of identifiers occurring in `fs`. */
  function IdSet(fs: seq<FriendRecord>): set<int> {
    set i | 0 <= i < |fs| :: fs[i].id
  }

  /** The identifiers of `fs`, in order (run.py:146). */
  function IdsOf(fs: seq<FriendRecord>): (ids: seq<int>)
    ensures |ids| == |fs|
    ensures forall i :: 0 <= i < |fs| ==> ids[i] == fs[i].id
  {
    seq(|fs|, i requires 0 <= i < |fs| => fs[i].id)
  }

  /** Appending an entry adds exactly its identifier to the id set. */
  lemma IdSetSnoc(fs: seq<FriendRecord>)
    requires |fs| > 0
    ensures IdSet(fs) == IdSet(fs[..|fs| - 1]) + {fs[|fs| - 1].id}
  {
  }

  /** Entry `j` is the last one in `fs` that carries its identifier. */
  predicate LastWithId(fs: seq<FriendRecord>, j: int)
    requires 0 <= j < |fs|
  {
    forall j' :: j < j' < |fs| ==> fs[j'].id != fs[j].id
  }

  /** The dictionary `{u['id']: u for u in fs}`, built left to right so that
      a later entry with the same identifier replaces an earlier one. */
  function MapById(fs: seq<FriendRecord>): (m: map<int, FriendRecord>)
    ensures m.Keys == IdSet(fs)
  {
    if |fs| == 0 then map[]
    else
      IdSetSnoc(fs);
      MapById(fs[..|fs| - 1])[fs[|fs| - 1].id := fs[|fs| - 1]]
  }

  /** Last wins: each identifier is bound to the last entry that carries it. */
  lemma {:induction false} MapByIdLastWins(fs: seq<FriendRecord>, j: int)
    requires 0 <= j < |fs| && LastWithId(fs, j)
    ensures MapById(fs)[fs[j].id] == fs[j]
    decreases |fs|
  {
    var init := fs[..|fs| - 1];
    if j < |init| {
      assert fs[j].id != fs[|fs| - 1].id;
      assert LastWithId(init, j) && init[j] == fs[j];
      MapByIdLastWins(init, j);
    }
  }

  /** When identifiers are unique (a snapshot's invariant), the id map returns
      each entry of the list under its own identifier. */
  lemma {:induction false} UniqueIdsMapBack(fs: seq<FriendRecord>)
    requires forall i, j :: 0 <= i < j < |fs| ==> fs[i].id != fs[j].id
    ensures forall i :: 0 <= i < |fs| ==> MapById(fs)[fs[i].id] == fs[i]
  {
    forall i | 0 <= i < |fs|
      ensures MapById(fs)[fs[i].id] == fs[i]
    {
      assert LastWithId(fs, i);
      MapByIdLastWins(fs, i);
    }
  }
}
