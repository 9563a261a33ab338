/** The contact tables lastTouchMapX / lastTouchMapY (graph/KidneyXWeb.js:5-6):
    keys, and the insert and delete loops the touch handlers run over them. */
module Contacts {
  import opened Geometry

  /** A table key: the reserved "center" entry or a device-assigned identifier.
      The two constructors can never collide, as the string "center" never
      equals a numeric identifier in the source. */
  datatype Key = Center | Finger(id: int)

  /** The finger keys of a list of touches. */
  function Fingers(ts: seq<Touch>): (r: set<Key>)
    ensures Center !in r
    ensures forall i :: 0 <= i < |ts| ==> Finger(ts[i].id) in r
  {
    if ts == [] then {} else Fingers(ts[..|ts| - 1]) + {Finger(ts[|ts| - 1].id)}
  }

  /** Touch i is the last one in ts with its identifier. */
  predicate LastOccurrence(ts: seq<Touch>, i: int)
    requires 0 <= i < |ts|
  {
    forall j :: i < j < |ts| ==> ts[j].id != ts[i].id
  }

  /** No earlier touch in ts has the identifier of touch i. */
  predicate FirstOccurrence(ts: seq<Touch>, i: int)
    requires 0 <= i < |ts|
  {
    forall j :: 0 <= j < i ==> ts[j].id != ts[i].id
  }

  /** Fingers(ts) holds exactly the identifiers that occur in ts. */
  lemma {:induction false} FingerIn(ts: seq<Touch>, id: int)
    ensures Finger(id) in Fingers(ts) <==> exists j :: 0 <= j < |ts| && ts[j].id == id
  {
    if ts != [] {
      var n := |ts| - 1;
      FingerIn(ts[..n], id);
      assert forall j :: 0 <= j < n ==> ts[..n][j] == ts[j];
    }
  }

  /** The last touch of ts is the first with its identifier exactly when no
      earlier touch put that identifier into Fingers. */
  lemma FirstOccurrenceLast(ts: seq<Touch>)
    requires ts != []
    ensures FirstOccurrence(ts, |ts| - 1) <==> Finger(ts[|ts| - 1].id) !in Fingers(ts[..|ts| - 1])
  {
    var n := |ts| - 1;
    FingerIn(ts[..n], ts[n].id);
    assert forall j :: 0 <= j < n ==> ts[..n][j] == ts[j];
  }

  /** Dropping the last touch does not change whether an earlier one is the
      first with its identifier. */
  lemma FirstOccurrencePrefix(ts: seq<Touch>, i: int)
    requires 0 <= i < |ts| - 1
    ensures ts[..|ts| - 1][i] == ts[i]
    ensures FirstOccurrence(ts[..|ts| - 1], i) <==> FirstOccurrence(ts, i)
  {
    assert forall j :: 0 <= j < i ==> ts[..|ts| - 1][j] == ts[j];
  }

  /** One axis of the store loop: each touch, in order, writes its surface-local
      coordinate under its identifier, overwriting any earlier value. */
  function StoreAll(m: map<Key, real>, ts: seq<Touch>, offset: Point, axis: Axis): map<Key, real>
  {
    if ts == [] then m
    else
      var n := |ts| - 1;
      StoreAll(m, ts[..n], offset, axis)[Finger(ts[n].id) := Coord(Local(ts[n], offset), axis)]
  }

  /** The store loop adds exactly the changed identifiers. */
  lemma {:induction false} StoreAllKeys(m: map<Key, real>, ts: seq<Touch>, offset: Point, axis: Axis)
    ensures StoreAll(m, ts, offset, axis).Keys == m.Keys + Fingers(ts)
  {
    if ts != [] {
      StoreAllKeys(m, ts[..|ts| - 1], offset, axis);
    }
  }

  /** The store loop leaves every entry it does not write, "center" included,
      as it was. */
  lemma {:induction false} StoreAllKeeps(m: map<Key, real>, ts: seq<Touch>, offset: Point, axis: Axis)
    ensures forall k :: k in m && k !in Fingers(ts) ==>
              k in StoreAll(m, ts, offset, axis) && StoreAll(m, ts, offset, axis)[k] == m[k]
  {
    if ts != [] {
      StoreAllKeeps(m, ts[..|ts| - 1], offset, axis);
    }
  }

  /** After the store loop, a changed identifier holds the position of its
      last touch in the list: a later duplicate overwrites an earlier one. */
  lemma {:induction false} StoreAllLastWins(m: map<Key, real>, ts: seq<Touch>, offset: Point, axis: Axis, i: int)
    requires 0 <= i < |ts| && LastOccurrence(ts, i)
    ensures Finger(ts[i].id) in StoreAll(m, ts, offset, axis)
    ensures StoreAll(m, ts, offset, axis)[Finger(ts[i].id)] == Coord(Local(ts[i], offset), axis)
  {
    var n := |ts| - 1;
    if i < n {
      var pre := ts[..n];
      assert pre[i] == ts[i];
      assert LastOccurrence(pre, i);
      StoreAllLastWins(m, pre, offset, axis, i);
    }
  }

  /** One more iteration of the store loop. */
  lemma StoreAllStep(m: map<Key, real>, ts: seq<Touch>, offset: Point, axis: Axis, i: int)
    requires 0 <= i < |ts|
    ensures StoreAll(m, ts[..i + 1], offset, axis)
         == StoreAll(m, ts[..i], offset, axis)[Finger(ts[i].id) := Coord(Local(ts[i], offset), axis)]
  {
    assert ts[..i + 1][..i] == ts[..i];
  }

  /** One axis of the delete loop: each touch's identifier is removed; an
      absent identifier leaves the table as it is. */
  function RemoveAll(m: map<Key, real>, ts: seq<Touch>): map<Key, real>
  {
    if ts == [] then m
    else
      var n := |ts| - 1;
      RemoveAll(m, ts[..n]) - {Finger(ts[n].id)}
  }

  /** The delete loop removes exactly the changed identifiers. */
  lemma {:induction false} RemoveAllKeys(m: map<Key, real>, ts: seq<Touch>)
    ensures RemoveAll(m, ts).Keys == m.Keys - Fingers(ts)
  {
    if ts != [] {
      RemoveAllKeys(m, ts[..|ts| - 1]);
    }
  }

  /** The delete loop leaves every remaining entry, "center" included, as it was. */
  lemma {:induction false} RemoveAllKeeps(m: map<Key, real>, ts: seq<Touch>)
    ensures forall k :: k in RemoveAll(m, ts) ==> k in m && RemoveAll(m, ts)[k] == m[k]
  {
    if ts != [] {
      RemoveAllKeeps(m, ts[..|ts| - 1]);
    }
  }

  /** One more iteration of the delete loop. */
  lemma RemoveAllStep(m: map<Key, real>, ts: seq<Touch>, i: int)
    requires 0 <= i < |ts|
    ensures RemoveAll(m, ts[..i + 1]) == RemoveAll(m, ts[..i]) - {Finger(ts[i].id)}
  {
    assert ts[..i + 1][..i] == ts[..i];
  }
}
