/**
 * The researcher's list of ongoing studies (backend/controller/profile.controller.js).
 *
 * The `users` rows it touches are reduced to their `user_id` and the JSONB column
 * `ongoing_research`; class `ProfileStore` holds them. JSON serialisation is modelled
 * for what it does to list elements here: `undefined` becomes `null`.
 */
module ProfileController {
  import opened Wrappers
  import opened JsValues

  /** A `users` row as this controller sees it; `None` is a NULL column. */
  datatype ProfileRow = ProfileRow(userId: string, ongoingResearch: Option<seq<JsVal>>)

  datatype ResearchReply = Added(updated: seq<JsVal>) | Listed(research: seq<JsVal>)

  /** `JSON.stringify` of one array element. */
  function Jsonify(v: JsVal): (r: JsVal)
    ensures r != Undefined
    ensures v != Undefined ==> r == v
  {
    if v.Undefined? then Null else v
  }

  /** `JSON.stringify` of an array, element by element. */
  function JsonList(xs: seq<JsVal>): (r: seq<JsVal>)
    ensures |r| == |xs| && forall k :: 0 <= k < |xs| ==> r[k] == Jsonify(xs[k])
  {
    seq(|xs|, k requires 0 <= k < |xs| => Jsonify(xs[k]))
  }

  /** A list read back from JSONB holds no `undefined`. */
  predicate Clean(xs: seq<JsVal>) {
    forall k :: 0 <= k < |xs| ==> xs[k] != Undefined
  }

  /** Serialising a list read from JSONB changes nothing. */
  lemma JsonListOfClean(xs: seq<JsVal>)
    requires Clean(xs)
    ensures JsonList(xs) == xs
  {
  }

  /** `result.rows[0]` of `SELECT ongoing_research FROM users WHERE user_id = $1`. */
  function FirstRow(rows: seq<ProfileRow>, userId: JsVal): (r: Option<nat>)
    ensures r.Some? ==> r.value < |rows| && SqlEquals(rows[r.value].userId, userId)
    ensures r.Some? ==> forall j :: 0 <= j < r.value ==> !SqlEquals(rows[j].userId, userId)
    ensures r.None? ==> forall j :: 0 <= j < |rows| ==> !SqlEquals(rows[j].userId, userId)
  {
    if rows == [] then None
    else if SqlEquals(rows[0].userId, userId) then Some(0)
    else match FirstRow(rows[1..], userId)
      case None => None
      case Some(k) => Some(k + 1)
  }

  /** The stored list, or `[]` when there is no row or the column is NULL (both handlers agree). */
  function ResearchOf(rows: seq<ProfileRow>, userId: JsVal): (r: seq<JsVal>)
    ensures FirstRow(rows, userId).None? ==> r == []
    ensures FirstRow(rows, userId).Some? && rows[FirstRow(rows, userId).value].ongoingResearch.Some? ==>
      r == rows[FirstRow(rows, userId).value].ongoingResearch.value
  {
    match FirstRow(rows, userId)
    case None => []
    case Some(k) => rows[k].ongoingResearch.GetOr([])
  }

  /** `UPDATE users SET ongoing_research = $1 WHERE user_id = $2`. */
  function SetResearch(rows: seq<ProfileRow>, userId: JsVal, stored: seq<JsVal>): (r: seq<ProfileRow>)
    ensures |r| == |rows|
    ensures forall k :: 0 <= k < |rows| ==>
      r[k].userId == rows[k].userId &&
      r[k].ongoingResearch == if SqlEquals(rows[k].userId, userId) then Some(stored) else rows[k].ongoingResearch
  {
    seq(|rows|, k requires 0 <= k < |rows| =>
      if SqlEquals(rows[k].userId, userId) then rows[k].(ongoingResearch := Some(stored)) else rows[k])
  }

  predicate AllClean(rows: seq<ProfileRow>) {
    forall k :: 0 <= k < |rows| && rows[k].ongoingResearch.Some? ==> Clean(rows[k].ongoingResearch.value)
  }

  /** After an append for a user who has a row, reading back yields the old list with the new
      study, as serialised, at its end. */
  lemma AppendThenRead(rows: seq<ProfileRow>, userId: JsVal, newStudy: JsVal)
    requires AllClean(rows) && FirstRow(rows, userId).Some?
    ensures var stored := JsonList(ResearchOf(rows, userId) + [newStudy]);
      ResearchOf(SetResearch(rows, userId, stored), userId) == ResearchOf(rows, userId) + [Jsonify(newStudy)]
  {
    var before := ResearchOf(rows, userId);
    var stored := JsonList(before + [newStudy]);
    var after := SetResearch(rows, userId, stored);
    FirstRowOfUpdate(rows, userId, stored);
    assert ResearchOf(after, userId) == stored;
    JsonListOfClean(before);
    assert stored == JsonList(before) + [Jsonify(newStudy)];
  }

  /** The update renames no row, so the first matching row stays the first. */
  lemma FirstRowOfUpdate(rows: seq<ProfileRow>, userId: JsVal, stored: seq<JsVal>)
    ensures FirstRow(SetResearch(rows, userId, stored), userId) == FirstRow(rows, userId)
  {
    var after := SetResearch(rows, userId, stored);
    var f := FirstRow(after, userId);
    var g := FirstRow(rows, userId);
    if f.Some? && g.Some? {
      assert !(f.value < g.value) && !(g.value < f.value);
    }
  }

  /** Without a `users` row the update writes nothing, although the reply reports the one-element list. */
  lemma AppendWithoutRowStoresNothing(rows: seq<ProfileRow>, userId: JsVal, stored: seq<JsVal>)
    requires FirstRow(rows, userId).None?
    ensures SetResearch(rows, userId, stored) == rows
  {
  }

  class ProfileStore {
    var rows: seq<ProfileRow>

    ghost predicate Valid()
      reads this
    {
      AllClean(rows)
    }

    constructor (rows: seq<ProfileRow>)
      requires AllClean(rows)
      ensures Valid() && this.rows == rows
    {
      this.rows := rows;
    }

    /** `addResearch`: the new study is pushed onto the stored list (or onto `[]`) and the
        whole list is written back; the reply carries the list that was written. */
    method AddResearch(userId: JsVal, newStudy: JsVal) returns (reply: ResearchReply)
      requires Valid()
      modifies this
      ensures Valid()
      ensures var stored := JsonList(ResearchOf(old(rows), userId) + [newStudy]);
        rows == SetResearch(old(rows), userId, stored) && reply == Added(stored)
      ensures FirstRow(old(rows), userId).Some? ==>
        ResearchOf(rows, userId) == ResearchOf(old(rows), userId) + [Jsonify(newStudy)]
    {
      var research := ResearchOf(rows, userId);
      research := research + [newStudy];
      var stored := JsonList(research);
      if FirstRow(rows, userId).Some? {
        AppendThenRead(rows, userId, newStudy);
      }
      rows := SetResearch(rows, userId, stored);
      reply := Added(stored);
    }

    /** `getResearch`: the stored list, or `[]`. */
    method GetResearch(userId: string) returns (reply: ResearchReply)
      ensures reply == Listed(ResearchOf(rows, Str(userId)))
    {
      reply := Listed(ResearchOf(rows, Str(userId)));
    }
  }
}
