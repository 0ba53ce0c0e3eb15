// The creator service over its two datastore tables, `creators` and
// `activities`. The datastore is modelled by what its three query shapes do
// to a table held as a sequence of rows: `insert` appends the row with a
// fresh identifier, `select … eq` keeps the matching rows in table order,
// and `update … eq` merges a patch into every matching row.

module CreatorService {
  import opened Values
  import opened Schemas

  /** Whether `.eq(key, v)` selects `row`. */
  predicate Matches(row: Row, key: string, v: Value)
  {
    key in row && row[key] == v
  }

  /** `table.select("*").eq(key, v)`: the matching rows, in table order. */
  function SelectEq(t: seq<Row>, key: string, v: Value): (r: seq<Row>)
    ensures |r| <= |t|
    ensures forall row :: row in r <==> row in t && Matches(row, key, v)
  {
    if t == [] then []
    else (if Matches(t[0], key, v) then [t[0]] else []) + SelectEq(t[1..], key, v)
  }

  /** A select returns rows exactly when some row matches, and the first row
      it returns is the table's first matching row. */
  lemma SelectEqFirst(t: seq<Row>, key: string, v: Value)
    ensures SelectEq(t, key, v) != [] <==> exists i :: 0 <= i < |t| && Matches(t[i], key, v)
    ensures forall i :: 0 <= i < |t| && Matches(t[i], key, v) && (forall j :: 0 <= j < i ==> !Matches(t[j], key, v)) ==>
      SelectEq(t, key, v) != [] && SelectEq(t, key, v)[0] == t[i]
  {
    var r := SelectEq(t, key, v);
    if r != [] {
      assert r[0] in r;
    }
    forall i | 0 <= i < |t| && Matches(t[i], key, v) && (forall j :: 0 <= j < i ==> !Matches(t[j], key, v))
      ensures r != [] && r[0] == t[i]
    {
      SelectEqHead(t, key, v, i);
    }
  }

  lemma {:induction false} SelectEqHead(t: seq<Row>, key: string, v: Value, i: nat)
    requires i < |t| && Matches(t[i], key, v)
    requires forall j :: 0 <= j < i ==> !Matches(t[j], key, v)
    ensures SelectEq(t, key, v) != [] && SelectEq(t, key, v)[0] == t[i]
  {
    if i > 0 {
      assert SelectEq(t, key, v) == SelectEq(t[1..], key, v);
      forall j | 0 <= j < i - 1 ensures !Matches(t[1..][j], key, v) {
        assert t[1..][j] == t[j + 1];
      }
      SelectEqHead(t[1..], key, v, i - 1);
    }
  }

  /** `table.update(patch).eq(key, v)` on the table. */
  function UpdateEq(t: seq<Row>, key: string, v: Value, patch: Row): (r: seq<Row>)
    ensures |r| == |t|
    ensures forall i :: 0 <= i < |t| ==> r[i] == if Matches(t[i], key, v) then t[i] + patch else t[i]
  {
    if t == [] then []
    else [if Matches(t[0], key, v) then t[0] + patch else t[0]] + UpdateEq(t[1..], key, v, patch)
  }

  /** The rows an update returns: the matching rows after the patch. */
  function Patched(rows: seq<Row>, patch: Row): seq<Row>
  {
    seq(|rows|, i requires 0 <= i < |rows| => rows[i] + patch)
  }

  /** An update leaves every column outside the patch as it was and touches
      only matching rows. */
  lemma UpdateEqFrame(t: seq<Row>, key: string, v: Value, patch: Row, i: nat, col: string)
    requires i < |t| && col !in patch
    ensures col in UpdateEq(t, key, v, patch)[i] <==> col in t[i]
    ensures col in t[i] ==> UpdateEq(t, key, v, patch)[i][col] == t[i][col]
    ensures !Matches(t[i], key, v) ==> UpdateEq(t, key, v, patch)[i] == t[i]
  {
  }

  lemma UpdateEqNoMatch(t: seq<Row>, key: string, v: Value, patch: Row)
    requires SelectEq(t, key, v) == []
    ensures UpdateEq(t, key, v, patch) == t
  {
    forall j | 0 <= j < |t| ensures !Matches(t[j], key, v) {
      assert t[j] in t;
    }
  }

  /** Identifiers the datastore assigns, modelled as a counter's decimal text. */
  function IdOf(n: nat): string
  {
    NatToString(n)
  }

  function WithId(row: Row, n: nat): Row
  {
    row["id" := Str(IdOf(n))]
  }

  /** Every row carries an identifier issued before `n`, and no two rows
      share one. */
  ghost predicate IdsIssued(t: seq<Row>, n: nat)
  {
    (forall i :: 0 <= i < |t| ==> "id" in t[i] && t[i]["id"].Str? && DecimalValue(t[i]["id"].s) < n)
    && (forall i, j :: 0 <= i < j < |t| ==> t[i]["id"] != t[j]["id"])
  }

  lemma NextIdFresh(t: seq<Row>, n: nat)
    requires IdsIssued(t, n)
    ensures forall i :: 0 <= i < |t| ==> t[i]["id"] != Str(IdOf(n))
  {
    DecimalRoundTrip(n);
  }

  lemma AppendIssued(t: seq<Row>, n: nat, row: Row)
    requires IdsIssued(t, n)
    ensures IdsIssued(t + [WithId(row, n)], n + 1)
  {
    NextIdFresh(t, n);
    DecimalRoundTrip(n);
  }

  /** The patch `update_creator_status` applies. */
  function StatusPatch(newStatus: string, now: string): Row
  {
    map["status" := Str(newStatus), "updated_at" := Str(now)]
  }

  /** The activity row `create_creator` logs. It uses the keys
      `activity_type` and `body`, not `type` and `metadata`. */
  function CreatorCreatedActivity(creatorId: Value, c: CreatorCreate, now: string): Row
  {
    map["creator_id" := creatorId,
        "activity_type" := Str(ActivityTypeValue(CreatorCreated)),
        "body" := Str("Creator " + c.name + " (@" + c.handle + ") created in system"),
        "activity_datetime" := Str(now)]
  }

  /** The activity row `update_creator_status` logs. */
  function StatusChangedActivity(creatorId: string, newStatus: string, now: string): Row
  {
    map["creator_id" := Str(creatorId),
        "activity_type" := Str(ActivityTypeValue(StatusChanged)),
        "body" := Str("Creator status changed to " + newStatus),
        "activity_datetime" := Str(now)]
  }

  function CreatorNotFound(id: string): Exc
  {
    HttpExc(404, "Creator with ID " + id + " not found")
  }

  /** What `get_creator` yields for a table: the first row with this id, or
      the 404 it raises. */
  function CreatorLookup(creators: seq<Row>, id: string): Result<Row, Exc>
  {
    var rows := SelectEq(creators, "id", Str(id));
    if rows == [] then Failure(CreatorNotFound(id)) else Success(rows[0])
  }

  /** Logging the same payload twice stores two rows that differ in their
      identifier: the log does not deduplicate. */
  lemma IdenticalPayloadsDistinctRows(data: Row, n: nat, m: nat)
    requires n != m
    ensures WithId(data, n) != WithId(data, m)
    ensures WithId(data, n)["id"] != WithId(data, m)["id"]
  {
    DecimalRoundTrip(n);
    DecimalRoundTrip(m);
    assert WithId(data, n)["id"] == Str(IdOf(n));
  }

  class CreatorStore {
    var creators: seq<Row>
    var activities: seq<Row>
    var nextId: nat

    ghost predicate Valid()
      reads this
    {
      IdsIssued(creators, nextId) && IdsIssued(activities, nextId)
    }

    constructor ()
      ensures Valid()
      ensures creators == [] && activities == []
    {
      creators, activities, nextId := [], [], 0;
    }

    /** `log_activity`: one insert into `activities`, returning the stored
        row. Every call adds a row with a new identifier, even for a payload
        already logged. */
    method LogActivity(data: Row) returns (record: Row)
      requires Valid()
      modifies this
      ensures Valid()
      ensures record == WithId(data, old(nextId))
      ensures activities == old(activities) + [record] && creators == old(creators)
      ensures forall i :: 0 <= i < |old(activities)| ==> old(activities)[i]["id"] != record["id"]
    {
      NextIdFresh(activities, nextId);
      AppendIssued(activities, nextId, data);
      record := WithId(data, nextId);
      activities := activities + [record];
      nextId := nextId + 1;
    }

    /** `create_creator`: stamp both timestamps, insert the creator, then
        log one `creator_created` activity naming the new row's id. */
    method CreateCreator(c: CreatorCreate, now: string) returns (record: Row)
      requires Valid()
      modifies this
      ensures Valid()
      ensures record == WithId(CreatorCreateRow(c)["created_at" := Str(now)]["updated_at" := Str(now)], old(nextId))
      ensures creators == old(creators) + [record]
      ensures activities == old(activities) + [WithId(CreatorCreatedActivity(record["id"], c, now), old(nextId) + 1)]
    {
      var data := CreatorCreateRow(c);
      data := data["created_at" := Str(now)];
      data := data["updated_at" := Str(now)];
      AppendIssued(creators, nextId, data);
      record := WithId(data, nextId);
      creators := creators + [record];
      nextId := nextId + 1;
      var logged := LogActivity(CreatorCreatedActivity(record["id"], c, now));
    }

    /** `get_creator`: the first row whose `id` is `id`, or a 404. */
    method GetCreator(id: string) returns (r: Result<Row, Exc>)
      ensures r == CreatorLookup(creators, id)
      ensures r.Success? <==> exists i :: 0 <= i < |creators| && Matches(creators[i], "id", Str(id))
      ensures r.Failure? ==> r.error == CreatorNotFound(id)
      ensures forall i :: 0 <= i < |creators| && Matches(creators[i], "id", Str(id))
                          && (forall j :: 0 <= j < i ==> !Matches(creators[j], "id", Str(id))) ==>
                r == Success(creators[i])
    {
      var rows := SelectEq(creators, "id", Str(id));
      SelectEqFirst(creators, "id", Str(id));
      if rows == [] {
        r := Failure(CreatorNotFound(id));
      } else {
        r := Success(rows[0]);
      }
    }

    /** `get_all_creators`: every creator row, as stored. */
    method GetAllCreators() returns (rows: seq<Row>)
      ensures rows == creators
    {
      rows := creators;
    }

    /** `update_creator_status`: patch `status` and `updated_at` on every row
        with this id; if none matched, raise and log nothing, otherwise log
        one `status_changed` activity and return the first updated row. */
    method UpdateCreatorStatus(id: string, newStatus: string, now: string) returns (r: Result<Row, Exc>)
      requires Valid()
      modifies this
      ensures Valid()
      ensures creators == UpdateEq(old(creators), "id", Str(id), StatusPatch(newStatus, now))
      ensures SelectEq(old(creators), "id", Str(id)) == [] ==>
        r == Failure(Raised("Creator with ID " + id + " not found"))
        && creators == old(creators) && activities == old(activities)
      ensures SelectEq(old(creators), "id", Str(id)) != [] ==>
        r == Success(SelectEq(old(creators), "id", Str(id))[0] + StatusPatch(newStatus, now))
        && activities == old(activities) + [WithId(StatusChangedActivity(id, newStatus, now), old(nextId))]
    {
      var patch := StatusPatch(newStatus, now);
      var updated := Patched(SelectEq(creators, "id", Str(id)), patch);
      var before := creators;
      creators := UpdateEq(creators, "id", Str(id), patch);
      forall i | 0 <= i < |creators| ensures "id" in creators[i] && creators[i]["id"] == before[i]["id"] {
        UpdateEqFrame(before, "id", Str(id), patch, i, "id");
      }
      if updated == [] {
        UpdateEqNoMatch(before, "id", Str(id), patch);
        r := Failure(Raised("Creator with ID " + id + " not found"));
      } else {
        var logged := LogActivity(StatusChangedActivity(id, newStatus, now));
        r := Success(updated[0]);
      }
    }
  }
}
