/**
 * The dedup store: the `published_records` table and the clock reading
 * `get_timestamp` that stamps and filters its rows.
 */
module Records {
  import opened Wrappers

  const SecondsPerDay: int := 24 * 60 * 60

  /** The width of the dedup window, in days. */
  const WindowDays: int := 7

  /**
   * `get_timestamp(offsetDays)` when the clock reads `nowMs` milliseconds:
   * the floor of `nowMs / 1000 + offsetDays * 86400`.
   */
  function GetTimestamp(nowMs: int, offsetDays: int): (t: int)
    ensures t * 1000 <= nowMs + offsetDays * SecondsPerDay * 1000 < t * 1000 + 1000
  {
    nowMs / 1000 + offsetDays * SecondsPerDay
  }

  /** One row of `published_records`: `(hobby_id, info_type, publish_timestamp)`. */
  datatype Row = Row(hobbyId: int, infoType: string, publishTimestamp: int)

  /** The WHERE clause of the existence query. */
  predicate Matches(row: Row, hobbyId: int, infoType: string, cutoff: int) {
    row.hobbyId == hobbyId && row.infoType == infoType && row.publishTimestamp > cutoff
  }

  /** `SELECT COUNT(*) ... WHERE hobby_id = ? AND info_type = ? AND publish_timestamp > ?`. */
  function CountMatching(rows: seq<Row>, hobbyId: int, infoType: string, cutoff: int): (n: nat)
    ensures n <= |rows|
    ensures n != 0 <==> exists i :: 0 <= i < |rows| && Matches(rows[i], hobbyId, infoType, cutoff)
  {
    if |rows| == 0 then 0
    else
      var front := rows[..|rows| - 1];
      assert forall i :: 0 <= i < |front| ==> front[i] == rows[i];
      CountMatching(front, hobbyId, infoType, cutoff)
        + (if Matches(rows[|rows| - 1], hobbyId, infoType, cutoff) then 1 else 0)
  }

  /** What `check_record_existence` answers for the table `rows` at time `nowMs`. */
  predicate RecentlyPublished(rows: seq<Row>, hobbyId: int, infoType: string, nowMs: int) {
    CountMatching(rows, hobbyId, infoType, GetTimestamp(nowMs, -WindowDays)) != 0
  }

  /** The window is strict: a row exactly seven days old no longer counts, one a second younger does. */
  lemma WindowBoundary(hobbyId: int, infoType: string, nowMs: int)
    ensures var now := GetTimestamp(nowMs, 0);
      !RecentlyPublished([Row(hobbyId, infoType, now - WindowDays * SecondsPerDay)], hobbyId, infoType, nowMs)
      && RecentlyPublished([Row(hobbyId, infoType, now - WindowDays * SecondsPerDay + 1)], hobbyId, infoType, nowMs)
  {
  }

  /** A row a run writes at `nowMs` is inside the window of a check at `nowMs`. */
  lemma FreshRowIsRecent(rows: seq<Row>, hobbyId: int, infoType: string, nowMs: int)
    ensures RecentlyPublished(rows + [Row(hobbyId, infoType, GetTimestamp(nowMs, 0))], hobbyId, infoType, nowMs)
  {
    var all := rows + [Row(hobbyId, infoType, GetTimestamp(nowMs, 0))];
    assert Matches(all[|rows|], hobbyId, infoType, GetTimestamp(nowMs, -WindowDays));
  }

  /** Appending rows never hides a recent record. */
  lemma RecentStaysRecent(rows: seq<Row>, more: seq<Row>, hobbyId: int, infoType: string, nowMs: int)
    requires RecentlyPublished(rows, hobbyId, infoType, nowMs)
    ensures RecentlyPublished(rows + more, hobbyId, infoType, nowMs)
  {
    var cutoff := GetTimestamp(nowMs, -WindowDays);
    var i :| 0 <= i < |rows| && Matches(rows[i], hobbyId, infoType, cutoff);
    assert (rows + more)[i] == rows[i];
  }

  /** A statement sent to SQLite: the existence query for an item, or the insert of a row. */
  datatype StorageOp = Select(hobbyId: int, infoType: string) | Insert(row: Row)

  /**
   * Whether SQLite reports an error (the `error` argument of the callback)
   * for a statement run on a table holding `rows`.
   */
  type StorageOracle = (StorageOp, seq<Row>) -> bool

  /** The table `published_records`, which the pipeline only ever appends to. */
  class PublishedRecords {
    var rows: seq<Row>
    const fails: StorageOracle

    /** An empty table, as `CREATE TABLE IF NOT EXISTS` leaves it on the first run. */
    constructor (fails: StorageOracle)
      ensures rows == [] && this.fails == fails
    {
      rows := [];
      this.fails := fails;
    }

    /**
     * `check_record_existence`: is there a row for this item and info type
     * whose timestamp is strictly later than seven days before now? `None`
     * when the query reports an error, which rejects the promise.
     */
    method CheckRecordExistence(hobbyId: int, infoType: string, nowMs: int) returns (found: Option<bool>)
      ensures found.None? <==> fails(Select(hobbyId, infoType), rows)
      ensures found.Some? ==>
        (found.value <==> exists i :: 0 <= i < |rows| && rows[i].hobbyId == hobbyId && rows[i].infoType == infoType
                                     && rows[i].publishTimestamp > GetTimestamp(nowMs, 0) - WindowDays * SecondsPerDay)
      ensures found.Some? ==> found.value == RecentlyPublished(rows, hobbyId, infoType, nowMs)
    {
      if fails(Select(hobbyId, infoType), rows) {
        return None;
      }
      var cutoff := GetTimestamp(nowMs, -WindowDays);
      var count := 0;
      var i := 0;
      while i < |rows|
        invariant 0 <= i <= |rows|
        invariant count == CountMatching(rows[..i], hobbyId, infoType, cutoff)
      {
        var row := rows[i];
        assert rows[..i + 1][..i] == rows[..i];
        if row.hobbyId == hobbyId && row.infoType == infoType && row.publishTimestamp > cutoff {
          count := count + 1;
        }
        i := i + 1;
      }
      assert rows[..|rows|] == rows;
      found := Some(count != 0);
    }

    /**
     * `create_publish_record`: one new row stamped with the current time;
     * earlier rows stay as they are. `stored` is false when the insert
     * reports an error, and then the table is unchanged.
     */
    method CreatePublishRecord(hobbyId: int, infoType: string, nowMs: int) returns (stored: bool)
      modifies this
      ensures var row := Row(hobbyId, infoType, GetTimestamp(nowMs, 0));
        stored == !fails(Insert(row), old(rows))
        && rows == if stored then old(rows) + [row] else old(rows)
    {
      var row := Row(hobbyId, infoType, GetTimestamp(nowMs, 0));
      if fails(Insert(row), rows) {
        return false;
      }
      rows := rows + [row];
      stored := true;
    }
  }
}
