/** The resource-map table that pairs local (WordPress) IDs with remote (Commerce) IDs, as the
    Commerce-sync services query it through `getIdsBy`. The repository class itself is a
    collaborator: only the behaviour of that one query is modelled. */
module ResourceMap {
  import opened Php

  /** One mapping row. `localId` is the value of the `local_id` column after the integer
      conversion the callers apply to it (`TypeHelper::int(..., 0)`). */
  datatype MapRow = MapRow(commerceId: string, localId: int)

  /** The table's rows, and whether `getIdsBy` throws InvalidArgumentException instead of
      answering (the callers treat that as "no rows"). */
  datatype Repository = Repository(rows: seq<MapRow>, rejectsQuery: bool)

  /** Rows whose `commerce_id` is one of `ids`, in table order. */
  function RowsWithCommerceIdIn(rows: seq<MapRow>, ids: seq<string>): (r: seq<MapRow>)
    ensures forall row :: row in r <==> row in rows && row.commerceId in ids
    decreases |rows|
  {
    if rows == [] then []
    else
      var init := RowsWithCommerceIdIn(rows[..|rows| - 1], ids);
      var last := rows[|rows| - 1];
      assert forall row :: row in rows <==> row in rows[..|rows| - 1] || row == last;
      if last.commerceId in ids then init + [last] else init
  }

  /** Rows whose `local_id` is one of `ids`, in table order. */
  function RowsWithLocalIdIn(rows: seq<MapRow>, ids: seq<int>): (r: seq<MapRow>)
    ensures forall row :: row in r <==> row in rows && row.localId in ids
    decreases |rows|
  {
    if rows == [] then []
    else
      var init := RowsWithLocalIdIn(rows[..|rows| - 1], ids);
      var last := rows[|rows| - 1];
      assert forall row :: row in rows <==> row in rows[..|rows| - 1] || row == last;
      if last.localId in ids then init + [last] else init
  }

  /** `getIdsBy(COLUMN_COMMERCE_ID, ids)` with an InvalidArgumentException read as no rows. */
  function RowsByCommerceIds(repo: Repository, ids: seq<string>): seq<MapRow> {
    if repo.rejectsQuery then [] else RowsWithCommerceIdIn(repo.rows, ids)
  }

  /** `getIdsBy(COLUMN_LOCAL_ID, ids)` with an InvalidArgumentException read as no rows. */
  function RowsByLocalIds(repo: Repository, ids: seq<int>): seq<MapRow> {
    if repo.rejectsQuery then [] else RowsWithLocalIdIn(repo.rows, ids)
  }

  /** `array_column($rows, 'commerce_id')`. */
  function CommerceIds(rows: seq<MapRow>): (r: seq<string>)
    ensures |r| == |rows|
    ensures forall i :: 0 <= i < |rows| ==> r[i] == rows[i].commerceId
  {
    seq(|rows|, i requires 0 <= i < |rows| => rows[i].commerceId)
  }
}
