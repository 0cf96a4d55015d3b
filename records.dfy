/**
 * The retrieval half of the service: fetch by id (`get_points_from_ids`) and
 * filtered scan (`search_points_by_filters`), both ending in the same loop
 * that turns each stored record into an `{id, payload, vector?}` dict.
 * The document store itself is a function parameter.
 */
module Records {
  import opened Wrappers
  import opened Failures
  import opened Json
  import opened Filters

  /** The two collections a request can name. */
  datatype CollectionName = CubecNote | PackageInsert

  /** A record as the store hands it back: its payload and vector may be missing. */
  datatype StoredRecord = StoredRecord(id: int, payload: Option<Dict>, vector: Option<seq<real>>)

  /** The dict built per record: `vector` is a key only when `vector.Some?`. */
  datatype Point = Point(id: int, payload: Dict, vector: Option<seq<real>>)

  /** `client.retrieve(collection, ids, with_payload, with_vectors)`; None when the client raises. */
  type Retrieve = (CollectionName, seq<int>, bool, bool) -> Option<seq<StoredRecord>>

  /** `client.scroll(collection, filter, with_payload, with_vectors)[0]`; None when the client raises. */
  type Scroll = (CollectionName, Filter, bool, bool) -> Option<seq<StoredRecord>>

  /**
   * p is what the service makes of rec: same id, the stored payload or {}
   * when there is none, and a vector only when vectors were asked for and
   * the stored one is non-empty.
   */
  ghost predicate NormalisedFrom(rec: StoredRecord, withVectors: bool, p: Point) {
    && p.id == rec.id
    && p.payload == (if rec.payload.Some? then rec.payload.value else [])
    && (p.vector.Some? <==> withVectors && rec.vector.Some? && rec.vector.value != [])
    && (p.vector.Some? ==> p.vector == rec.vector)
  }

  /** The dict built for one record. */
  function Normalise(rec: StoredRecord, withVectors: bool): (p: Point)
    ensures NormalisedFrom(rec, withVectors, p)
  {
    Point(rec.id,
          if rec.payload.Some? && rec.payload.value != [] then rec.payload.value else [],
          if withVectors && rec.vector.Some? && rec.vector.value != [] then rec.vector else None)
  }

  /** One point per record, in the store's order. */
  function NormaliseAll(records: seq<StoredRecord>, withVectors: bool): (points: seq<Point>)
    ensures |points| == |records|
  {
    seq(|records|, i requires 0 <= i < |records| => Normalise(records[i], withVectors))
  }

  /** The `for point in points: ... result.append(point_dict)` loop. */
  method NormaliseRecords(records: seq<StoredRecord>, withVectors: bool) returns (points: seq<Point>)
    ensures |points| == |records|
    ensures forall i :: 0 <= i < |records| ==> NormalisedFrom(records[i], withVectors, points[i])
    ensures points == NormaliseAll(records, withVectors)
  {
    points := [];
    for i := 0 to |records|
      invariant |points| == i
      invariant forall j :: 0 <= j < i ==> points[j] == Normalise(records[j], withVectors)
    {
      var rec := records[i];
      var payload: Dict := if rec.payload.Some? && rec.payload.value != [] then rec.payload.value else [];
      var vector: Option<seq<real>> := None;
      if withVectors && rec.vector.Some? && rec.vector.value != [] {
        vector := rec.vector;
      }
      points := points + [Point(rec.id, payload, vector)];
    }
  }

  /**
   * `get_points_from_ids`: an empty id list is refused before the store is
   * asked; otherwise the store's records are normalised.
   */
  method GetPointsFromIds(ids: seq<int>, collection: CollectionName, retrieve: Retrieve,
                          withPayload: bool, withVectors: bool)
    returns (r: Result<seq<Point>, Error>)
    ensures ids == [] ==> r == Failure(EmptyPointIds)
    ensures ids != [] ==>
      var stored := retrieve(collection, ids, withPayload, withVectors);
      && (r.Success? <==> stored.Some?)
      && (r.Failure? ==> r.error == StoreUnavailable)
      && (r.Success? ==> r.value == NormaliseAll(stored.value, withVectors))
  {
    if ids == [] {
      return Failure(EmptyPointIds);
    }
    var stored := retrieve(collection, ids, withPayload, withVectors);
    if stored.None? {
      return Failure(StoreUnavailable);
    }
    var points := NormaliseRecords(stored.value, withVectors);
    r := Success(points);
  }

  /**
   * `search_points_by_filters`: build the AND-filter (failing when no item
   * qualifies, before the store is asked), scan, normalise.
   */
  method SearchPointsByFilters(collection: CollectionName, items: seq<Dict>, scroll: Scroll,
                               withPayload: bool, withVectors: bool)
    returns (r: Result<seq<Point>, Error>)
    ensures (forall i :: 0 <= i < |items| ==> !Qualifies(items[i])) ==> r == Failure(NoValidFilterConditions)
    ensures (exists i :: 0 <= i < |items| && Qualifies(items[i])) ==>
      var stored := scroll(collection, Filter(Conditions(items)), withPayload, withVectors);
      && (r.Success? <==> stored.Some?)
      && (r.Failure? ==> r.error == StoreUnavailable)
      && (r.Success? ==> r.value == NormaliseAll(stored.value, withVectors))
  {
    var filter :- BuildFilter(items);
    var stored := scroll(collection, filter, withPayload, withVectors);
    if stored.None? {
      return Failure(StoreUnavailable);
    }
    var points := NormaliseRecords(stored.value, withVectors);
    r := Success(points);
  }
}
