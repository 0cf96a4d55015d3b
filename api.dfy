/**
 * The four endpoints that run the pipeline, each ending in the
 * `{success, data, count}` envelope. Routing and request validation are
 * the web framework's; a request is its already-validated fields.
 */
module Api {
  import opened Wrappers
  import opened Failures
  import opened Json
  import opened Filters
  import opened Records
  import opened CubecNotes
  import opened PackageInserts

  /** `{"success": True, "data": data, "count": len(data)}`. */
  datatype Envelope = Envelope(success: bool, data: seq<Point>, count: int)

  /** The envelope every successful endpoint returns: count is the length of data. */
  predicate Wraps(e: Envelope, data: seq<Point>) {
    e.success && e.data == data && e.count == |data|
  }

  /** The body of `POST /api`. */
  datatype PointRequest = PointRequest(pointIds: seq<int>, collection: CollectionName,
                                       withPayload: bool, withVectors: bool)

  /** The conditions `search_points_by_filters` builds from two endpoint items. */
  lemma TwoItemConditions(f1: string, v1: string, k1: string, f2: string, v2: string, k2: string)
    requires f1 != [] && f2 != []
    ensures Qualifies(Item(f1, v1, k1))
    ensures Conditions([Item(f1, v1, k1), Item(f2, v2, k2)]) ==
              [ConditionFor(Item(f1, v1, k1)), ConditionFor(Item(f2, v2, k2))]
  {
    EndpointItemQualifies(f1, v1, k1);
    EndpointItemQualifies(f2, v2, k2);
    ConditionsAppend([Item(f1, v1, k1)], [Item(f2, v2, k2)]);
    ConditionsSingle(Item(f1, v1, k1));
    ConditionsSingle(Item(f2, v2, k2));
    assert [Item(f1, v1, k1), Item(f2, v2, k2)] == [Item(f1, v1, k1)] + [Item(f2, v2, k2)];
  }

  /** The filter of `POST /api/cubec-note/chapter`: both fields text-matched. */
  function ChapterFilter(title: string, disease: string): Filter {
    Filter([FieldCondition(Str("metadata.main_category"), MatchText(Str(title))),
            FieldCondition(Str("metadata.disease_name"), MatchText(Str(disease)))])
  }

  /** The filter of `POST /api/cubec-note/page`. */
  function PageFilter(disease: string): Filter {
    Filter([FieldCondition(Str("metadata.disease_name"), MatchText(Str(disease)))])
  }

  /** The filter of `POST /api/package-insert/chapter`: exact number, text section title. */
  function PackageChapterFilter(no: string, sectionTitle: string): Filter {
    Filter([FieldCondition(Str("package_insert_no"), MatchValue(Str(no))),
            FieldCondition(Str("section_title"), MatchText(Str(sectionTitle)))])
  }

  /**
   * What transforming and wrapping a list of clinical-note points answers:
   * the transformed points, one per point in order, or the exception of the
   * first point whose payload does not transform.
   */
  ghost predicate NotesOutcome(points: seq<Point>, r: Result<Envelope, Error>) {
    && (r.Success? <==> forall i :: 0 <= i < |points| ==> NoteOk(points[i].payload))
    && (r.Failure? ==> exists i :: 0 <= i < |points| && !NoteOk(points[i].payload)
                                   && r.error == NoteError(points[i].payload)
                                   && forall j :: 0 <= j < i ==> NoteOk(points[j].payload))
    && (r.Success? ==> && r.value.success && r.value.count == |r.value.data| == |points|
                       && forall i :: 0 <= i < |points| ==> TransformedFrom(points[i], r.value.data[i]))
  }

  /** What a clinical-note endpoint answers for the records the store found. */
  ghost predicate NotesAnswer(records: seq<StoredRecord>, withVectors: bool, r: Result<Envelope, Error>) {
    NotesOutcome(NormaliseAll(records, withVectors), r)
  }

  /**
   * What a package-insert endpoint answers for the records the store found:
   * the enriched points, or the exception of an unhashable number.
   */
  ghost predicate PackageAnswer(records: seq<StoredRecord>, withVectors: bool, service: UrlService,
                                r: Result<Envelope, Error>) {
    var points := NormaliseAll(records, withVectors);
    && (r.Success? <==> forall i :: 0 <= i < |points| ==>
                          !Truthy(CodeOf(points[i])) || Hashable(CodeOf(points[i])))
    && (r.Failure? ==> r.error == UnhashableCode)
    && (r.Success? ==> Wraps(r.value, Enriched(points, service)))
  }

  /** Transform the found clinical notes and wrap them. */
  method RespondWithNotes(points: seq<Point>) returns (r: Result<Envelope, Error>)
    ensures NotesOutcome(points, r)
  {
    var transformed :- TransformCubecNoteResponse(points);
    r := Success(Envelope(true, transformed, |transformed|));
  }

  /** Enrich the found package inserts and wrap them. */
  method RespondWithPackageInserts(points: seq<Point>, service: UrlService) returns (r: Result<Envelope, Error>)
    ensures r.Success? <==> forall i :: 0 <= i < |points| ==>
                              !Truthy(CodeOf(points[i])) || Hashable(CodeOf(points[i]))
    ensures r.Failure? ==> r.error == UnhashableCode
    ensures r.Success? ==> Wraps(r.value, Enriched(points, service))
  {
    var a := new Point[|points|](i requires 0 <= i < |points| => points[i]);
    assert a[..] == points;
    var lookups := Enrich(a, service);
    if lookups.Failure? {
      return Failure(lookups.error);
    }
    r := Success(Envelope(true, a[..], a.Length));
  }

  /** `POST /api/cubec-note/chapter`. */
  method GetCubecNoteChapter(title: string, disease: string, scroll: Scroll,
                             withPayload: bool, withVectors: bool)
    returns (r: Result<Envelope, Error>)
    ensures var stored := scroll(CubecNote, ChapterFilter(title, disease), withPayload, withVectors);
            && (stored.None? ==> r == Failure(StoreUnavailable))
            && (stored.Some? ==> NotesAnswer(stored.value, withVectors, r))
  {
    var items := [Item("metadata.main_category", title, "text"), Item("metadata.disease_name", disease, "text")];
    TwoItemConditions("metadata.main_category", title, "text", "metadata.disease_name", disease, "text");
    EndpointItemQualifies("metadata.main_category", title, "text");
    EndpointItemQualifies("metadata.disease_name", disease, "text");
    assert Qualifies(items[0]);
    var points :- SearchPointsByFilters(CubecNote, items, scroll, withPayload, withVectors);
    r := RespondWithNotes(points);
  }

  /** `POST /api/cubec-note/page`. */
  method GetCubecNotePage(disease: string, scroll: Scroll, withPayload: bool, withVectors: bool)
    returns (r: Result<Envelope, Error>)
    ensures var stored := scroll(CubecNote, PageFilter(disease), withPayload, withVectors);
            && (stored.None? ==> r == Failure(StoreUnavailable))
            && (stored.Some? ==> NotesAnswer(stored.value, withVectors, r))
  {
    var items := [Item("metadata.disease_name", disease, "text")];
    EndpointItemQualifies("metadata.disease_name", disease, "text");
    ConditionsSingle(items[0]);
    assert Qualifies(items[0]);
    var points :- SearchPointsByFilters(CubecNote, items, scroll, withPayload, withVectors);
    r := RespondWithNotes(points);
  }

  /** `POST /api/package-insert/chapter`: enrichment only runs when something was found. */
  method GetPackageInsertChapter(no: string, sectionTitle: string, scroll: Scroll, service: UrlService,
                                 withPayload: bool, withVectors: bool)
    returns (r: Result<Envelope, Error>)
    ensures var stored := scroll(PackageInsert, PackageChapterFilter(no, sectionTitle), withPayload, withVectors);
            && (stored.None? ==> r == Failure(StoreUnavailable))
            && (stored.Some? ==> PackageAnswer(stored.value, withVectors, service, r))
  {
    var items := [Item("package_insert_no", no, "keyword"), Item("section_title", sectionTitle, "text")];
    TwoItemConditions("package_insert_no", no, "keyword", "section_title", sectionTitle, "text");
    EndpointItemQualifies("package_insert_no", no, "keyword");
    EndpointItemQualifies("section_title", sectionTitle, "text");
    assert Qualifies(items[0]);
    var points :- SearchPointsByFilters(PackageInsert, items, scroll, withPayload, withVectors);
    if points == [] {
      assert Enriched(points, service) == [];
      return Success(Envelope(true, points, |points|));
    }
    r := RespondWithPackageInserts(points, service);
  }

  /**
   * `POST /api`: refuse an empty id list, fetch, and enrich package inserts;
   * clinical notes are returned as normalised, without the transform.
   */
  method GetPoints(request: PointRequest, retrieve: Retrieve, service: UrlService)
    returns (r: Result<Envelope, Error>)
    ensures request.pointIds == [] ==> r == Failure(EmptyPointIds)
    ensures request.pointIds != [] ==>
      var stored := retrieve(request.collection, request.pointIds, request.withPayload, request.withVectors);
      && (stored.None? ==> r == Failure(StoreUnavailable))
      && (stored.Some? && request.collection == CubecNote ==>
            r == Success(Envelope(true, NormaliseAll(stored.value, request.withVectors), |stored.value|)))
      && (stored.Some? && request.collection == PackageInsert ==>
            PackageAnswer(stored.value, request.withVectors, service, r))
  {
    if request.pointIds == [] {
      return Failure(EmptyPointIds);
    }
    var points :- GetPointsFromIds(request.pointIds, request.collection, retrieve,
                                   request.withPayload, request.withVectors);
    if request.collection == PackageInsert {
      r := RespondWithPackageInserts(points, service);
    } else {
      r := Success(Envelope(true, points, |points|));
    }
  }
}
