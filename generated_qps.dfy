/**
 * The HTTP handlers for generated question papers. A failure raised by the
 * store (connection, constraint) is not visible in the store model, so it is
 * an input: `fault` is `Some(message)` when the store call raises.
 */
module GeneratedQps {
  import opened Wrappers
  import opened Tables
  import opened Schemas
  import opened Models
  import opened Crud

  /** `get_generated_qp` fetches the page `skip=0, limit=100` and scans only that. */
  const ScanLimit: nat := 100

  const NotFoundDetail: string := "Generated QP not found"

  /** A handler's outcome: the value it returns (before `response_model` filtering), or an `HTTPException`. */
  datatype Response<T> = Success(body: T) | HttpError(statusCode: int, detail: string)

  /** POST /generated_qps/: a store failure becomes 500 carrying its message. */
  method CreateGeneratedQp(store: Store, qp: GeneratedQpCreate, now: string, fault: Option<string>)
    returns (r: Response<GeneratedQp>)
    requires store.Valid()
    modifies store
    ensures store.Valid()
    ensures fault.Some? ==> r == HttpError(500, fault.value) && store.State() == old(store.State())
    ensures fault.None? ==>
      var cols := GeneratedQpCols(qp.programId, qp.courseId, qp.assessmentType, qp.dateOfExam, qp.regulationId,
                                  qp.year, qp.semester, qp.academicYear, qp.questions,
                                  StampCreatedAt(qp.createdAt, now));
      r == Success(Row(old(store.generatedQps.nextId), cols))
      && store.State() == old(store.State()).(generatedQps := Insert(old(store.generatedQps), cols))
  {
    if fault.Some? {
      return HttpError(500, fault.value);
    }
    var row := store.CreateGeneratedQp(qp, now);
    r := Success(row);
  }

  /** GET /generated_qps/: `skip` and `limit` go straight to the paginated accessor. */
  method ListGeneratedQps(store: Store, skip: nat, limit: nat, fault: Option<string>)
    returns (r: Response<seq<GeneratedQp>>)
    ensures fault.Some? ==> r == HttpError(500, fault.value)
    ensures fault.None? ==> r == Success(Page(store.generatedQps.rows, skip, limit))
  {
    if fault.Some? {
      return HttpError(500, fault.value);
    }
    var page := store.GetGeneratedQps(skip, limit);
    r := Success(page);
  }

  /**
   * GET /generated_qps/{qp_id} as written: scan the first page for the id.
   * The 404 it raises passes through unchanged; a store failure becomes 500.
   */
  method GetGeneratedQp(store: Store, qpId: int, fault: Option<string>) returns (r: Response<GeneratedQp>)
    ensures fault.Some? ==> r == HttpError(500, fault.value)
    ensures fault.None? ==>
      var scanned := Page(store.generatedQps.rows, 0, ScanLimit);
      match IndexOf(scanned, qpId)
      case Some(k) => r == Success(scanned[k])
      case None => r == HttpError(404, NotFoundDetail)
    ensures r.Success? ==> r.body.id == qpId && r.body in store.generatedQps.rows[..Min(ScanLimit, |store.generatedQps.rows|)]
  {
    if fault.Some? {
      return HttpError(500, fault.value);
    }
    var items := store.GetGeneratedQps(0, ScanLimit);
    for i := 0 to |items|
      invariant forall j | 0 <= j < i :: items[j].id != qpId
    {
      if items[i].id == qpId {
        assert IndexOf(items, qpId) == Some(i);
        assert items[i] == store.generatedQps.rows[..Min(ScanLimit, |store.generatedQps.rows|)][i];
        return Success(items[i]);
      }
    }
    return HttpError(404, NotFoundDetail);
  }

  /**
   * A question paper stored at position 100 or later is never found by the
   * lookup, although the store holds it.
   */
  lemma ScanMissesRowsPastLimit(rows: seq<GeneratedQp>, k: nat)
    requires Increasing(rows) && ScanLimit <= k < |rows|
    ensures HasId(rows, rows[k].id)
    ensures IndexOf(Page(rows, 0, ScanLimit), rows[k].id).None?
  {
    var page := Page(rows, 0, ScanLimit);
    forall j | 0 <= j < |page| ensures page[j].id != rows[k].id {
      assert page[j] == rows[j] && j < k;
    }
  }

  /** Within the first 100 rows the scan and a keyed lookup agree. */
  lemma ScanAgreesWithinLimit(rows: seq<GeneratedQp>, qpId: int)
    requires |rows| <= ScanLimit
    ensures IndexOf(Page(rows, 0, ScanLimit), qpId) == IndexOf(rows, qpId)
  {
    assert Page(rows, 0, ScanLimit) == rows;
  }

  /** GET /generated_qps/{qp_id} by a direct keyed fetch: found exactly when stored. */
  method GetGeneratedQpByKey(store: Store, qpId: int, fault: Option<string>) returns (r: Response<GeneratedQp>)
    ensures fault.Some? ==> r == HttpError(500, fault.value)
    ensures fault.None? ==> (r.Success? <==> HasId(store.generatedQps.rows, qpId))
    ensures fault.None? && r.HttpError? ==> r == HttpError(404, NotFoundDetail)
    ensures r.Success? ==> r.body.id == qpId && r.body in store.generatedQps.rows
  {
    if fault.Some? {
      return HttpError(500, fault.value);
    }
    var found := Find(store.generatedQps.rows, qpId);
    if found.None? {
      return HttpError(404, NotFoundDetail);
    }
    r := Success(found.value);
  }
}
