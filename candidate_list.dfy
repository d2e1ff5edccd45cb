/** The candidates list page: its filter state with the `_empty_` "no filter" sentinel,
    the query sent when filtering, sorting or resetting, the row-action handler and the
    status-update submission. */
module CandidateList {
  import opened Wrappers
  import opened JsValues
  import opened ListControls
  import CandidateStatus

  const NoFilter: string := CandidateStatus.NoFilter

  /** The filter bar: free-text search, and status, job posting and source selects. */
  datatype Filters = Filters(search: string, status: string, jobId: string, sourceId: string)

  /** The filters the page was rendered with, as they arrive from the server (absent when
      not set). */
  datatype PageFilters = PageFilters(
    search: Value, status: Value, jobId: Value, sourceId: Value, perPage: Value,
    sortField: Option<string>, sortDirection: Option<string>)

  /** `v || fallback` for a filter value; numbers are taken in their string form. */
  function FilterText(v: Value, fallback: string): string {
    if Truthy(v) then ToJsString(v) else fallback
  }

  /** The state the page starts in: each filter as rendered, empty search and sentinel
      selects where none was set. */
  function InitialFilters(p: PageFilters): (f: Filters)
    ensures !Truthy(p.search) ==> f.search == ""
    ensures !Truthy(p.status) ==> f.status == NoFilter
    ensures !Truthy(p.jobId) ==> f.jobId == NoFilter
    ensures !Truthy(p.sourceId) ==> f.sourceId == NoFilter
    ensures Truthy(p.search) ==> f.search == ToJsString(p.search)
    ensures Truthy(p.status) ==> f.status == ToJsString(p.status)
    ensures Truthy(p.jobId) ==> f.jobId == ToJsString(p.jobId)
    ensures Truthy(p.sourceId) ==> f.sourceId == ToJsString(p.sourceId)
  {
    Filters(FilterText(p.search, ""), FilterText(p.status, NoFilter),
            FilterText(p.jobId, NoFilter), FilterText(p.sourceId, NoFilter))
  }

  /** The filters after Reset. */
  const Cleared: Filters := Filters("", NoFilter, NoFilter, NoFilter)

  predicate HasActiveFilters(f: Filters) {
    f.status != NoFilter || f.jobId != NoFilter || f.sourceId != NoFilter || f.search != ""
  }

  function ActiveFilterCount(f: Filters): (n: nat)
    ensures n <= 4
  {
    (if f.status != NoFilter then 1 else 0) + (if f.jobId != NoFilter then 1 else 0)
    + (if f.sourceId != NoFilter then 1 else 0) + (if f.search != "" then 1 else 0)
  }

  /** The badge on the filter button and the reset link agree: there is something to reset
      exactly when the count is positive. */
  lemma ActiveIffCounted(f: Filters)
    ensures HasActiveFilters(f) <==> ActiveFilterCount(f) > 0
  {
  }

  lemma ClearedHasNone()
    ensures ActiveFilterCount(Cleared) == 0 && !HasActiveFilters(Cleared)
  {
  }

  // ---------------------------------------------------------------------------
  // Query strings. A value of `undefined` is dropped from the query, so a parameter
  // that would be `undefined` is simply absent from the map.

  /** `{ page: 1, search: search || undefined, status: ..., job_id: ..., source_id: ..., per_page }`. */
  function FilterQuery(f: Filters, perPage: Value): (q: map<string, Value>)
    ensures "page" in q && q["page"] == Num(1)
    ensures "search" in q <==> f.search != ""
    ensures "status" in q <==> f.status != NoFilter
    ensures "job_id" in q <==> f.jobId != NoFilter
    ensures "source_id" in q <==> f.sourceId != NoFilter
    ensures "per_page" in q <==> perPage != Undefined
    ensures "per_page" in q ==> q["per_page"] == perPage
    ensures q.Keys <= {"page", "search", "status", "job_id", "source_id", "per_page"}
  {
    var q0 := map["page" := Num(1)];
    var q1 := if f.search != "" then q0["search" := Str(f.search)] else q0;
    var q2 := if f.status != NoFilter then q1["status" := Str(f.status)] else q1;
    var q3 := if f.jobId != NoFilter then q2["job_id" := Str(f.jobId)] else q2;
    var q4 := if f.sourceId != NoFilter then q3["source_id" := Str(f.sourceId)] else q3;
    if perPage != Undefined then q4["per_page" := perPage] else q4
  }

  /** The select filters reach the server only as real choices: the sentinel is never
      sent, and every parameter sent carries the filter's current value. */
  lemma QueryNeverCarriesSentinel(f: Filters, perPage: Value)
    ensures var q := FilterQuery(f, perPage);
      (forall k :: k in q && k in {"status", "job_id", "source_id"} ==> q[k] != Str(NoFilter)) &&
      ("search" in q ==> q["search"] == Str(f.search)) &&
      ("status" in q ==> q["status"] == Str(f.status)) &&
      ("job_id" in q ==> q["job_id"] == Str(f.jobId)) &&
      ("source_id" in q ==> q["source_id"] == Str(f.sourceId))
  {
  }

  /** The query of a header click on `field`: the filter query plus the field and the
      toggled direction. */
  function SortQuery(f: Filters, p: PageFilters, field: string): (q: map<string, Value>)
    ensures "sort_field" in q && q["sort_field"] == Str(field)
    ensures "sort_direction" in q && q["sort_direction"] == Str(NextSortDirection(p.sortField, p.sortDirection, field).Name())
    ensures forall k :: k in FilterQuery(f, p.perPage) ==> k in q && q[k] == FilterQuery(f, p.perPage)[k]
    ensures q.Keys == FilterQuery(f, p.perPage).Keys + {"sort_field", "sort_direction"}
  {
    FilterQuery(f, p.perPage)["sort_field" := Str(field)]
      ["sort_direction" := Str(NextSortDirection(p.sortField, p.sortDirection, field).Name())]
  }

  /** The query sent by Reset: page 1 and the page size. */
  function ResetQuery(perPage: Value): map<string, Value> {
    if perPage != Undefined then map["page" := Num(1), "per_page" := perPage] else map["page" := Num(1)]
  }

  /** Resetting sends the same query as filtering with everything cleared. */
  lemma ResetQueryIsClearedQuery(perPage: Value)
    ensures ResetQuery(perPage) == FilterQuery(Cleared, perPage)
  {
  }

  /** What the status modal submits: nothing at all when no status is chosen. */
  function StatusUpdateBody(formStatus: Value): (r: Option<Value>)
    ensures r.None? <==> !Truthy(formStatus)
    ensures r.Some? ==> r.value == formStatus
  {
    if !Truthy(formStatus) then None else Some(formStatus)
  }

  // ---------------------------------------------------------------------------
  // The page's state and handlers.

  datatype Candidate = Candidate(id: nat, status: string, isEmployee: Value)

  datatype FormMode = Create | Edit | View

  /** A page visit a handler starts. */
  datatype Visit =
    | NoVisit
    | ShowCandidate(candidateId: nat)
    | ConvertCandidate(candidateId: nat)
    | ListCandidates(query: map<string, Value>)

  /** A status change sent for a candidate. */
  datatype StatusChange = StatusChange(candidateId: nat, status: Value)

  class CandidatesPage {
    var filters: Filters
    var showFilters: bool
    var currentItem: Option<Candidate>
    var formMode: FormMode
    var formModalOpen: bool
    var deleteModalOpen: bool
    var statusModalOpen: bool
    var selectedStatus: string
    const page: PageFilters

    constructor (p: PageFilters)
      ensures page == p && filters == InitialFilters(p)
      ensures !showFilters && currentItem.None? && formMode == Create
      ensures !formModalOpen && !deleteModalOpen && !statusModalOpen && selectedStatus == ""
    {
      page := p;
      filters := InitialFilters(p);
      showFilters := false;
      currentItem := None;
      formMode := Create;
      formModalOpen := false;
      deleteModalOpen := false;
      statusModalOpen := false;
      selectedStatus := "";
    }

    /** Reset: clear every filter, close the filter panel and list from page one. */
    method ResetFilters() returns (visit: Visit)
      modifies this
      ensures filters == Cleared && ActiveFilterCount(filters) == 0 && !showFilters
      ensures visit == ListCandidates(ResetQuery(page.perPage))
      ensures currentItem == old(currentItem) && formMode == old(formMode)
      ensures formModalOpen == old(formModalOpen) && deleteModalOpen == old(deleteModalOpen)
      ensures statusModalOpen == old(statusModalOpen) && selectedStatus == old(selectedStatus)
    {
      filters := filters.(search := "");
      filters := filters.(status := NoFilter);
      filters := filters.(jobId := NoFilter);
      filters := filters.(sourceId := NoFilter);
      showFilters := false;
      ClearedHasNone();
      visit := ListCandidates(ResetQuery(page.perPage));
    }

    /** Apply the current filters. */
    method ApplyFilters() returns (visit: Visit)
      ensures visit == ListCandidates(FilterQuery(filters, page.perPage))
      ensures visit.query["page"] == Num(1)
    {
      visit := ListCandidates(FilterQuery(filters, page.perPage));
    }

    /** A row action on `item`: every action makes it the current item; view and convert
        visit another page, edit, delete and update-status open their dialogs. */
    method HandleAction(action: string, item: Candidate) returns (visit: Visit)
      modifies this
      ensures currentItem == Some(item) && filters == old(filters) && showFilters == old(showFilters)
      ensures visit == (if action == "view" then ShowCandidate(item.id)
                        else if action == "convert-to-employee" then ConvertCandidate(item.id)
                        else NoVisit)
      ensures formMode == (if action == "edit" then Edit else old(formMode))
      ensures formModalOpen == (action == "edit" || old(formModalOpen))
      ensures deleteModalOpen == (action == "delete" || old(deleteModalOpen))
      ensures statusModalOpen == (action == "update-status" || old(statusModalOpen))
      ensures selectedStatus == (if action == "update-status" then item.status else old(selectedStatus))
    {
      currentItem := Some(item);
      visit := NoVisit;
      if action == "view" {
        visit := ShowCandidate(item.id);
      } else if action == "edit" {
        formMode := Edit;
        formModalOpen := true;
      } else if action == "delete" {
        deleteModalOpen := true;
      } else if action == "update-status" {
        currentItem := Some(item);
        selectedStatus := item.status;
        statusModalOpen := true;
      } else if action == "convert-to-employee" {
        visit := ConvertCandidate(item.id);
      }
    }

    /** Submit the status modal. A chosen status is sent for the current item and, once
        the server accepts it (`succeeded`), the modal closes; an empty choice sends
        nothing and changes nothing. */
    method SubmitStatus(formStatus: Value, succeeded: bool) returns (sent: Option<StatusChange>)
      requires Truthy(formStatus) ==> currentItem.Some?
      modifies this
      ensures sent.None? <==> StatusUpdateBody(formStatus).None?
      ensures sent.Some? ==> currentItem.Some? && sent.value == StatusChange(currentItem.value.id, formStatus)
      ensures statusModalOpen == (old(statusModalOpen) && !(sent.Some? && succeeded))
      ensures filters == old(filters) && currentItem == old(currentItem) && selectedStatus == old(selectedStatus)
      ensures formModalOpen == old(formModalOpen) && deleteModalOpen == old(deleteModalOpen)
      ensures showFilters == old(showFilters) && formMode == old(formMode)
    {
      var body := StatusUpdateBody(formStatus);
      if body.None? {
        return None;
      }
      sent := Some(StatusChange(currentItem.value.id, body.value));
      if succeeded {
        statusModalOpen := false;
      }
    }
  }
}
