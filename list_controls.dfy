/** Two small rules that several list and detail screens share: the sort-direction
    toggle of a sortable column header and the predicted status of a status toggle. */
module ListControls {
  import opened Wrappers

  datatype Direction = Asc | Desc {
    /** The query-string spelling of the direction. */
    function Name(): string {
      match this
      case Asc => "asc"
      case Desc => "desc"
    }
  }

  /** The direction requested when the header of `field` is clicked, given the sort field
      and direction the page was rendered with (both absent on an unsorted page). */
  function NextSortDirection(sortField: Option<string>, sortDirection: Option<string>, field: string): (r: Direction)
    ensures r == Desc <==> sortField == Some(field) && sortDirection == Some("asc")
  {
    if sortField == Some(field) && sortDirection == Some("asc") then Desc else Asc
  }

  /** Clicking the same column twice in a row flips the direction each time. */
  lemma RepeatedClickAlternates(sortField: Option<string>, sortDirection: Option<string>, field: string)
    ensures var first := NextSortDirection(sortField, sortDirection, field);
            NextSortDirection(Some(field), Some(first.Name()), field) != first
  {
  }

  /** The status a toggle is expected to produce: `inactive` for `active`, `active` for anything else. */
  function ToggledStatus(status: string): (r: string)
    ensures r == "inactive" <==> status == "active"
    ensures r == "active" || r == "inactive"
  {
    if status == "active" then "inactive" else "active"
  }

  /** On the two real statuses the toggle is an involution. */
  lemma ToggleTwiceRestores(status: string)
    requires status == "active" || status == "inactive"
    ensures ToggledStatus(ToggledStatus(status)) == status
  {
  }
}
