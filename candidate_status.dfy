/** A recruitment candidate's pipeline status and the actions it unlocks. The status is
    stored as a plain string column, so the gating rules are stated on strings and
    related to the seven statuses the screens offer. */
module CandidateStatus {
  import opened Wrappers
  import opened JsValues

  datatype Status = New | Screening | Interview | Offer | Offered | Hired | Rejected {
    /** The stored spelling. */
    function Name(): string {
      match this
      case New => "New"
      case Screening => "Screening"
      case Interview => "Interview"
      case Offer => "Offer"
      case Offered => "Offered"
      case Hired => "Hired"
      case Rejected => "Rejected"
    }
  }

  /** The seven statuses in the order the screens list them. */
  const AllStatuses: seq<Status> := [New, Screening, Interview, Offer, Offered, Hired, Rejected]

  /** The status a stored string names, if any. */
  function ParseStatus(s: string): (r: Option<Status>)
    ensures r.Some? ==> r.value.Name() == s
  {
    if s == "New" then Some(New)
    else if s == "Screening" then Some(Screening)
    else if s == "Interview" then Some(Interview)
    else if s == "Offer" then Some(Offer)
    else if s == "Offered" then Some(Offered)
    else if s == "Hired" then Some(Hired)
    else if s == "Rejected" then Some(Rejected)
    else None
  }

  lemma ParseName(st: Status)
    ensures ParseStatus(st.Name()) == Some(st)
    ensures st in AllStatuses
  {
  }

  lemma NameInjective(a: Status, b: Status)
    ensures a.Name() == b.Name() ==> a == b
  {
    ParseName(a);
    ParseName(b);
  }

  // ---------------------------------------------------------------------------
  // Row actions and tabs.

  /** The Update Status row action: offered unless the candidate is hired or rejected. */
  predicate CanUpdateStatus(status: string) {
    !(status in ["Hired", "Rejected"])
  }

  /** The Convert to Employee row action: a hired candidate not yet converted. */
  predicate CanConvert(status: string, isEmployee: Value) {
    status == "Hired" && !Truthy(isEmployee)
  }

  /** The offer-letter tab and form of the profile page. */
  predicate OfferTabShown(status: string) {
    status in ["Offer", "Offered"]
  }

  /** On the seven statuses: Update Status is for every status but Hired and Rejected,
      conversion only for Hired, the offer tab only for Offer and Offered. */
  lemma GatesByStatus(st: Status, isEmployee: Value)
    ensures CanUpdateStatus(st.Name()) <==> st != Hired && st != Rejected
    ensures CanConvert(st.Name(), isEmployee) <==> st == Hired && !Truthy(isEmployee)
    ensures OfferTabShown(st.Name()) <==> st == Offer || st == Offered
  {
  }

  /** A candidate is never offered both Update Status and Convert to Employee, and a
      rejected one neither. */
  lemma UpdateAndConvertExclusive(status: string, isEmployee: Value)
    ensures !(CanUpdateStatus(status) && CanConvert(status, isEmployee))
    ensures status == "Rejected" ==> !CanUpdateStatus(status) && !CanConvert(status, isEmployee)
  {
  }

  /** A candidate whose offer tab is shown can still have the status updated. */
  lemma OfferTabAllowsUpdate(status: string)
    ensures OfferTabShown(status) ==> CanUpdateStatus(status)
  {
  }

  // ---------------------------------------------------------------------------
  // The status options.

  datatype SelectOption = SelectOption(value: string, caption: string)

  /** The "no filter" sentinel of the filter selects. */
  const NoFilter: string := "_empty_"

  /** The status select of the filter bar: the sentinel, then the seven statuses
      (captions are shown translated; untranslated here). */
  function StatusOptions(): (r: seq<SelectOption>)
    ensures |r| == 8 && r[0].value == NoFilter
    ensures forall i :: 1 <= i < 8 ==> r[i].value == AllStatuses[i - 1].Name()
  {
    [SelectOption(NoFilter, "All Statuses")]
    + seq(7, i requires 0 <= i < 7 => SelectOption(AllStatuses[i].Name(), AllStatuses[i].Name()))
  }

  /** `options.filter(opt => opt.value !== '_empty_')`. */
  function WithoutSentinel(options: seq<SelectOption>): (r: seq<SelectOption>)
    ensures forall o :: o in r <==> o in options && o.value != NoFilter
  {
    if options == [] then []
    else (if options[0].value != NoFilter then [options[0]] else []) + WithoutSentinel(options[1..])
  }

  /** The options of the create form's and the status modal's status select. */
  function FormStatusOptions(): seq<SelectOption> {
    WithoutSentinel(StatusOptions())
  }

  /** The forms offer exactly the seven statuses, each once, in order, and never the
      sentinel. */
  lemma FormOptionsAreTheStatuses()
    ensures |FormStatusOptions()| == 7
    ensures forall i :: 0 <= i < 7 ==> ParseStatus(FormStatusOptions()[i].value) == Some(AllStatuses[i])
    ensures forall o :: o in FormStatusOptions() ==> o.value != NoFilter
  {
    FormOptionsAreTail();
    var tail := StatusOptions()[1..];
    forall i | 0 <= i < 7 ensures ParseStatus(tail[i].value) == Some(AllStatuses[i]) {
      assert tail[i].value == AllStatuses[i].Name();
      ParseName(AllStatuses[i]);
    }
  }

  /** Dropping the sentinel leaves the seven status options behind it. */
  lemma FormOptionsAreTail()
    ensures FormStatusOptions() == StatusOptions()[1..]
  {
    var all := StatusOptions();
    var tail := all[1..];
    forall i | 0 <= i < |tail| ensures tail[i].value != NoFilter {
      NameNotSentinel(AllStatuses[i]);
    }
    KeepsAll(tail);
  }

  /** Status names start with a capital letter, the sentinel with an underscore. */
  lemma NameNotSentinel(st: Status)
    ensures st.Name() != NoFilter
  {
    assert st.Name()[0] != NoFilter[0];
  }

  /** Filtering options that contain no sentinel leaves them as they are. */
  lemma {:induction false} KeepsAll(options: seq<SelectOption>)
    requires forall i :: 0 <= i < |options| ==> options[i].value != NoFilter
    ensures WithoutSentinel(options) == options
  {
    if options != [] {
      KeepsAll(options[1..]);
    }
  }
}
