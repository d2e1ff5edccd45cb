/** The history tab of the employee profile: the per-employee lifecycle records
    (joining, awards, promotions, transfers, warnings, complaints, resignations,
    terminations, asset assignments, trainings) are turned into one list of events,
    built collection by collection and then sorted by date, newest first, with a
    stable sort. Dates are whole days. */
module EmployeeTimeline {
  import opened Wrappers
  import opened Strings

  type Day = int

  datatype Award = Award(id: nat, awardDate: Day, gift: string)

  /** A promotion or a transfer: its own date when recorded, else the effective date. */
  datatype Change = Change(id: nat, changeDate: Option<Day>, effectiveDate: Day, reason: string, status: string)

  /** A warning, complaint, resignation or termination: a dated entry with a subject or reason. */
  datatype Filing = Filing(id: nat, date: Day, text: string, status: string)

  datatype AssetAssignment = AssetAssignment(id: nat, checkoutDate: Day, checkinDate: Option<Day>, assetName: string)

  datatype Training = Training(id: nat, assignedDate: Day, completionDate: Option<Day>, programTitle: string, status: string)

  /** The employee's records as the profile page receives them; a missing collection is empty. */
  datatype History = History(
    dateOfJoining: Option<Day>,
    awards: seq<Award>,
    promotions: seq<Change>,
    transfers: seq<Change>,
    warnings: seq<Filing>,
    complaints: seq<Filing>,
    resignations: seq<Filing>,
    terminations: seq<Filing>,
    assetAssignments: seq<AssetAssignment>,
    trainings: seq<Training>)

  /** The kinds of event that come from a record with its own id. */
  datatype EventKind =
    | AwardEvent | Promotion | Transfer | Warning | Complaint | Resignation | Termination
    | AssetCheckout | AssetCheckin | TrainingAssigned | TrainingCompleted

  /** The identity of an event: the single joining event, or a kind and the id of its record. */
  datatype EventId = Joined | Keyed(kind: EventKind, sourceId: nat)

  datatype Event = Event(id: EventId, date: Day, title: string, description: string, status: Option<string>)

  /** Position of a kind's block in the assembled list (the joining event is block 0). */
  function KindRank(k: EventKind): nat {
    match k
    case AwardEvent => 1
    case Promotion => 2
    case Transfer => 3
    case Warning => 4
    case Complaint => 5
    case Resignation => 6
    case Termination => 7
    case AssetCheckout => 8
    case AssetCheckin => 9
    case TrainingAssigned => 10
    case TrainingCompleted => 11
  }

  function Rank(id: EventId): nat {
    match id
    case Joined => 0
    case Keyed(k, _) => KindRank(k)
  }

  /** The text before `-<id>` in an event id. */
  function KindName(k: EventKind): string {
    match k
    case AwardEvent => "award"
    case Promotion => "promotion"
    case Transfer => "transfer"
    case Warning => "warning"
    case Complaint => "complaint"
    case Resignation => "resignation"
    case Termination => "termination"
    case AssetCheckout => "asset-checkout"
    case AssetCheckin => "asset-checkin"
    case TrainingAssigned => "training-assigned"
    case TrainingCompleted => "training-completed"
  }

  /** The `id` string of an event: `onboarding`, or `<kind>-<record id>` such as `award-7`. */
  function IdString(id: EventId): string {
    match id
    case Joined => "onboarding"
    case Keyed(k, n) => KindName(k) + "-" + NatToString(n)
  }

  // ---------------------------------------------------------------------------
  // Assembly, in the order the page builds it.

  function Text(s: string, fallback: string): string {
    if s != "" then s else fallback
  }

  function JoiningEvents(h: History): seq<Event> {
    match h.dateOfJoining
    case Some(d) => [Event(Joined, d, "Employee Joined", "Official onboarding and joining of the company", None)]
    case None => []
  }

  function AwardToEvent(a: Award): Event {
    Event(Keyed(AwardEvent, a.id), a.awardDate, "Award Received",
          if a.gift != "" then "Received: " + a.gift else "Employee received an award", None)
  }

  /** The date a promotion or transfer is shown at. */
  function ChangeDate(c: Change): Day {
    c.changeDate.GetOr(c.effectiveDate)
  }

  function PromotionToEvent(c: Change): Event {
    Event(Keyed(Promotion, c.id), ChangeDate(c), "Promotion", Text(c.reason, "Employee was promoted"), Some(c.status))
  }

  function TransferToEvent(c: Change): Event {
    Event(Keyed(Transfer, c.id), ChangeDate(c), "Department Transfer",
          Text(c.reason, "Employee transferred to another department/branch"), Some(c.status))
  }

  function FilingToEvent(k: EventKind, f: Filing): Event {
    var (title, fallback) :=
      match k
      case Warning => ("Warning Issued", "Formal warning issued")
      case Complaint => ("Complaint Recorded", "A complaint was recorded")
      case Resignation => ("Resignation Submitted", "Employee submitted resignation")
      case _ => ("Termination", "Employee termination");
    Event(Keyed(k, f.id), f.date, title, Text(f.text, fallback), Some(f.status))
  }

  function CheckoutToEvent(a: AssetAssignment): Event {
    Event(Keyed(AssetCheckout, a.id), a.checkoutDate, "Asset Assigned", "Asset: " + Text(a.assetName, "Unknown"), None)
  }

  function CheckinToEvent(a: AssetAssignment): Event
    requires a.checkinDate.Some?
  {
    Event(Keyed(AssetCheckin, a.id), a.checkinDate.value, "Asset Returned", "Asset: " + Text(a.assetName, "Unknown"), None)
  }

  function AssignedToEvent(t: Training): Event {
    Event(Keyed(TrainingAssigned, t.id), t.assignedDate, "Training Assigned",
          "Program: " + Text(t.programTitle, "Unknown"), Some(t.status))
  }

  function CompletedToEvent(t: Training): Event
    requires t.completionDate.Some?
  {
    Event(Keyed(TrainingCompleted, t.id), t.completionDate.value, "Training Completed",
          "Program: " + Text(t.programTitle, "Unknown"), Some(t.status))
  }

  /** `records.map(f)`. */
  function MapEvents<T>(records: seq<T>, f: T -> Event): (r: seq<Event>)
    ensures |r| == |records|
    ensures forall i :: 0 <= i < |records| ==> r[i] == f(records[i])
  {
    seq(|records|, i requires 0 <= i < |records| => f(records[i]))
  }

  /** Checkout events for every assignment. */
  function CheckoutEvents(assets: seq<AssetAssignment>): seq<Event> {
    MapEvents(assets, CheckoutToEvent)
  }

  /** `assets.filter(a => a.checkin_date).map(...)`. */
  function CheckinEvents(assets: seq<AssetAssignment>): seq<Event> {
    if assets == [] then []
    else (if assets[0].checkinDate.Some? then [CheckinToEvent(assets[0])] else []) + CheckinEvents(assets[1..])
  }

  function AssignedEvents(trainings: seq<Training>): seq<Event> {
    MapEvents(trainings, AssignedToEvent)
  }

  /** `trainings.filter(t => t.completion_date).map(...)`. */
  function CompletedEvents(trainings: seq<Training>): seq<Event> {
    if trainings == [] then []
    else (if trainings[0].completionDate.Some? then [CompletedToEvent(trainings[0])] else []) + CompletedEvents(trainings[1..])
  }

  function FilingEvents(k: EventKind, filings: seq<Filing>): seq<Event> {
    MapEvents(filings, (f: Filing) => FilingToEvent(k, f))
  }

  /** The list before sorting: one block per collection, in the page's order. */
  function Assembled(h: History): seq<Event> {
    JoiningEvents(h)
    + (MapEvents(h.awards, AwardToEvent)
    + (CareerEvents(h)
    + (FilingBlocks(h)
    + (AssetEvents(h)
    + TrainingEvents(h)))))
  }

  function CareerEvents(h: History): seq<Event> {
    MapEvents(h.promotions, PromotionToEvent) + MapEvents(h.transfers, TransferToEvent)
  }

  function FilingBlocks(h: History): seq<Event> {
    FilingEvents(Warning, h.warnings)
    + (FilingEvents(Complaint, h.complaints)
    + (FilingEvents(Resignation, h.resignations)
    + FilingEvents(Termination, h.terminations)))
  }

  function AssetEvents(h: History): seq<Event> {
    CheckoutEvents(h.assetAssignments) + CheckinEvents(h.assetAssignments)
  }

  function TrainingEvents(h: History): seq<Event> {
    AssignedEvents(h.trainings) + CompletedEvents(h.trainings)
  }

  // ---------------------------------------------------------------------------
  // The stable sort by date, newest first (`(a, b) => date(b) - date(a)`).

  /** Places `x` in front of the first event of `t` that is not newer than it. */
  function Insert(x: Event, t: seq<Event>): seq<Event> {
    if t == [] || x.date >= t[0].date then [x] + t else [t[0]] + Insert(x, t[1..])
  }

  function SortByDateDesc(s: seq<Event>): seq<Event> {
    if s == [] then [] else Insert(s[0], SortByDateDesc(s[1..]))
  }

  /** The history tab's list. */
  function Timeline(h: History): seq<Event> {
    SortByDateDesc(Assembled(h))
  }

  ghost predicate SortedDesc(s: seq<Event>) {
    forall i, j :: 0 <= i < j < |s| ==> s[i].date >= s[j].date
  }

  /** The events of `s` dated `d`, in their order in `s`. */
  function OnDay(s: seq<Event>, d: Day): seq<Event> {
    if s == [] then [] else (if s[0].date == d then [s[0]] else []) + OnDay(s[1..], d)
  }

  lemma {:induction false} InsertPermutes(x: Event, t: seq<Event>)
    ensures multiset(Insert(x, t)) == multiset(t) + multiset{x}
  {
    if t != [] && x.date < t[0].date {
      InsertPermutes(x, t[1..]);
      assert t == [t[0]] + t[1..];
    }
  }

  lemma {:induction false} InsertSorted(x: Event, t: seq<Event>)
    requires SortedDesc(t)
    ensures SortedDesc(Insert(x, t))
  {
    if t != [] && x.date < t[0].date {
      var rest := Insert(x, t[1..]);
      InsertSorted(x, t[1..]);
      InsertPermutes(x, t[1..]);
      forall j | 0 <= j < |rest| ensures t[0].date >= rest[j].date {
        assert rest[j] in multiset(rest);
        assert rest[j] == x || rest[j] in t[1..];
      }
    }
  }

  lemma {:induction false} InsertOnDay(x: Event, t: seq<Event>, d: Day)
    ensures OnDay(Insert(x, t), d) == (if x.date == d then [x] else []) + OnDay(t, d)
  {
    if t == [] || x.date >= t[0].date {
      assert Insert(x, t) == [x] + t;
      assert ([x] + t)[1..] == t;
    } else {
      var rest := Insert(x, t[1..]);
      InsertOnDay(x, t[1..], d);
      assert Insert(x, t) == [t[0]] + rest;
      assert ([t[0]] + rest)[1..] == rest;
      var here := if t[0].date == d then [t[0]] else [];
      assert OnDay(Insert(x, t), d) == here + OnDay(rest, d);
      assert OnDay(t, d) == here + OnDay(t[1..], d);
      // `x` is dated before `t[0]`, so at most one of the two is on day `d`.
      assert x.date == d ==> here == [];
    }
  }

  lemma {:induction false} SortFacts(s: seq<Event>)
    ensures SortedDesc(SortByDateDesc(s))
    ensures multiset(SortByDateDesc(s)) == multiset(s)
  {
    if s != [] {
      SortFacts(s[1..]);
      InsertSorted(s[0], SortByDateDesc(s[1..]));
      InsertPermutes(s[0], SortByDateDesc(s[1..]));
      assert s == [s[0]] + s[1..];
    }
  }

  lemma {:induction false} SortKeepsDayOrder(s: seq<Event>, d: Day)
    ensures OnDay(SortByDateDesc(s), d) == OnDay(s, d)
  {
    if s != [] {
      SortKeepsDayOrder(s[1..], d);
      SortFacts(s[1..]);
      InsertOnDay(s[0], SortByDateDesc(s[1..]), d);
    }
  }

  /** The history is newest first. */
  lemma TimelineSorted(h: History)
    ensures forall i, j :: 0 <= i < j < |Timeline(h)| ==> Timeline(h)[i].date >= Timeline(h)[j].date
  {
    SortFacts(Assembled(h));
  }

  /** Sorting neither drops nor duplicates an event. */
  lemma TimelinePermutes(h: History)
    ensures multiset(Timeline(h)) == multiset(Assembled(h))
  {
    SortFacts(Assembled(h));
  }

  /** Events of the same day stay in the order they were built in: joining, awards, promotions,
      transfers, warnings, complaints, resignations, terminations, asset checkouts, asset
      returns, trainings assigned, trainings completed. */
  lemma TimelineKeepsBuildOrder(h: History, d: Day)
    ensures OnDay(Timeline(h), d) == OnDay(Assembled(h), d)
  {
    SortKeepsDayOrder(Assembled(h), d);
  }

  // ---------------------------------------------------------------------------
  // How many events there are.

  function Returned(assets: seq<AssetAssignment>): nat {
    if assets == [] then 0 else (if assets[0].checkinDate.Some? then 1 else 0) + Returned(assets[1..])
  }

  function Completed(trainings: seq<Training>): nat {
    if trainings == [] then 0 else (if trainings[0].completionDate.Some? then 1 else 0) + Completed(trainings[1..])
  }

  lemma {:induction false} CheckinCount(assets: seq<AssetAssignment>)
    ensures |CheckinEvents(assets)| == Returned(assets)
  {
    if assets != [] {
      CheckinCount(assets[1..]);
    }
  }

  lemma {:induction false} CompletedCount(trainings: seq<Training>)
    ensures |CompletedEvents(trainings)| == Completed(trainings)
  {
    if trainings != [] {
      CompletedCount(trainings[1..]);
    }
  }

  /** One event for the joining date when set, one per award, promotion, transfer, warning,
      complaint, resignation and termination, one or two per asset assignment (checkout, and
      return when checked in), one or two per training (assigned, and completed when finished). */
  lemma TimelineCount(h: History)
    ensures |Timeline(h)| ==
      (if h.dateOfJoining.Some? then 1 else 0)
      + |h.awards| + |h.promotions| + |h.transfers| + |h.warnings| + |h.complaints|
      + |h.resignations| + |h.terminations|
      + |h.assetAssignments| + Returned(h.assetAssignments)
      + |h.trainings| + Completed(h.trainings)
  {
    TimelinePermutes(h);
    assert |Timeline(h)| == |multiset(Timeline(h))| == |Assembled(h)|;
    CheckinCount(h.assetAssignments);
    CompletedCount(h.trainings);
  }

  /** Every promotion and every transfer is on the timeline at its own date when recorded,
      otherwise at its effective date. */
  lemma ChangeShownAtItsDate(h: History, c: Change)
    ensures c in h.promotions ==>
      exists e :: e in Timeline(h) && e.id == Keyed(Promotion, c.id) &&
                  e.date == (if c.changeDate.Some? then c.changeDate.value else c.effectiveDate)
    ensures c in h.transfers ==>
      exists e :: e in Timeline(h) && e.id == Keyed(Transfer, c.id) &&
                  e.date == (if c.changeDate.Some? then c.changeDate.value else c.effectiveDate)
  {
    if c in h.promotions {
      var i :| 0 <= i < |h.promotions| && h.promotions[i] == c;
      var e := MapEvents(h.promotions, PromotionToEvent)[i];
      assert e in CareerEvents(h);
      CareerInAssembled(h, e);
      AssembledInTimeline(h, e);
    }
    if c in h.transfers {
      var i :| 0 <= i < |h.transfers| && h.transfers[i] == c;
      var e := MapEvents(h.transfers, TransferToEvent)[i];
      assert e in CareerEvents(h);
      CareerInAssembled(h, e);
      AssembledInTimeline(h, e);
    }
  }

  lemma AssembledInTimeline(h: History, e: Event)
    requires e in Assembled(h)
    ensures e in Timeline(h)
  {
    TimelinePermutes(h);
    assert e in multiset(Assembled(h));
  }

  lemma CareerInAssembled(h: History, e: Event)
    requires e in CareerEvents(h)
    ensures e in Assembled(h)
  {
    var tail := CareerEvents(h) + (FilingBlocks(h) + (AssetEvents(h) + TrainingEvents(h)));
    assert e in tail;
    assert e in MapEvents(h.awards, AwardToEvent) + tail;
  }

  // ---------------------------------------------------------------------------
  // Event ids are unique when record ids are unique within each collection.

  ghost predicate UniqueBy<T>(records: seq<T>, idOf: T -> nat) {
    forall i, j :: 0 <= i < j < |records| ==> idOf(records[i]) != idOf(records[j])
  }

  ghost predicate DistinctIds(s: seq<Event>) {
    forall i, j :: 0 <= i < j < |s| ==> s[i].id != s[j].id
  }

  /** Every event of `s` belongs to block `r` or a later one. */
  ghost predicate RanksFrom(s: seq<Event>, r: nat) {
    forall e :: e in s ==> Rank(e.id) >= r
  }

  /** Every event of `s` belongs to a block from `lo` to `hi`. */
  ghost predicate RanksWithin(s: seq<Event>, lo: nat, hi: nat) {
    forall e :: e in s ==> lo <= Rank(e.id) <= hi
  }

  /** Record ids are unique within each of the employee's collections. */
  ghost predicate RecordIdsUnique(h: History) {
    && UniqueBy(h.awards, (a: Award) => a.id)
    && UniqueBy(h.promotions, (c: Change) => c.id)
    && UniqueBy(h.transfers, (c: Change) => c.id)
    && UniqueBy(h.warnings, (f: Filing) => f.id)
    && UniqueBy(h.complaints, (f: Filing) => f.id)
    && UniqueBy(h.resignations, (f: Filing) => f.id)
    && UniqueBy(h.terminations, (f: Filing) => f.id)
    && UniqueBy(h.assetAssignments, (a: AssetAssignment) => a.id)
    && UniqueBy(h.trainings, (t: Training) => t.id)
  }

  lemma MappedIds<T>(records: seq<T>, f: T -> Event, idOf: T -> nat, k: EventKind)
    requires forall r :: f(r).id == Keyed(k, idOf(r))
    requires UniqueBy(records, idOf)
    ensures DistinctIds(MapEvents(records, f))
    ensures RanksWithin(MapEvents(records, f), KindRank(k), KindRank(k))
  {
  }

  lemma {:induction false} CheckinIds(assets: seq<AssetAssignment>)
    requires UniqueBy(assets, (a: AssetAssignment) => a.id)
    ensures DistinctIds(CheckinEvents(assets))
    ensures forall e :: e in CheckinEvents(assets) ==>
      exists a :: a in assets && e.id == Keyed(AssetCheckin, a.id)
  {
    if assets != [] {
      var rest := assets[1..];
      assert UniqueBy(rest, (a: AssetAssignment) => a.id) by {
        forall i, j | 0 <= i < j < |rest| ensures rest[i].id != rest[j].id {
          assert rest[i] == assets[i + 1] && rest[j] == assets[j + 1];
        }
      }
      CheckinIds(rest);
      forall e | e in CheckinEvents(rest) ensures e.id != Keyed(AssetCheckin, assets[0].id) {
        var a :| a in rest && e.id == Keyed(AssetCheckin, a.id);
        var j :| 0 <= j < |rest| && rest[j] == a;
        assert assets[j + 1] == a;
      }
    }
  }

  lemma {:induction false} CompletedIds(trainings: seq<Training>)
    requires UniqueBy(trainings, (t: Training) => t.id)
    ensures DistinctIds(CompletedEvents(trainings))
    ensures forall e :: e in CompletedEvents(trainings) ==>
      exists t :: t in trainings && e.id == Keyed(TrainingCompleted, t.id)
  {
    if trainings != [] {
      var rest := trainings[1..];
      assert UniqueBy(rest, (t: Training) => t.id) by {
        forall i, j | 0 <= i < j < |rest| ensures rest[i].id != rest[j].id {
          assert rest[i] == trainings[i + 1] && rest[j] == trainings[j + 1];
        }
      }
      CompletedIds(rest);
      forall e | e in CompletedEvents(rest) ensures e.id != Keyed(TrainingCompleted, trainings[0].id) {
        var t :| t in rest && e.id == Keyed(TrainingCompleted, t.id);
        var j :| 0 <= j < |rest| && rest[j] == t;
        assert trainings[j + 1] == t;
      }
    }
  }

  /** Putting blocks `lo..hi` before blocks after `hi` keeps ids distinct. */
  lemma Prepend(a: seq<Event>, b: seq<Event>, lo: nat, hi: nat)
    requires DistinctIds(a) && DistinctIds(b)
    requires lo <= hi && RanksWithin(a, lo, hi) && RanksFrom(b, hi + 1)
    ensures DistinctIds(a + b) && RanksFrom(a + b, lo)
  {
    forall i, j | 0 <= i < j < |a + b| ensures (a + b)[i].id != (a + b)[j].id {
      if j >= |a| && i < |a| {
        assert (a + b)[i] in a && (a + b)[j] in b;
      }
    }
  }

  /** Two adjacent groups of blocks form one group. */
  lemma Join(a: seq<Event>, b: seq<Event>, lo: nat, mid: nat, hi: nat)
    requires DistinctIds(a) && DistinctIds(b)
    requires lo <= mid < hi && RanksWithin(a, lo, mid) && RanksWithin(b, mid + 1, hi)
    ensures DistinctIds(a + b) && RanksWithin(a + b, lo, hi)
  {
    Prepend(a, b, lo, mid);
  }

  lemma CareerIdsDistinct(h: History)
    requires RecordIdsUnique(h)
    ensures DistinctIds(CareerEvents(h)) && RanksWithin(CareerEvents(h), 2, 3)
  {
    MappedIds(h.promotions, PromotionToEvent, (c: Change) => c.id, Promotion);
    MappedIds(h.transfers, TransferToEvent, (c: Change) => c.id, Transfer);
    Join(MapEvents(h.promotions, PromotionToEvent), MapEvents(h.transfers, TransferToEvent), 2, 2, 3);
  }

  lemma FilingIdsDistinct(h: History)
    requires RecordIdsUnique(h)
    ensures DistinctIds(FilingBlocks(h)) && RanksWithin(FilingBlocks(h), 4, 7)
  {
    var w, c := FilingEvents(Warning, h.warnings), FilingEvents(Complaint, h.complaints);
    var r, t := FilingEvents(Resignation, h.resignations), FilingEvents(Termination, h.terminations);
    MappedIds(h.warnings, (f: Filing) => FilingToEvent(Warning, f), (f: Filing) => f.id, Warning);
    MappedIds(h.complaints, (f: Filing) => FilingToEvent(Complaint, f), (f: Filing) => f.id, Complaint);
    MappedIds(h.resignations, (f: Filing) => FilingToEvent(Resignation, f), (f: Filing) => f.id, Resignation);
    MappedIds(h.terminations, (f: Filing) => FilingToEvent(Termination, f), (f: Filing) => f.id, Termination);
    Join(r, t, 6, 6, 7);
    Join(c, r + t, 5, 5, 7);
    Join(w, c + (r + t), 4, 4, 7);
  }

  lemma AssetIdsDistinct(h: History)
    requires RecordIdsUnique(h)
    ensures DistinctIds(AssetEvents(h)) && RanksWithin(AssetEvents(h), 8, 9)
  {
    MappedIds(h.assetAssignments, CheckoutToEvent, (a: AssetAssignment) => a.id, AssetCheckout);
    CheckinIds(h.assetAssignments);
    Join(CheckoutEvents(h.assetAssignments), CheckinEvents(h.assetAssignments), 8, 8, 9);
  }

  lemma TrainingIdsDistinct(h: History)
    requires RecordIdsUnique(h)
    ensures DistinctIds(TrainingEvents(h)) && RanksWithin(TrainingEvents(h), 10, 11)
  {
    MappedIds(h.trainings, AssignedToEvent, (t: Training) => t.id, TrainingAssigned);
    CompletedIds(h.trainings);
    Join(AssignedEvents(h.trainings), CompletedEvents(h.trainings), 10, 10, 11);
  }

  lemma AssembledIdsDistinct(h: History)
    requires RecordIdsUnique(h)
    ensures DistinctIds(Assembled(h))
  {
    var awards := MapEvents(h.awards, AwardToEvent);
    MappedIds(h.awards, AwardToEvent, (a: Award) => a.id, AwardEvent);
    CareerIdsDistinct(h);
    FilingIdsDistinct(h);
    AssetIdsDistinct(h);
    TrainingIdsDistinct(h);
    var t := TrainingEvents(h);
    var s := AssetEvents(h) + t;
    Join(AssetEvents(h), t, 8, 9, 11);
    Join(FilingBlocks(h), s, 4, 7, 11);
    Join(CareerEvents(h), FilingBlocks(h) + s, 2, 3, 11);
    Join(awards, CareerEvents(h) + (FilingBlocks(h) + s), 1, 1, 11);
    Join(JoiningEvents(h), awards + (CareerEvents(h) + (FilingBlocks(h) + s)), 0, 0, 11);
  }

  lemma {:induction false} InsertDistinct(x: Event, t: seq<Event>)
    requires DistinctIds(t)
    requires forall y :: y in t ==> y.id != x.id
    ensures DistinctIds(Insert(x, t))
  {
    if t != [] && x.date < t[0].date {
      var rest := Insert(x, t[1..]);
      InsertDistinct(x, t[1..]);
      InsertPermutes(x, t[1..]);
      forall j | 0 <= j < |rest| ensures t[0].id != rest[j].id {
        assert rest[j] in multiset(rest);
        assert rest[j] == x || rest[j] in t[1..];
      }
      assert Insert(x, t) == [t[0]] + rest;
    }
  }

  lemma {:induction false} SortDistinct(s: seq<Event>)
    requires DistinctIds(s)
    ensures DistinctIds(SortByDateDesc(s))
  {
    if s != [] {
      var sorted := SortByDateDesc(s[1..]);
      SortDistinct(s[1..]);
      SortFacts(s[1..]);
      forall y | y in sorted ensures y.id != s[0].id {
        assert y in multiset(s[1..]);
        var j :| 0 <= j < |s[1..]| && s[1..][j] == y;
        assert s[j + 1] == y;
      }
      InsertDistinct(s[0], sorted);
    }
  }

  /** The last position of `c` in `s`. */
  function LastIndexOf(s: string, c: char): (r: Option<nat>)
    ensures r.Some? ==> r.value < |s| && s[r.value] == c
  {
    if s == [] then None
    else if s[|s| - 1] == c then Some(|s| - 1)
    else LastIndexOf(s[..|s| - 1], c)
  }

  function KindFromName(name: string): Option<EventKind> {
    if name == "award" then Some(AwardEvent)
    else if name == "promotion" then Some(Promotion)
    else if name == "transfer" then Some(Transfer)
    else if name == "warning" then Some(Warning)
    else if name == "complaint" then Some(Complaint)
    else if name == "resignation" then Some(Resignation)
    else if name == "termination" then Some(Termination)
    else if name == "asset-checkout" then Some(AssetCheckout)
    else if name == "asset-checkin" then Some(AssetCheckin)
    else if name == "training-assigned" then Some(TrainingAssigned)
    else if name == "training-completed" then Some(TrainingCompleted)
    else None
  }

  /** Reads an event id string back: the text after the last `-` is the record id. */
  function ParseEventId(s: string): Option<EventId> {
    if s == "onboarding" then Some(Joined)
    else match LastIndexOf(s, '-')
      case None => None
      case Some(i) =>
        match (KindFromName(s[..i]), ParseNat(s[i + 1..]))
        case (Some(k), Some(n)) => Some(Keyed(k, n))
        case _ => None
  }

  lemma {:induction false} LastDash(head: string, digits: string)
    requires forall i :: 0 <= i < |digits| ==> IsDigit(digits[i])
    ensures LastIndexOf(head + "-" + digits, '-') == Some(|head|)
    decreases |digits|
  {
    var s := head + "-" + digits;
    if digits != [] {
      assert IsDigit(digits[|digits| - 1]);
      assert s[..|s| - 1] == head + "-" + digits[..|digits| - 1];
      LastDash(head, digits[..|digits| - 1]);
    }
  }

  lemma ParseIdString(id: EventId)
    ensures ParseEventId(IdString(id)) == Some(id)
  {
    if id.Keyed? {
      var name, digits := KindName(id.kind), NatToString(id.sourceId);
      var s := IdString(id);
      assert s == name + "-" + digits;
      assert s != "onboarding" by {
        assert s[|s| - 1] == digits[|digits| - 1];
      }
      LastDash(name, digits);
      assert s[..|name|] == name;
      assert s[|name| + 1..] == digits;
      KindNameRoundTrip(id.kind);
      ParseNatToString(id.sourceId);
    }
  }

  lemma KindNameRoundTrip(k: EventKind)
    ensures KindFromName(KindName(k)) == Some(k)
  {
  }

  /** Distinct event identities never share an id string. */
  lemma IdStringInjective(a: EventId, b: EventId)
    ensures IdString(a) == IdString(b) ==> a == b
  {
    ParseIdString(a);
    ParseIdString(b);
  }

  /** When record ids are unique within each collection, no two events on the timeline
      have the same id string. */
  lemma TimelineIdsUnique(h: History)
    requires RecordIdsUnique(h)
    ensures forall i, j :: 0 <= i < j < |Timeline(h)| ==> IdString(Timeline(h)[i].id) != IdString(Timeline(h)[j].id)
  {
    AssembledIdsDistinct(h);
    SortDistinct(Assembled(h));
    forall i, j | 0 <= i < j < |Timeline(h)|
      ensures IdString(Timeline(h)[i].id) != IdString(Timeline(h)[j].id)
    {
      IdStringInjective(Timeline(h)[i].id, Timeline(h)[j].id);
    }
  }
}
