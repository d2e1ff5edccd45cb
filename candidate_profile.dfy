/** The candidate profile page: the rating stars, the job heading, the terms badge, the
    offer-letter form with its salary pre-fill and its submit label. Salaries, titles and
    the terms flag arrive as nullable strings. */
module CandidateProfile {
  import opened Wrappers
  import opened JsValues

  // ---------------------------------------------------------------------------
  // Rating.

  /** Five stars, star `i` (from 0) filled when `i < rating`. */
  function Stars(rating: int): (r: seq<bool>)
    ensures |r| == 5
    ensures forall i :: 0 <= i < 5 ==> (r[i] <==> i < rating)
  {
    seq(5, i => i < rating)
  }

  function CountFilled(stars: seq<bool>): nat {
    if stars == [] then 0 else (if stars[0] then 1 else 0) + CountFilled(stars[1..])
  }

  /** The number of filled stars is the rating, clamped to 0..5. */
  lemma FilledStars(rating: int)
    ensures CountFilled(Stars(rating)) == if rating < 0 then 0 else if rating > 5 then 5 else rating
  {
    FilledPrefix(5, rating);
  }

  /** `n` stars below a threshold `t` (star `i` filled when `i < t`) have `t`, clamped to
      0..n, filled. */
  lemma {:induction false} FilledPrefix(n: nat, t: int)
    ensures CountFilled(seq(n, i => i < t)) == if t < 0 then 0 else if t > n then n else t
  {
    if n > 0 {
      var s := seq(n, i => i < t);
      assert s[1..] == seq(n - 1, i => i < t - 1);
      FilledPrefix(n - 1, t - 1);
    }
  }

  /** What the header shows for the rating: the stars for a truthy rating, nothing for a
      missing one. */
  datatype RatingDisplay = NoRating | StrayText(text: string) | StarRow(stars: seq<bool>)

  /** The rating area as written: `{candidate.rating && ...}` renders the stars for a
      non-zero rating, nothing for a missing one, and for a rating of `0` React renders the
      number itself. */
  function RatingAreaAsWritten(rating: Option<int>): (r: RatingDisplay)
    ensures r.StarRow? <==> rating.Some? && rating.value != 0
  {
    match rating
    case None => NoRating
    case Some(n) => if n == 0 then StrayText("0") else StarRow(Stars(n))
  }

  /** A rating of zero shows a stray `0` where the stars would be. */
  lemma ZeroRatingShowsStrayZero()
    ensures RatingAreaAsWritten(Some(0)) == StrayText("0")
  {
  }

  /** The rating area as intended: stars for a non-zero rating, otherwise nothing. */
  function RatingArea(rating: Option<int>): (r: RatingDisplay)
    ensures !r.StrayText?
    ensures r.StarRow? <==> rating.Some? && rating.value != 0
    ensures r.StarRow? ==> r.stars == Stars(rating.value)
  {
    match rating
    case None => NoRating
    case Some(n) => if n == 0 then NoRating else StarRow(Stars(n))
  }

  /** The two agree everywhere except on a zero rating. */
  lemma RatingAreaAgreesOffZero(rating: Option<int>)
    ensures rating != Some(0) ==> RatingArea(rating) == RatingAreaAsWritten(rating)
  {
  }

  // ---------------------------------------------------------------------------
  // Headings and badges.

  /** The job heading: the job posting's title, else the campaign, else "General Application". */
  function JobHeading(jobTitle: Value, campaign: Value): (r: string)
    ensures Truthy(jobTitle) ==> r == ToJsString(jobTitle)
    ensures !Truthy(jobTitle) && Truthy(campaign) ==> r == ToJsString(campaign)
    ensures !Truthy(jobTitle) && !Truthy(campaign) ==> r == "General Application"
  {
    ToJsString(Or(jobTitle, Or(campaign, Str("General Application"))))
  }

  /** The terms badge: Accepted exactly when the stored checkbox value is the string `on`,
      Not Accepted for every other value. */
  function TermsBadge(termsConditionCheck: Value): (r: string)
    ensures r == "Accepted" <==> termsConditionCheck == Str("on")
    ensures r != "Accepted" ==> r == "Not Accepted"
  {
    if termsConditionCheck == Str("on") then "Accepted" else "Not Accepted"
  }

  /** An illustration of `TermsBadge`: the comparison is strict: other truthy values a checkbox might be stored as, such as
      `true` or `"1"`, read Not Accepted. */
  lemma OnlyOnIsAccepted()
    ensures TermsBadge(Bool(true)) == "Not Accepted" && TermsBadge(Str("1")) == "Not Accepted"
    ensures TermsBadge(Str("on")) == "Accepted"
  {
  }

  // ---------------------------------------------------------------------------
  // The offer-letter form.

  /** The form's fields. */
  datatype OfferData = OfferData(offerTemplateId: string, salary: Value, startDate: string, expirationDate: string, message: string)

  datatype OfferField = TemplateField | SalaryField | StartDateField | ExpirationDateField | MessageField

  /** The salary the form opens with: the final salary, else the expected one, else the
      current one, else empty. */
  function SalaryPrefill(finalSalary: Value, expectedSalary: Value, currentSalary: Value): (r: Value)
    ensures Truthy(r) <==> Truthy(finalSalary) || Truthy(expectedSalary) || Truthy(currentSalary)
    ensures !Truthy(r) ==> r == Str("")
    ensures Truthy(finalSalary) ==> r == finalSalary
    ensures !Truthy(finalSalary) && Truthy(expectedSalary) ==> r == expectedSalary
    ensures !Truthy(finalSalary) && !Truthy(expectedSalary) && Truthy(currentSalary) ==> r == currentSalary
  {
    Or(Or(Or(finalSalary, expectedSalary), currentSalary), Str(""))
  }

  /** A pre-filled salary is always one the candidate record holds. */
  lemma PrefillIsARecordedSalary(finalSalary: Value, expectedSalary: Value, currentSalary: Value)
    ensures var r := SalaryPrefill(finalSalary, expectedSalary, currentSalary);
            r == Str("") || (Truthy(r) && r in {finalSalary, expectedSalary, currentSalary})
  {
  }

  /** The form's initial data for a candidate's salaries. */
  function InitialOffer(finalSalary: Value, expectedSalary: Value, currentSalary: Value): OfferData {
    OfferData("", SalaryPrefill(finalSalary, expectedSalary, currentSalary), "", "", "")
  }

  /** `data[field]`, as the value the form holds. */
  function FieldValue(d: OfferData, field: OfferField): Value {
    match field
    case TemplateField => Str(d.offerTemplateId)
    case SalaryField => d.salary
    case StartDateField => Str(d.startDate)
    case ExpirationDateField => Str(d.expirationDate)
    case MessageField => Str(d.message)
  }

  /** Two offers holding the same value in every field are the same offer. */
  lemma FieldsDetermineOffer(a: OfferData, b: OfferData)
    requires forall g :: FieldValue(a, g) == FieldValue(b, g)
    ensures a == b
  {
    assert FieldValue(a, TemplateField) == FieldValue(b, TemplateField);
    assert FieldValue(a, StartDateField) == FieldValue(b, StartDateField);
    assert FieldValue(a, ExpirationDateField) == FieldValue(b, ExpirationDateField);
    assert FieldValue(a, MessageField) == FieldValue(b, MessageField);
    assert FieldValue(a, SalaryField) == FieldValue(b, SalaryField);
  }

  /** `setData(field, value)`: the field now holds the typed text, every other field
      what it held before. */
  function SetField(d: OfferData, field: OfferField, value: string): (r: OfferData)
    ensures FieldValue(r, field) == Str(value)
    ensures forall g :: g != field ==> FieldValue(r, g) == FieldValue(d, g)
  {
    match field
    case TemplateField => d.(offerTemplateId := value)
    case SalaryField => d.(salary := Str(value))
    case StartDateField => d.(startDate := value)
    case ExpirationDateField => d.(expirationDate := value)
    case MessageField => d.(message := value)
  }

  /** Setting a field twice keeps only the last value. */
  lemma SetFieldLastWins(d: OfferData, field: OfferField, a: string, b: string)
    ensures SetField(SetField(d, field, a), field, b) == SetField(d, field, b)
  {
  }

  /** The submit button's label: "Sending..." while the letter is being sent, the resend
      label once the candidate has an offer, the plain label before. */
  function SubmitLabel(processing: bool, offerCount: Option<nat>): (r: string)
    ensures r == "Sending..." <==> processing
    ensures r == "Offer Letter sent - Resend new offer" <==> !processing && offerCount.Some? && offerCount.value > 0
  {
    if processing then "Sending..."
    else if offerCount.Some? && offerCount.value > 0 then "Offer Letter sent - Resend new offer"
    else "Send Offer Letter"
  }

  /** The offer form of one candidate's page. */
  class OfferForm {
    var data: OfferData
    var processing: bool
    /** What `reset()` returns to: the data the form was created with. */
    const defaults: OfferData

    constructor (finalSalary: Value, expectedSalary: Value, currentSalary: Value)
      ensures data == defaults == InitialOffer(finalSalary, expectedSalary, currentSalary)
      ensures !processing
    {
      defaults := InitialOffer(finalSalary, expectedSalary, currentSalary);
      data := defaults;
      processing := false;
    }

    method SetData(field: OfferField, value: string)
      modifies this
      ensures data == SetField(old(data), field, value) && processing == old(processing)
    {
      data := SetField(data, field, value);
    }

    /** Send the letter: posts the current data; a success resets the form to its initial
        data, salary pre-fill included; a failure keeps what was typed. */
    method Send(succeeded: bool) returns (posted: OfferData)
      modifies this
      ensures posted == old(data)
      ensures data == (if succeeded then defaults else old(data))
      ensures !processing
    {
      posted := data;
      processing := true;
      if succeeded {
        data := defaults;
      }
      processing := false;
    }
  }
}
