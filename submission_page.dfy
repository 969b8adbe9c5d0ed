/** The plan submission form: the form record edited field by field, the date input
    that also fills in the weekday, and the validated submit with its error mapping. */
module SubmissionPage {
  import opened Wrappers
  import opened Text
  import opened Http
  import opened Api
  import opened Moderation
  import Database

  const RequiredMissing := "必須項目をすべて入力してください。"
  const NotNumeric := "年齢、デート回数、費用は数値で入力してください。"
  const Weekdays := ["日", "月", "火", "水", "木", "金", "土"]

  /** `Date.prototype.getDay()`: Sunday is 0. */
  type Weekday = d: int | 0 <= d < 7

  datatype Field = Age | Occupation | Gender | Date | DayOfWeek | TimeOfDay | DateNumber | Location | Cost | AdditionalNotes

  datatype FormData = FormData(
    age: string, occupation: string, gender: string, date: string, dayOfWeek: string,
    timeOfDay: string, dateNumber: string, location: string, cost: string, additionalNotes: string)

  const EmptyForm := FormData("", "", "", "", "", "", "", "", "", "")

  function Get(f: FormData, field: Field): string {
    match field
    case Age => f.age
    case Occupation => f.occupation
    case Gender => f.gender
    case Date => f.date
    case DayOfWeek => f.dayOfWeek
    case TimeOfDay => f.timeOfDay
    case DateNumber => f.dateNumber
    case Location => f.location
    case Cost => f.cost
    case AdditionalNotes => f.additionalNotes
  }

  /** The form with one field replaced (`{...prev, [name]: value}`). */
  function Set(f: FormData, field: Field, value: string): (g: FormData)
    ensures Get(g, field) == value
    ensures forall other :: other != field ==> Get(g, other) == Get(f, other)
  {
    match field
    case Age => f.(age := value)
    case Occupation => f.(occupation := value)
    case Gender => f.(gender := value)
    case Date => f.(date := value)
    case DayOfWeek => f.(dayOfWeek := value)
    case TimeOfDay => f.(timeOfDay := value)
    case DateNumber => f.(dateNumber := value)
    case Location => f.(location := value)
    case Cost => f.(cost := value)
    case AdditionalNotes => f.(additionalNotes := value)
  }

  /** The posted JSON, read by the server as its request model. */
  function ToRequest(f: FormData): DatePlanRequest {
    DatePlanRequest(f.age, f.occupation, f.gender, f.date, f.dayOfWeek, f.timeOfDay,
                    f.dateNumber, f.location, f.cost, f.additionalNotes)
  }

  /** The position of a field among the request's values. */
  function FieldIndex(field: Field): (k: nat)
    ensures k < 10
    ensures forall f :: FieldValues(ToRequest(f))[k] == Get(f, field)
  {
    match field
    case Age => 0
    case Occupation => 1
    case Gender => 2
    case Date => 3
    case DayOfWeek => 4
    case TimeOfDay => 5
    case DateNumber => 6
    case Location => 7
    case Cost => 8
    case AdditionalNotes => 9
  }

  /** A required field is empty: every field but the notes and the weekday. */
  predicate MissingRequired(f: FormData) {
    f.age == "" || f.occupation == "" || f.gender == "" || f.date == "" || f.timeOfDay == "" ||
    f.dateNumber == "" || f.location == "" || f.cost == ""
  }

  /** The submit-time validation: required fields first, then the three numeric
      fields; `isNumeric` is the negation of JavaScript's `isNaN` on a string. */
  function Validate(f: FormData, isNumeric: string -> bool): (error: Option<string>)
    ensures error == Some(RequiredMissing) <==> MissingRequired(f)
    ensures error == Some(NotNumeric) <==>
              !MissingRequired(f) && !(isNumeric(f.age) && isNumeric(f.dateNumber) && isNumeric(f.cost))
    ensures error.None? <==>
              !MissingRequired(f) && isNumeric(f.age) && isNumeric(f.dateNumber) && isNumeric(f.cost)
  {
    if MissingRequired(f) then Some(RequiredMissing)
    else if !isNumeric(f.age) || !isNumeric(f.dateNumber) || !isNumeric(f.cost) then Some(NotNumeric)
    else None
  }

  /** The notes and the weekday play no part in validation. */
  lemma OptionalFieldsIgnored(f: FormData, field: Field, value: string, isNumeric: string -> bool)
    requires field == AdditionalNotes || field == DayOfWeek
    ensures Validate(Set(f, field, value), isNumeric) == Validate(f, isNumeric)
  {
    var g := Set(f, field, value);
    assert forall other :: other != AdditionalNotes && other != DayOfWeek ==> Get(g, other) == Get(f, other);
    assert g.age == f.age && g.occupation == f.occupation && g.gender == f.gender && g.date == f.date;
    assert g.timeOfDay == f.timeOfDay && g.dateNumber == f.dateNumber && g.location == f.location && g.cost == f.cost;
  }

  /** An NG word typed into any one field of the form is caught by the server's
      check of the whole submission. */
  lemma NgWordInAnyFieldCaught(lines: Option<seq<string>>, f: FormData, field: Field, w: string)
    requires w in LoadNgWords(lines)
    requires Contains(Get(f, field), w)
    ensures HasNgWord(LoadNgWords(lines), SubmissionText(ToRequest(f)))
  {
    var k := FieldIndex(field);
    assert Strip(Python, w) == w && w != [];
    FieldWordIsCaught(ToRequest(f), k, w);
  }

  class Page {
    var formData: FormData
    var result: Option<ScoreReply>
    var showPopup: bool
    var isLoading: bool
    var error: string

    constructor ()
      ensures formData == EmptyForm && result == None && !showPopup && !isLoading && error == ""
    {
      formData := EmptyForm;
      result := None;
      showPopup := false;
      isLoading := false;
      error := "";
    }

    /** `handleInputChange`: only the named field changes. */
    method HandleInputChange(field: Field, value: string)
      modifies this`formData
      ensures formData == Set(old(formData), field, value)
    {
      formData := Set(formData, field, value);
    }

    /** `handleDateChange`: an empty value clears the date and the weekday; a value
        that is not a date (`weekday` is None) changes nothing; otherwise the date and
        its weekday are set. */
    method HandleDateChange(value: string, weekday: Option<Weekday>)
      modifies this`formData
      ensures value == "" ==> formData == old(formData).(date := "", dayOfWeek := "")
      ensures value != "" && weekday.None? ==> formData == old(formData)
      ensures value != "" && weekday.Some? ==>
                formData == old(formData).(date := value, dayOfWeek := Weekdays[weekday.value])
    {
      if value == "" {
        formData := formData.(date := "", dayOfWeek := "");
        return;
      }
      if weekday.None? {
        return;
      }
      formData := formData.(date := value, dayOfWeek := Weekdays[weekday.value]);
    }

    /** `handleSubmit` up to its request: an invalid form shows the validation message
        and sends nothing; a valid one starts loading, clears the result and the
        error and posts the form. */
    method BeginSubmit(isNumeric: string -> bool) returns (request: Option<DatePlanRequest>)
      modifies this`error, this`isLoading, this`result
      ensures Validate(formData, isNumeric).Some? ==>
                request == None && error == Validate(formData, isNumeric).value &&
                isLoading == old(isLoading) && result == old(result)
      ensures Validate(formData, isNumeric).None? ==>
                request == Some(ToRequest(formData)) && isLoading && result == None && error == ""
    {
      var invalid := Validate(formData, isNumeric);
      if invalid.Some? {
        error := invalid.value;
        return None;
      }
      isLoading := true;
      result := None;
      error := "";
      request := Some(ToRequest(formData));
    }

    /** `handleSubmit` after its request: success stores the result and opens the
        popup; failure shows the mapped message. Loading ends on every path. */
    method CompleteSubmit(reply: Outcome<ScoreReply>)
      modifies this`result, this`showPopup, this`isLoading, this`error
      ensures !isLoading
      ensures reply.Ok? ==> result == Some(reply.body) && showPopup && error == old(error)
      ensures !reply.Ok? ==> error == FailureMessage(reply) && result == old(result) && showPopup == old(showPopup)
    {
      if reply.Ok? {
        result := Some(reply.body);
        showPopup := true;
      } else {
        error := FailureMessage(reply);
      }
      isLoading := false;
    }

    /** `handleClosePopup`. */
    method ClosePopup()
      modifies this`showPopup
      ensures !showPopup
    {
      showPopup := false;
    }
  }

  /** A valid form answered by the server: a submission containing an NG word shows
      the server's reason and stores nothing; any other is stored and its result shown,
      with the score the new plan holds once every score is recomputed. */
  method SubmitToServer(page: Page, db: Database.Db, ngWords: set<string>, isNumeric: string -> bool,
                        evaluate: string -> AiEvaluation, composite: Records.Subscores -> int,
                        rescored: map<int, int>)
    requires db.Valid() && Validate(page.formData, isNumeric).None?
    modifies page`error, page`isLoading, page`result, page`showPopup, db`plans, db`nextPlanId
    ensures db.Valid() && !page.isLoading
    ensures HasNgWord(ngWords, SubmissionText(ToRequest(page.formData))) ==>
              page.error == NgWordDetail && page.result == None && db.plans == old(db.plans)
    ensures !HasNgWord(ngWords, SubmissionText(ToRequest(page.formData))) ==>
              page.showPopup && page.result.Some? && page.error == "" && |db.plans| == |old(db.plans)| + 1
              && page.result.value.score == db.plans[|old(db.plans)|].cols.score
    ensures !HasNgWord(ngWords, SubmissionText(ToRequest(page.formData))) ==>
              var req := ToRequest(page.formData);
              var ev := evaluate(PlanText(req));
              var cols := StoredColumns(req, ev, composite(Scores(ev)));
              && |db.plans| == |old(db.plans)| + 1
              && db.plans[|old(db.plans)|] == Database.Rescored(Database.PlanRow(db.plans[|old(db.plans)|].id, cols), rescored)
              && page.result.Some?
              && page.result.value.comment == cols.comment.value
              && page.result.value.plan == PlanText(req)
              && page.result.value.detailedScores == Scores(ev)
  {
    ghost var rejected := HasNgWord(ngWords, SubmissionText(ToRequest(page.formData)));
    var request := page.BeginSubmit(isNumeric);
    var reply := ScoreDatePlan(db, ngWords, request.value, evaluate, composite, rescored);
    assert reply.HttpError? <==> rejected;
    assert reply.Ok? ==> |db.plans| == |old(db.plans)| + 1;
    if reply.HttpError? {
      NgRejectionShown(reply);
    }
    page.CompleteSubmit(ReplyOutcome(reply));
  }
}
