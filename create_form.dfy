/**
 * The campaign creation form (`CreatePage`): its dimension editor keeps between two and ten
 * entries, `validate` records one message per failed rule, and a submission converts the
 * deadline to epoch seconds and calls the registry client only for a connected wallet and a
 * valid form. The date parser and the clock are parameters.
 */
module CreateForm {
  import opened Common
  import opened JsString
  import opened VaultClient

  const MinDimensions: int := 2
  const MaxDimensions: int := 10

  const NameRequired: string := "Rating name is required"
  const DescriptionRequired: string := "Description is required"
  const DimensionsUnnamed: string := "All dimensions must have a name"
  const ScoreOrder: string := "Min score must be less than max score"
  const DeadlinePast: string := "Deadline must be in the future"

  /** The form's state; `deadline` is the `datetime-local` field, "" when left empty. */
  datatype FormData = FormData(name: string, description: string, dimensions: seq<string>,
                               minScore: int, maxScore: int, deadline: string)

  /** The form as the page first shows it. */
  const InitialForm: FormData := FormData("", "", ["", ""], 1, 5, "")

  predicate DimensionCountInRange(dimensions: seq<string>) {
    MinDimensions <= |dimensions| <= MaxDimensions
  }

  lemma InitialFormInRange()
    ensures DimensionCountInRange(InitialForm.dimensions)
    ensures forall i :: 0 <= i < |InitialForm.dimensions| ==> InitialForm.dimensions[i] == ""
  {
  }

  // ---------------------------------------------------------------------------
  // The dimension editor

  /** `addDimension`: an empty name is appended while there are fewer than ten. */
  function AddedDimension(dimensions: seq<string>): (r: seq<string>)
    ensures |r| == if |dimensions| < MaxDimensions then |dimensions| + 1 else |dimensions|
    ensures r[..|dimensions|] == dimensions
    ensures |r| > |dimensions| ==> r[|dimensions|] == ""
  {
    if |dimensions| < MaxDimensions then dimensions + [""] else dimensions
  }

  /** `dimensions.filter((_, i) => i !== index)`. */
  function Without(dimensions: seq<string>, index: int): (r: seq<string>)
    ensures 0 <= index < |dimensions| ==> r == dimensions[..index] + dimensions[index + 1..]
    ensures !(0 <= index < |dimensions|) ==> r == dimensions
  {
    if dimensions == [] then []
    else
      var rest := Without(dimensions[1..], index - 1);
      if index == 0 then rest
      else if 0 < index < |dimensions| then
        assert [dimensions[0]] + rest == dimensions[..index] + dimensions[index + 1..];
        [dimensions[0]] + rest
      else
        assert [dimensions[0]] + rest == dimensions;
        [dimensions[0]] + rest
  }

  /** `removeDimension(index)`: the name at `index` is dropped, the others keep their order, while there are more than two. */
  function RemovedDimension(dimensions: seq<string>, index: int): (r: seq<string>)
    ensures |dimensions| > MinDimensions && 0 <= index < |dimensions| ==>
              r == dimensions[..index] + dimensions[index + 1..]
    ensures |dimensions| <= MinDimensions || !(0 <= index < |dimensions|) ==> r == dimensions
  {
    if |dimensions| > MinDimensions then Without(dimensions, index) else dimensions
  }

  /** Adding and removing keep the list between two and ten names. */
  lemma EditsKeepRange(dimensions: seq<string>, index: int)
    requires DimensionCountInRange(dimensions)
    ensures DimensionCountInRange(AddedDimension(dimensions))
    ensures DimensionCountInRange(RemovedDimension(dimensions, index))
  {
  }

  /** Removing what was just added gives the list back. */
  lemma RemoveAdded(dimensions: seq<string>)
    requires |dimensions| < MaxDimensions && |dimensions| >= MinDimensions
    ensures RemovedDimension(AddedDimension(dimensions), |dimensions|) == dimensions
  {
    var added := AddedDimension(dimensions);
    assert added[..|dimensions|] == dimensions;
  }

  /** `updateDimension(index, value)`: a copy of the list with position `index` overwritten. */
  method UpdatedDimension(dimensions: seq<string>, index: int, value: string) returns (r: seq<string>)
    requires 0 <= index < |dimensions|
    ensures |r| == |dimensions| && r[index] == value
    ensures forall j :: 0 <= j < |dimensions| && j != index ==> r[j] == dimensions[j]
  {
    var copy := new string[|dimensions|](i requires 0 <= i < |dimensions| => dimensions[i]);
    copy[index] := value;
    r := copy[..];
  }

  // ---------------------------------------------------------------------------
  // validate

  /** A name that holds whitespace only, the empty name included. */
  predicate Blank(s: string) {
    forall i :: 0 <= i < |s| ==> IsWhitespace(s[i])
  }

  /** `dimensions.some(d => !d.trim())`. */
  predicate AnyBlank(dimensions: seq<string>) {
    exists i :: 0 <= i < |dimensions| && Blank(dimensions[i])
  }

  /** The rules `validate` checks; `parseDate` is `new Date(s).getTime()` and `now` is `Date.now()`, in milliseconds. */
  predicate FormValid(f: FormData, parseDate: string -> int, now: int) {
    !Blank(f.name)
    && !Blank(f.description)
    && !AnyBlank(f.dimensions)
    && f.minScore < f.maxScore
    && (f.deadline == "" || parseDate(f.deadline) > now)
  }

  /** The rules as the page writes them: `trim()` leaves every name non-empty, `minScore < maxScore`, a future deadline if any. */
  lemma FormValidMeaning(f: FormData, parseDate: string -> int, now: int)
    ensures FormValid(f, parseDate, now) <==>
              Trim(f.name) != "" && Trim(f.description) != ""
              && (forall i :: 0 <= i < |f.dimensions| ==> Trim(f.dimensions[i]) != "")
              && f.minScore < f.maxScore
              && (f.deadline == "" || parseDate(f.deadline) > now)
  {
    BlankIsEmptyTrim(f.name);
    BlankIsEmptyTrim(f.description);
    AnyBlankMeaning(f.dimensions);
  }

  /** `Blank` is `!s.trim()`. */
  lemma BlankIsEmptyTrim(s: string)
    ensures Blank(s) <==> Trim(s) == ""
  {
    TrimEmptyIff(s);
  }

  lemma AnyBlankMeaning(dimensions: seq<string>)
    ensures !AnyBlank(dimensions) <==> forall i :: 0 <= i < |dimensions| ==> Trim(dimensions[i]) != ""
  {
    forall i | 0 <= i < |dimensions| ensures Blank(dimensions[i]) <==> Trim(dimensions[i]) == "" {
      BlankIsEmptyTrim(dimensions[i]);
    }
  }

  /** The keys `validate` may set. */
  const ErrorKeys: set<string> := {"name", "description", "dimensions", "score", "deadline"}

  /** `errors` is the record `validate` builds for `f`: a message under each key whose rule fails, and no other key. */
  predicate ErrorsFor(f: FormData, parseDate: string -> int, now: int, errors: map<string, string>) {
    && errors.Keys <= ErrorKeys
    && ("name" in errors <==> Blank(f.name)) && ("name" in errors ==> errors["name"] == NameRequired)
    && ("description" in errors <==> Blank(f.description))
    && ("description" in errors ==> errors["description"] == DescriptionRequired)
    && ("dimensions" in errors <==> AnyBlank(f.dimensions))
    && ("dimensions" in errors ==> errors["dimensions"] == DimensionsUnnamed)
    && ("score" in errors <==> f.minScore >= f.maxScore) && ("score" in errors ==> errors["score"] == ScoreOrder)
    && ("deadline" in errors <==> f.deadline != "" && parseDate(f.deadline) <= now)
    && ("deadline" in errors ==> errors["deadline"] == DeadlinePast)
  }

  /** The `newErrors` record `validate` builds: a message under each key whose rule fails. */
  method FormErrors(f: FormData, parseDate: string -> int, now: int) returns (errors: map<string, string>)
    ensures ErrorsFor(f, parseDate, now, errors)
  {
    errors := map[];
    if Blank(f.name) {
      errors := errors["name" := NameRequired];
    }
    if Blank(f.description) {
      errors := errors["description" := DescriptionRequired];
    }
    if AnyBlank(f.dimensions) {
      errors := errors["dimensions" := DimensionsUnnamed];
    }
    if f.minScore >= f.maxScore {
      errors := errors["score" := ScoreOrder];
    }
    if f.deadline != "" {
      var deadlineTime := parseDate(f.deadline);
      if deadlineTime <= now {
        errors := errors["deadline" := DeadlinePast];
      }
    }
  }

  /** `validate` passes exactly when no error was recorded, that is when every rule holds. */
  lemma NoErrorsIffValid(f: FormData, parseDate: string -> int, now: int, errors: map<string, string>)
    requires ErrorsFor(f, parseDate, now, errors)
    ensures |errors| == 0 <==> FormValid(f, parseDate, now)
  {
    if |errors| != 0 {
      var k :| k in errors;
      assert k in ErrorKeys;
    }
  }

  // ---------------------------------------------------------------------------
  // The deadline sent

  /** `deadline ? Math.floor(new Date(deadline).getTime() / 1000) : 0`: 0 for no deadline, else whole seconds rounded down. */
  function DeadlineSeconds(deadline: string, parseDate: string -> int): (s: int)
    ensures deadline == "" ==> s == 0
    ensures deadline != "" ==> s * 1000 <= parseDate(deadline) < s * 1000 + 1000
  {
    if deadline == "" then 0 else parseDate(deadline) / 1000
  }

  /** A deadline that passed validation is, in seconds, not before the current second. */
  lemma ValidDeadlineNotPast(f: FormData, parseDate: string -> int, now: int)
    requires FormValid(f, parseDate, now) && f.deadline != ""
    ensures DeadlineSeconds(f.deadline, parseDate) >= now / 1000
  {
    var s := DeadlineSeconds(f.deadline, parseDate);
    assert (now / 1000) * 1000 <= now;
  }

  /** The arguments `handleSubmit` passes to `createRating`. */
  function SubmittedParams(f: FormData, parseDate: string -> int): (p: CreateParams)
    ensures p.name == f.name && p.description == f.description && p.dimensions == f.dimensions
    ensures p.minScore == f.minScore && p.maxScore == f.maxScore
    ensures p.deadline == DeadlineSeconds(f.deadline, parseDate)
  {
    CreateParams(f.name, f.description, f.dimensions, f.minScore, f.maxScore, DeadlineSeconds(f.deadline, parseDate))
  }

  // ---------------------------------------------------------------------------
  // The page

  class CreatePage {
    var formData: FormData
    var errors: map<string, string>
    var isSubmitting: bool

    constructor ()
      ensures formData == InitialForm && errors == map[] && !isSubmitting
    {
      formData := InitialForm;
      errors := map[];
      isSubmitting := false;
    }

    method AddDimension()
      modifies this
      ensures formData == old(formData).(dimensions := AddedDimension(old(formData).dimensions))
      ensures errors == old(errors) && isSubmitting == old(isSubmitting)
    {
      if |formData.dimensions| < MaxDimensions {
        formData := formData.(dimensions := formData.dimensions + [""]);
      }
    }

    method RemoveDimension(index: int)
      modifies this
      ensures formData == old(formData).(dimensions := RemovedDimension(old(formData).dimensions, index))
      ensures errors == old(errors) && isSubmitting == old(isSubmitting)
    {
      if |formData.dimensions| > MinDimensions {
        formData := formData.(dimensions := Without(formData.dimensions, index));
      }
    }

    /** The editor binds `updateDimension` to the positions it shows, so `index` is in range. */
    method UpdateDimension(index: int, value: string)
      requires 0 <= index < |formData.dimensions|
      modifies this
      ensures formData == old(formData).(dimensions := old(formData).dimensions[index := value])
      ensures errors == old(errors) && isSubmitting == old(isSubmitting)
    {
      var dimensions := UpdatedDimension(formData.dimensions, index, value);
      assert dimensions == formData.dimensions[index := value];
      formData := formData.(dimensions := dimensions);
    }

    /** `validate()`: the errors are replaced by the new record, and the form passes when it is empty. */
    method Validate(parseDate: string -> int, now: int) returns (ok: bool)
      modifies this
      ensures ok <==> FormValid(formData, parseDate, now)
      ensures ok <==> errors == map[]
      ensures ErrorsFor(formData, parseDate, now, errors)
      ensures formData == old(formData) && isSubmitting == old(isSubmitting)
    {
      var newErrors := FormErrors(formData, parseDate, now);
      errors := newErrors;
      NoErrorsIffValid(formData, parseDate, now, newErrors);
      ok := |newErrors| == 0;
    }

    /**
     * `handleSubmit`: nothing happens without a connected wallet; an invalid form only shows
     * its errors; otherwise `createRating` is called once with the form's fields and the
     * deadline in seconds. `r` is what that call returned, `None` when it was not made.
     */
    method HandleSubmit(isConnected: bool, parseDate: string -> int, now: int, vault: RatingVaultHook, chain: Chain)
      returns (r: Option<CreateResult>)
      modifies this, vault
      ensures !isConnected ==> r.None? && unchanged(this) && unchanged(vault)
      ensures isConnected && !FormValid(old(formData), parseDate, now) ==>
                r.None? && errors != map[] && ErrorsFor(old(formData), parseDate, now, errors)
                && formData == old(formData) && isSubmitting == old(isSubmitting)
                && unchanged(vault)
      ensures isConnected && FormValid(old(formData), parseDate, now) ==>
                r == Some(CreateOutcome(vault.Address(), SubmittedParams(old(formData), parseDate), chain))
                && errors == map[] && formData == old(formData) && !isSubmitting && !vault.isLoading
                && vault.error == (if r.value.Created? then None else Some(MessageOr(r.value.error, CreateFailure)))
    {
      if !isConnected {
        return None;
      }
      var ok := Validate(parseDate, now);
      if !ok {
        return None;
      }
      isSubmitting := true;
      var deadlineTimestamp := if formData.deadline != "" then parseDate(formData.deadline) / 1000 else 0;
      var result := vault.CreateRating(CreateParams(formData.name, formData.description, formData.dimensions,
                                                    formData.minScore, formData.maxScore, deadlineTimestamp), chain);
      isSubmitting := false;
      return Some(result);
    }
  }
}
