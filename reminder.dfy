/** The reminder record (models/Reminder.ts): its fields, and what the schema does to a
    submitted document before it is stored, namely trimming, defaults and the three
    constraints (title required and at most 200 UTF-16 code units long, as JavaScript's
    `length` counts them, description at most 2000,
    priority one of low, medium, high). Every other component of the model reads reminders of
    this shape; the user interface adds the storage identifier `_id`. */
module ReminderModel {
  import opened Common
  import opened Text

  datatype Priority = Low | Medium | High

  function PriorityName(p: Priority): string {
    match p
    case Low => "low"
    case Medium => "medium"
    case High => "high"
  }

  /** The schema's enum check: only the three exact lower-case names are priorities. */
  function ParsePriority(s: string): (r: Option<Priority>)
    ensures r.Some? ==> PriorityName(r.value) == s
    ensures r.None? ==> forall p :: PriorityName(p) != s
  {
    if s == "low" then Some(Low)
    else if s == "medium" then Some(Medium)
    else if s == "high" then Some(High)
    else None
  }

  lemma PriorityNameRoundTrip(p: Priority)
    ensures ParsePriority(PriorityName(p)) == Some(p)
  {}

  /** A stored reminder as the application sees it. `date` and `time` are free strings. */
  datatype Reminder = Reminder(
    id: Option<string>,
    title: string,
    description: Option<string>,
    date: Option<string>,
    time: Option<string>,
    category: string,
    priority: Priority,
    completed: bool)

  /** The fields of a document submitted for storage; any of them may be missing. */
  datatype Draft = Draft(
    title: Option<string>,
    description: Option<string>,
    date: Option<string>,
    time: Option<string>,
    category: Option<string>,
    priority: Option<string>,
    completed: Option<bool>)

  /** The constraint a submitted document breaks. */
  datatype SchemaError = TitleRequired | TitleTooLong | DescriptionTooLong | PriorityNotInEnum

  const TitleMaxLength: nat := 200
  const DescriptionMaxLength: nat := 2000
  const DefaultCategory: string := "Personal"
  const DefaultPriority: Priority := Medium

  /** Whether the trimmed document breaks constraint `e`. The length limits are on `length`,
      which counts UTF-16 code units. */
  predicate Breaks(d: Draft, e: SchemaError) {
    match e
    case TitleRequired => d.title.None? || Trim(d.title.value) == ""
    case TitleTooLong => d.title.Some? && Utf16Length(Trim(d.title.value)) > TitleMaxLength
    case DescriptionTooLong => d.description.Some? && Utf16Length(Trim(d.description.value)) > DescriptionMaxLength
    case PriorityNotInEnum => d.priority.Some? && ParsePriority(d.priority.value).None?
  }

  const AllConstraints: set<SchemaError> :=
    {TitleRequired, TitleTooLong, DescriptionTooLong, PriorityNotInEnum}

  /** The constraints the trimmed document breaks. All validators run, so every broken
      constraint is reported. */
  function SchemaErrors(d: Draft): (errs: set<SchemaError>)
    ensures TitleRequired in errs <==> d.title.None? || Trim(d.title.value) == ""
    ensures TitleTooLong in errs <==> d.title.Some? && Utf16Length(Trim(d.title.value)) > TitleMaxLength
    ensures DescriptionTooLong in errs <==>
      d.description.Some? && Utf16Length(Trim(d.description.value)) > DescriptionMaxLength
    ensures PriorityNotInEnum in errs <==> d.priority.Some? && ParsePriority(d.priority.value).None?
  {
    set e | e in AllConstraints && Breaks(d, e)
  }

  /** A record the schema can have produced. */
  predicate WellFormed(r: Reminder) {
    r.title != "" && Trimmed(r.title) && Utf16Length(r.title) <= TitleMaxLength
    && (r.description.Some? ==>
          Trimmed(r.description.value) && Utf16Length(r.description.value) <= DescriptionMaxLength)
  }

  /** Trimming, validation and defaults applied to a submitted document. The storage
      identifier is assigned by the database and is not part of this step. */
  function Validate(d: Draft): (r: Result<Reminder, set<SchemaError>>)
    ensures r.Err? <==> SchemaErrors(d) != {}
    ensures r.Err? ==> r.error == SchemaErrors(d)
    ensures r.Ok? ==> WellFormed(r.value) && r.value.id.None?
    ensures r.Ok? ==> r.value.title == Trim(d.title.value)
    ensures r.Ok? ==> r.value.description == (if d.description.Some? then Some(Trim(d.description.value)) else None)
    ensures r.Ok? ==> r.value.date == d.date && r.value.time == d.time
    ensures r.Ok? ==> r.value.category == d.category.GetOr(DefaultCategory)
    ensures r.Ok? ==> r.value.priority == (if d.priority.Some? then ParsePriority(d.priority.value).value else DefaultPriority)
    ensures r.Ok? ==> r.value.completed == d.completed.GetOr(false)
  {
    var errs := SchemaErrors(d);
    if errs != {} then Err(errs)
    else
      var title := Trim(d.title.value);
      TrimIdempotent(d.title.value);
      var desc := if d.description.Some?
                  then TrimIdempotent(d.description.value); Some(Trim(d.description.value))
                  else None;
      Ok(Reminder(
        None, title, desc, d.date, d.time,
        d.category.GetOr(DefaultCategory),
        if d.priority.Some? then ParsePriority(d.priority.value).value else DefaultPriority,
        d.completed.GetOr(false)))
  }

  /** A document with only a title gets category "Personal", priority medium, not completed. */
  lemma DefaultsApplied(t: string)
    requires Trim(t) != "" && Utf16Length(Trim(t)) <= TitleMaxLength
    ensures var r := Validate(Draft(Some(t), None, None, None, None, None, None));
      r.Ok? && r.value.category == "Personal" && r.value.priority == Medium && !r.value.completed
      && r.value.description.None?
  {
    NothingBroken(Draft(Some(t), None, None, None, None, None, None));
  }

  /** A title of 101 to 200 characters that all lie outside the Basic Multilingual Plane is
      within 200 characters but over 200 UTF-16 code units, so it is rejected as too long. */
  lemma AstralTitleTooLong(t: string)
    requires 100 < |t| && forall i :: 0 <= i < |t| ==> IsAstral(t[i])
    ensures TitleTooLong in SchemaErrors(Draft(Some(t), None, None, None, None, None, None))
    ensures Validate(Draft(Some(t), None, None, None, None, None, None)).Err?
  {
    assert !IsSpace(t[0]) && !IsSpace(t[|t| - 1]);
    TrimOfTrimmed(t);
  }

  /** The document that stores `r` again. */
  function Resubmission(r: Reminder): Draft {
    Draft(Some(r.title), r.description, r.date, r.time, Some(r.category),
          Some(PriorityName(r.priority)), Some(r.completed))
  }

  /** A well-formed record breaks no constraint. */
  lemma WellFormedPasses(r: Reminder)
    requires WellFormed(r)
    ensures SchemaErrors(Resubmission(r)) == {}
  {
    var d := Resubmission(r);
    assert !Breaks(d, TitleRequired) && !Breaks(d, TitleTooLong) by {
      TrimOfTrimmed(r.title);
    }
    assert !Breaks(d, DescriptionTooLong) by {
      if r.description.Some? { TrimOfTrimmed(r.description.value); }
    }
    assert !Breaks(d, PriorityNotInEnum) by {
      PriorityNameRoundTrip(r.priority);
    }
    NothingBroken(d);
  }

  lemma NothingBroken(d: Draft)
    requires !Breaks(d, TitleRequired) && !Breaks(d, TitleTooLong)
    requires !Breaks(d, DescriptionTooLong) && !Breaks(d, PriorityNotInEnum)
    ensures SchemaErrors(d) == {}
  {}

  /** Storing a well-formed record again changes nothing but the identifier. */
  lemma ValidateWellFormed(r: Reminder)
    requires WellFormed(r)
    ensures Validate(Resubmission(r)) == Ok(r.(id := None))
  {
    var d := Resubmission(r);
    WellFormedPasses(r);
    var v := Validate(d);
    assert v.Ok? && v.value.id.None?;
    assert v.value.title == r.title by {
      TrimOfTrimmed(r.title);
    }
    assert v.value.description == r.description by {
      if r.description.Some? { TrimOfTrimmed(r.description.value); }
    }
    assert v.value.priority == r.priority by {
      PriorityNameRoundTrip(r.priority);
    }
  }
}
