/** The event-creation form (src/components/EventForm.tsx): a draft record,
    a per-field error map, validation on submit and error clearing on edit. */
module EventForm {
  import opened Types

  /** The keys of CreateEventData, which name both draft fields and error entries. */
  datatype Field = Title | Date | Time | Notes

  const TitleRequired := "Title is required"
  const DateRequired := "Date is required"
  const TimeRequired := "Time is required"

  /** The draft the form starts with and is reset to after a submission. */
  const EmptyDraft := CreateEventData("", "", "", Some(""))

  // ---------------------------------------------------------------------
  // String.prototype.trim

  /** The code points ECMAScript's trim removes: WhiteSpace (tab, vertical
      tab, form feed, space, no-break space, byte order mark and the Zs
      category) and LineTerminator (LF, CR, U+2028, U+2029). */
  predicate IsWhitespace(c: char) {
    c == '\t' || c == '\n' || c == '\U{B}' || c == '\U{C}' || c == '\r' || c == ' ' ||
    c == '\U{A0}' || c == '\U{1680}' || ('\U{2000}' <= c <= '\U{200A}') ||
    c == '\U{2028}' || c == '\U{2029}' || c == '\U{202F}' || c == '\U{205F}' ||
    c == '\U{3000}' || c == '\U{FEFF}'
  }

  predicate IsBlank(s: string) {
    forall i :: 0 <= i < |s| ==> IsWhitespace(s[i])
  }

  /** The number of whitespace characters `s` starts with. */
  function LeadingWhitespace(s: string): (n: nat)
    ensures n <= |s|
    ensures forall i :: 0 <= i < n ==> IsWhitespace(s[i])
    ensures n < |s| ==> !IsWhitespace(s[n])
  {
    if s != [] && IsWhitespace(s[0]) then 1 + LeadingWhitespace(s[1..]) else 0
  }

  /** The length of `s` without the whitespace it ends with. */
  function TrailingWhitespaceStart(s: string): (m: nat)
    ensures m <= |s|
    ensures forall i :: m <= i < |s| ==> IsWhitespace(s[i])
    ensures m > 0 ==> !IsWhitespace(s[m - 1])
  {
    if s != [] && IsWhitespace(s[|s| - 1]) then TrailingWhitespaceStart(s[..|s| - 1]) else |s|
  }

  /** `s` without leading and trailing whitespace; empty exactly when `s` is blank. */
  function Trim(s: string): (r: string)
    ensures r == [] <==> IsBlank(s)
    ensures r == [] || (!IsWhitespace(r[0]) && !IsWhitespace(r[|r| - 1]))
    ensures |r| <= |s|
  {
    var t := s[LeadingWhitespace(s)..];
    t[..TrailingWhitespaceStart(t)]
  }

  // ---------------------------------------------------------------------
  // Draft fields and validation

  /** The value stored under a key of the draft; only `notes` may be absent. */
  function FieldValue(d: CreateEventData, f: Field): Option<string> {
    match f
    case Title => Some(d.title)
    case Date => Some(d.date)
    case Time => Some(d.time)
    case Notes => d.notes
  }

  /** The draft after one field is edited (`{ ...prev, [field]: value }`). */
  function SetField(d: CreateEventData, f: Field, v: string): (r: CreateEventData)
    ensures FieldValue(r, f) == Some(v)
    ensures forall g :: g != f ==> FieldValue(r, g) == FieldValue(d, g)
  {
    match f
    case Title => d.(title := v)
    case Date => d.(date := v)
    case Time => d.(time := v)
    case Notes => d.(notes := Some(v))
  }

  /** The message a missing required field is reported with; notes is never required. */
  function RequiredMessage(f: Field): Option<string> {
    match f
    case Title => Some(TitleRequired)
    case Date => Some(DateRequired)
    case Time => Some(TimeRequired)
    case Notes => None
  }

  /** Whether validation flags field `f` of `d`: a blank title (after
      trimming), an empty date or an empty time (neither is trimmed). */
  predicate IsMissing(d: CreateEventData, f: Field) {
    match f
    case Title => IsBlank(d.title)
    case Date => d.date == ""
    case Time => d.time == ""
    case Notes => false
  }

  /** The error map validation produces for `d`, built from nothing. */
  function ValidationErrors(d: CreateEventData): map<Field, string> {
    map f | f in {Title, Date, Time} && IsMissing(d, f) :: RequiredMessage(f).value
  }

  /** The draft passes validation. */
  predicate IsValid(d: CreateEventData) {
    !IsBlank(d.title) && d.date != "" && d.time != ""
  }

  /** The error map holds exactly the failing required fields, each with its
      fixed message, and never an entry for notes. */
  lemma ValidationErrorsExactly(d: CreateEventData)
    ensures Title in ValidationErrors(d) <==> IsBlank(d.title)
    ensures Date in ValidationErrors(d) <==> d.date == ""
    ensures Time in ValidationErrors(d) <==> d.time == ""
    ensures Notes !in ValidationErrors(d)
    ensures Title in ValidationErrors(d) ==> ValidationErrors(d)[Title] == "Title is required"
    ensures Date in ValidationErrors(d) ==> ValidationErrors(d)[Date] == "Date is required"
    ensures Time in ValidationErrors(d) ==> ValidationErrors(d)[Time] == "Time is required"
  {
  }

  /** A map with an entry, carrying its fixed message, for exactly the
      missing fields is the validation result. */
  lemma ErrorsFromChecks(d: CreateEventData, m: map<Field, string>)
    requires Title in m <==> IsMissing(d, Title)
    requires Date in m <==> IsMissing(d, Date)
    requires Time in m <==> IsMissing(d, Time)
    requires Notes !in m
    requires Title in m ==> m[Title] == TitleRequired
    requires Date in m ==> m[Date] == DateRequired
    requires Time in m ==> m[Time] == TimeRequired
    ensures m == ValidationErrors(d)
    ensures forall f :: f in m ==> RequiredMessage(f) == Some(m[f])
  {
    forall f ensures f in m <==> f in ValidationErrors(d) {
      match f
      case Title =>
      case Date =>
      case Time =>
      case Notes =>
    }
  }

  /** The draft is valid exactly when validation reports no error. */
  lemma ValidIffNoErrors(d: CreateEventData)
    ensures IsValid(d) <==> ValidationErrors(d) == map[]
  {
    if !IsValid(d) {
      var f := if IsBlank(d.title) then Title else if d.date == "" then Date else Time;
      assert f in ValidationErrors(d);
    }
  }

  /** Validation passes exactly when the title has a non-whitespace character
      and the date and time are non-empty. */
  lemma ValidIffRequiredPresent(d: CreateEventData)
    ensures IsValid(d) <==>
      (exists i :: 0 <= i < |d.title| && !IsWhitespace(d.title[i])) && |d.date| > 0 && |d.time| > 0
  {
  }

  /** A title made only of whitespace fails, while a date or time of a
      single space counts as present. */
  lemma WhitespaceOnlyTitleFails(d: CreateEventData)
    requires IsBlank(d.title)
    ensures !IsValid(d) && ValidationErrors(d)[Title] == TitleRequired
  {
  }

  lemma UntrimmedDateAndTimeCount(d: CreateEventData)
    requires !IsBlank(d.title) && d.date == " " && d.time == " "
    ensures IsValid(d) && ValidationErrors(d) == map[]
  {
  }

  /** The notes value never affects validation. */
  lemma NotesNeverValidated(d: CreateEventData, n: Option<string>)
    ensures ValidationErrors(d.(notes := n)) == ValidationErrors(d)
    ensures IsValid(d.(notes := n)) == IsValid(d)
  {
  }

  // ---------------------------------------------------------------------
  // The form component

  class Form {
    /** The draft being edited. */
    var formData: CreateEventData
    /** The per-field error messages on display; an absent key is a cleared error. */
    var errors: map<Field, string>
    /** The calls made to the onSubmit callback, in order. */
    var submitted: seq<CreateEventData>

    /** Every error on display is the fixed message of a required field. */
    ghost predicate Valid()
      reads this
    {
      forall f :: f in errors ==> RequiredMessage(f) == Some(errors[f])
    }

    constructor ()
      ensures Valid()
      ensures formData == EmptyDraft && errors == map[] && submitted == []
    {
      formData := EmptyDraft;
      errors := map[];
      submitted := [];
    }

    /** validateForm: rebuilds the error map from scratch, discarding earlier errors. */
    method ValidateForm() returns (ok: bool)
      modifies this`errors
      ensures Valid()
      ensures errors == ValidationErrors(formData)
      ensures ok <==> IsValid(formData)
    {
      var d := formData;
      var newErrors: map<Field, string> := map[];
      if Trim(d.title) == "" {
        newErrors := newErrors[Title := TitleRequired];
      }
      if d.date == "" {
        newErrors := newErrors[Date := DateRequired];
      }
      if d.time == "" {
        newErrors := newErrors[Time := TimeRequired];
      }
      ErrorsFromChecks(d, newErrors);
      errors := newErrors;
      ValidIffNoErrors(d);
      ok := |newErrors| == 0;
    }

    /** handleSubmit: on a valid draft, calls onSubmit once with the draft,
        then resets the draft and clears the errors; otherwise only shows
        the validation errors. Returns what was passed to onSubmit. */
    method HandleSubmit() returns (sent: Option<CreateEventData>)
      modifies this
      ensures Valid()
      ensures IsValid(old(formData)) ==>
        && sent == Some(old(formData))
        && submitted == old(submitted) + [old(formData)]
        && formData == EmptyDraft
        && errors == map[]
      ensures !IsValid(old(formData)) ==>
        && sent == None
        && submitted == old(submitted)
        && formData == old(formData)
        && errors == ValidationErrors(formData)
    {
      var ok := ValidateForm();
      if ok {
        sent := Some(formData);
        submitted := submitted + [formData];
        formData := EmptyDraft;
        errors := map[];
      } else {
        sent := None;
      }
    }

    /** handleChange: stores the new value of one field and clears that
        field's error if one is shown; every other error stays. */
    method HandleChange(field: Field, value: string)
      requires Valid()
      modifies this`formData, this`errors
      ensures Valid()
      ensures formData == SetField(old(formData), field, value)
      ensures field !in errors
      ensures forall g :: g != field ==>
        (g in errors <==> g in old(errors)) && (g in errors ==> errors[g] == old(errors)[g])
    {
      formData := SetField(formData, field, value);
      if field in errors && errors[field] != "" {
        errors := errors - {field};
      }
    }
  }
}
