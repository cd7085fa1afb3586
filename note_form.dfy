/**
 * The note form (components/NoteForm/NoteForm.tsx): a per-field validation
 * schema, the condition that enables the submit button, and the transitions
 * of submitting and of the create call settling.
 */
module NoteForm {
  import opened Wrappers
  import opened NoteTypes

  /** The form's field values; the tag is the string the select delivers. */
  datatype FormValues = FormValues(title: string, content: string, tag: string)

  /** The values the form starts from and is reset to. */
  const InitialValues: FormValues := FormValues("", "", "Todo")

  const MinTitle: nat := 3
  const MaxTitle: nat := 50
  const MaxContent: nat := 500

  const TitleRequired: string := "Title is required"
  const TitleTooShort: string := "Title must be at least 3 characters"
  const TitleTooLong: string := "Title must be at most 50 characters"
  const ContentTooLong: string := "Content must be at most 500 characters"
  const TagInvalid: string := "Invalid tag value"
  const TagRequired: string := "Tag is required"

  /** The fields errors are keyed by. */
  datatype FormField = Title | Content | TagChoice

  /*
   * Formik hands the values to Yup with every empty string replaced by an
   * absent value.  An absent value fails only a `required` rule: the length
   * and membership rules skip it.  The error functions below therefore treat
   * "" as absent.
   */

  /**
   * The messages of the title rules that fail: required, at least 3 and at
   * most 50 characters, counted on the title as typed (no trimming).
   */
  function TitleErrors(t: string): (m: set<string>)
    ensures m == {} <==> MinTitle <= |t| <= MaxTitle
    ensures m <= {TitleRequired, TitleTooShort, TitleTooLong}
    ensures TitleRequired in m <==> t == ""
    ensures TitleTooShort in m <==> 0 < |t| < MinTitle
    ensures TitleTooLong in m <==> |t| > MaxTitle
  {
    if t == "" then {TitleRequired}
    else (if |t| < MinTitle then {TitleTooShort} else {})
         + (if |t| > MaxTitle then {TitleTooLong} else {})
  }

  /** The messages of the content rule that fail: optional, at most 500 characters. */
  function ContentErrors(c: string): (m: set<string>)
    ensures m == {} <==> |c| <= MaxContent
    ensures m != {} ==> m == {ContentTooLong}
  {
    if |c| > MaxContent then {ContentTooLong} else {}
  }

  /** The messages of the tag rules that fail: required, and one of the five tag names. */
  function TagErrors(s: string): (m: set<string>)
    ensures m == {} <==> s in TagNames
    ensures m == {} <==> exists t: Tag :: TagName(t) == s
    ensures TagRequired in m <==> s == ""
    ensures TagInvalid in m <==> s != "" && s !in TagNames
    ensures m <= {TagRequired, TagInvalid} && |m| <= 1
  {
    if s == "" then {TagRequired}
    else if ParseTag(s).Some? then {}
    else {TagInvalid}
  }

  /** The failing messages of one field; they depend on that field's value only. */
  function FieldErrors(v: FormValues, f: FormField): set<string> {
    match f
    case Title => TitleErrors(v.title)
    case Content => ContentErrors(v.content)
    case TagChoice => TagErrors(v.tag)
  }

  /**
   * The schema's error record: one entry per failing field, keyed by that
   * field, holding the messages of its failing rules.
   */
  function Errors(v: FormValues): (e: map<FormField, set<string>>)
    ensures Title in e <==> !(MinTitle <= |v.title| <= MaxTitle)
    ensures Content in e <==> |v.content| > MaxContent
    ensures TagChoice in e <==> ParseTag(v.tag).None?
    ensures forall f :: f in e ==> e[f] != {} && e[f] == FieldErrors(v, f)
  {
    map f | f in {Title, Content, TagChoice} && FieldErrors(v, f) != {} :: FieldErrors(v, f)
  }

  /** `isValid`: the error record is empty. */
  predicate FormValid(v: FormValues)
    ensures FormValid(v) <==>
      MinTitle <= |v.title| <= MaxTitle && |v.content| <= MaxContent && v.tag in TagNames
  {
    Errors(v) == map[]
  }

  /** The submit button is enabled when it is not `disabled={!isValid || isPending}`. */
  function SubmitEnabled(v: FormValues, pending: bool): (b: bool)
    ensures b <==> FormValid(v) && !pending
    ensures b ==> ParseTag(v.tag).Some? && MinTitle <= |v.title|
  {
    !(Errors(v) != map[] || pending)
  }

  /** A field's error entry is decided by that field's own value alone. */
  lemma ErrorsPerField(v: FormValues, w: FormValues)
    ensures v.title == w.title ==>
      (Title in Errors(v) <==> Title in Errors(w)) && (Title in Errors(v) ==> Errors(v)[Title] == Errors(w)[Title])
    ensures v.content == w.content ==>
      (Content in Errors(v) <==> Content in Errors(w)) && (Content in Errors(v) ==> Errors(v)[Content] == Errors(w)[Content])
    ensures v.tag == w.tag ==>
      (TagChoice in Errors(v) <==> TagChoice in Errors(w)) && (TagChoice in Errors(v) ==> Errors(v)[TagChoice] == Errors(w)[TagChoice])
  {
  }

  /** The initial values fail the title rule only, as an absent title. */
  lemma InitialValuesStatus()
    ensures Errors(InitialValues) == map[Title := {TitleRequired}]
    ensures !FormValid(InitialValues)
    ensures ParseTag(InitialValues.tag) == Some(Todo)
  {
  }

  /** A two-character title gets exactly the minimum-length message. */
  lemma ShortTitleRejected()
    ensures Errors(FormValues("Hi", "", "Todo")) == map[Title := {TitleTooShort}]
    ensures !SubmitEnabled(FormValues("Hi", "", "Todo"), false)
  {
    var v := FormValues("Hi", "", "Todo");
    assert TitleErrors("Hi") == {TitleTooShort};
    assert ContentErrors("") == {};
    assert TagErrors("Todo") == {};
    assert Errors(v).Keys == {Title};
  }

  /** The title is not trimmed: three spaces pass the length rule. */
  lemma BlankTitleAccepted()
    ensures FormValid(FormValues("   ", "", "Work"))
  {
  }

  /** The tag check is exact: a different spelling of a tag name is rejected. */
  lemma TagSpellingMatters()
    ensures !FormValid(FormValues("Buy milk", "", "todo"))
  {
    assert "todo" !in TagNames by {
      assert "todo"[0] != "Todo"[0];
    }
  }

  /**
   * The form component's state: its values, whether a create call is in
   * flight, whether the "notes" queries were invalidated, whether `onCancel`
   * was called, the create requests issued and the notes handed to `onCreated`.
   */
  class Form {
    var values: FormValues
    var pending: bool
    var notesStale: bool
    var closed: bool
    const hasOnCreated: bool
    var requests: seq<FormValues>
    var settled: nat
    var succeeded: nat
    var reported: seq<Note>

    /**
     * At most one create is in flight, and it is the last one issued; only
     * valid values ever reach a create; `onCreated`, when present, has
     * received one note per successful create, and otherwise none.
     */
    ghost predicate Valid()
      reads this
    {
      && |requests| == settled + (if pending then 1 else 0)
      && (forall i :: 0 <= i < |requests| ==> FormValid(requests[i]))
      && succeeded <= settled
      && |reported| == (if hasOnCreated then succeeded else 0)
    }

    constructor (hasOnCreated: bool)
      ensures Valid()
      ensures values == InitialValues && !pending && !notesStale && !closed
      ensures this.hasOnCreated == hasOnCreated
      ensures requests == [] && settled == 0 && succeeded == 0 && reported == []
    {
      values := InitialValues;
      pending := false;
      notesStale := false;
      closed := false;
      this.hasOnCreated := hasOnCreated;
      requests := [];
      settled := 0;
      succeeded := 0;
      reported := [];
    }

    /** The user edits the fields. */
    method Change(v: FormValues)
      requires Valid()
      modifies this`values
      ensures Valid()
      ensures values == v
    {
      values := v;
    }

    /** The cancel button calls `onCancel`. */
    method Cancel()
      requires Valid()
      modifies this`closed
      ensures Valid()
      ensures closed
    {
      closed := true;
    }

    /**
     * Pressing submit: when the button is enabled, one create is issued with
     * the current values and the form is reset to its initial values at once,
     * before the create settles; otherwise nothing happens.
     */
    method Submit() returns (fired: bool)
      requires Valid()
      modifies this`values, this`pending, this`requests
      ensures Valid()
      ensures fired <==> old(SubmitEnabled(values, pending))
      ensures old(pending) ==> !fired
      ensures fired ==> requests == old(requests) + [old(values)] && pending && values == InitialValues
      ensures !fired ==> requests == old(requests) && pending == old(pending) && values == old(values)
    {
      fired := SubmitEnabled(values, pending);
      if fired {
        requests := requests + [values];
        pending := true;
        values := InitialValues;
      }
    }

    /**
     * The create call returns `note`: the "notes" queries become stale, the
     * form calls `onCancel`, and `onCreated`, when given, receives the note.
     */
    method CreateSucceeded(note: Note)
      requires Valid() && pending
      modifies this`pending, this`settled, this`succeeded, this`notesStale, this`closed, this`reported
      ensures Valid()
      ensures !pending && settled == old(settled) + 1 && succeeded == old(succeeded) + 1
      ensures notesStale && closed
      ensures reported == if hasOnCreated then old(reported) + [note] else old(reported)
    {
      pending := false;
      settled := settled + 1;
      succeeded := succeeded + 1;
      notesStale := true;
      closed := true;
      if hasOnCreated {
        reported := reported + [note];
      }
    }

    /** The create call fails: it is no longer in flight, and nothing else changes. */
    method CreateFailed()
      requires Valid() && pending
      modifies this`pending, this`settled
      ensures Valid()
      ensures !pending && settled == old(settled) + 1
    {
      pending := false;
      settled := settled + 1;
    }
  }
}
