/**
 * The note tags and the note record the server returns.  The type file that
 * declares them is not part of this model; the five tag names are the ones the
 * note form validates and offers in its select.
 */
module NoteTypes {
  import opened Wrappers

  /** The closed set of note tags. */
  datatype Tag = Todo | Work | Personal | Meeting | Shopping

  /** The string a tag travels as in form values and requests. */
  function TagName(t: Tag): string {
    match t
    case Todo => "Todo"
    case Work => "Work"
    case Personal => "Personal"
    case Meeting => "Meeting"
    case Shopping => "Shopping"
  }

  /** The tag names accepted by the form's `oneOf` rule, in the source's order. */
  const TagNames: seq<string> := ["Todo", "Work", "Personal", "Meeting", "Shopping"]

  /** Reads a tag from its name; any other string is not a tag. */
  function ParseTag(s: string): (r: Option<Tag>)
    ensures r.Some? <==> s in TagNames
    ensures r.Some? ==> TagName(r.value) == s
    ensures r.None? ==> forall t: Tag :: TagName(t) != s
  {
    if s == "Todo" then Some(Todo)
    else if s == "Work" then Some(Work)
    else if s == "Personal" then Some(Personal)
    else if s == "Meeting" then Some(Meeting)
    else if s == "Shopping" then Some(Shopping)
    else None
  }

  /** Every tag is recovered from its name, so distinct tags have distinct names. */
  lemma TagNameRoundTrip(t: Tag)
    ensures ParseTag(TagName(t)) == Some(t)
  {
  }

  /** A created note as the server returns it; its fields are opaque to the client. */
  datatype Note = Note(id: string, title: string, content: string, tag: Tag,
                       createdAt: string, updatedAt: string)
}
