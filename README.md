# NoteHub draft store and note form, modelled in Dafny

NoteHub is a note-taking web client. This project models the two pieces of it
that hold logic of their own:

- **The draft store** (`lib/store/noteStore.ts`). It keeps one mutable draft
  note `{title, content, tag}`. The draft starts at `initialDraft` =
  `{"", "", Todo}`. `setDraft(partial)` spreads a partial record over the
  draft. `clearDraft()` resets it to `initialDraft`. Here the store is the class
  `NoteStore.DraftStore`. The spread is the pure function `NoteStore.Merge`,
  and a partial is a `PartialDraft` whose absent fields are `None`.
- **The note form** (`components/NoteForm/NoteForm.tsx`). It has a per-field
  validation schema: the title is required and 3 to 50 characters long; the
  content is optional and at most 500 characters; the tag is one of Todo, Work,
  Personal, Meeting, Shopping. The submit button is disabled when the form is
  invalid or a create is pending. Submitting fires one create with the current
  values and resets the form at once. A successful create invalidates the
  `"notes"` queries, calls `onCancel` and hands the note to `onCreated`. Here
  the schema is a set of functions that return the failing messages of each
  field (`NoteForm.Errors`), and the component's state is the class
  `NoteForm.Form`. The create call and the query cache are abstract: issued
  requests are recorded in `requests`, invalidation sets `notesStale`, and the
  outcome of a create arrives as `CreateSucceeded(note)` or `CreateFailed()`.

`Form.Valid()` is kept by every transition. It says that at most one create is
in flight, and that it is the last one issued. It says that only values that
pass the schema are ever sent. It also says that `onCreated`, when given, has
received exactly one note per successful create, and that otherwise no note
is reported.

Before the schema runs, Formik replaces every empty field value with an absent
one. An absent value fails only a `required` rule, because the length and
membership rules skip it. The empty title therefore gets only "Title is
required", and the empty tag gets only "Tag is required".

Two behaviours of the code are easy to misread:

- The title is **not** trimmed before its length is checked. Three spaces are a
  valid title (`NoteForm.BlankTitleAccepted`).
- The form never reads or writes the draft store. On submit it resets its own
  values to the initial values, whatever the outcome of the create. A failed
  create does not restore them.

## Model

| member | source | states |
|---|---|---|
| `NoteTypes.ParseTag` | components/NoteForm/NoteForm.tsx:22-27 | a string is a tag exactly when it is one of the five listed names, and then it is that tag's name |
| `NoteTypes.TagNameRoundTrip` | components/NoteForm/NoteForm.tsx:112-116 | every tag's name reads back as that tag, so the select's five options are five distinct valid tags |
| `NoteStore.Merge` | lib/store/noteStore.ts:29-30 | each field the partial carries takes the partial's value; every absent field keeps the draft's value |
| `NoteStore.Combine` | lib/store/noteStore.ts:29-30 | spreading two partials keeps, per field, the later partial's value when it has one, else the earlier one's |
| `NoteStore.MergeNoFields` | lib/store/noteStore.ts:29-30 | `setDraft` with an empty partial leaves the draft unchanged |
| `NoteStore.MergeIdempotent` | lib/store/noteStore.ts:29-30 | applying the same partial twice gives the same draft as applying it once |
| `NoteStore.MergeTwice` | lib/store/noteStore.ts:29-30 | `setDraft(p)` then `setDraft(q)` equals one `setDraft` of `p` and `q` combined, `q` winning on shared fields |
| `NoteStore.MergeAfterClear` | lib/store/noteStore.ts:13-31 | `setDraft(p)` right after `clearDraft` gives `initialDraft` overridden by exactly the fields of `p`, in closed form |
| `NoteStore.ApplyAllIsOneMerge` | lib/store/noteStore.ts:29-30 | any sequence of `setDraft` calls has the effect of one call with all the partials combined |
| `NoteStore.ApplyAllSnoc` | lib/store/noteStore.ts:29-30 | one more `setDraft` after a sequence of them is one more merge on the resulting draft |
| `NoteStore.LastWriteWins` | lib/store/noteStore.ts:29-30 | after any sequence of `setDraft` calls each field holds the value of the last partial that carried it, or its earlier value if none did |
| `NoteStore.DraftStore.constructor` | lib/store/noteStore.ts:13-28 | the store's draft starts equal to `initialDraft` = {"", "", Todo} |
| `NoteStore.DraftStore.SetDraft` | lib/store/noteStore.ts:29-30 | the new draft takes every field the partial carries and keeps every other field of the old draft |
| `NoteStore.DraftStore.ClearDraft` | lib/store/noteStore.ts:31 | the draft becomes `initialDraft` from any prior state (so clearing twice is clearing once) |
| `NoteForm.TitleErrors` | components/NoteForm/NoteForm.tsx:17-20 | the title passes exactly when its untrimmed length is from 3 to 50; "Title is required" appears exactly for the empty (absent) title, the minimum-length message exactly for a title of 1 or 2 characters, the maximum-length message exactly for one over 50 |
| `NoteForm.ContentErrors` | components/NoteForm/NoteForm.tsx:21 | the content passes exactly when its length is at most 500, so empty content passes; otherwise the one message is the maximum-length message |
| `NoteForm.TagErrors` | components/NoteForm/NoteForm.tsx:22-27 | the tag passes exactly when it is one of the five tag names; the empty (absent) tag gets exactly "Tag is required", any other non-name exactly "Invalid tag value" |
| `NoteForm.Errors` | components/NoteForm/NoteForm.tsx:16-28 | the error record has an entry for a field exactly when that field's rule fails, and the entry holds that field's failing messages |
| `NoteForm.FormValid` | components/NoteForm/NoteForm.tsx:16-28 | the values are valid exactly when all three field rules hold |
| `NoteForm.ErrorsPerField` | components/NoteForm/NoteForm.tsx:16-28 | two value records that agree on a field have the same error entry for that field, whatever their other fields hold |
| `NoteForm.InitialValuesStatus` | components/NoteForm/NoteForm.tsx:31-35 | the initial values have a valid tag (Todo) and valid content but fail the title rule, with only "Title is required" since the empty title reaches the schema as absent |
| `NoteForm.ShortTitleRejected` | components/NoteForm/NoteForm.tsx:17-20 | the title "Hi" gets exactly "Title must be at least 3 characters", and submit is disabled |
| `NoteForm.BlankTitleAccepted` | components/NoteForm/NoteForm.tsx:17-20 | a title of three spaces passes, because the length is counted without trimming |
| `NoteForm.TagSpellingMatters` | components/NoteForm/NoteForm.tsx:22-27 | "todo" is not an accepted tag: the membership check is exact |
| `NoteForm.SubmitEnabled` | components/NoteForm/NoteForm.tsx:136 | submit is enabled exactly when the values are valid and no create is pending |
| `NoteForm.Form.constructor` | components/NoteForm/NoteForm.tsx:31-35 | the form starts at the initial values, with nothing pending, nothing invalidated, nothing issued or reported |
| `NoteForm.Form.Change` | components/NoteForm/NoteForm.tsx:75-117 | editing the fields replaces the form values and keeps the invariant |
| `NoteForm.Form.Cancel` | components/NoteForm/NoteForm.tsx:126-132 | the cancel button calls `onCancel` |
| `NoteForm.Form.Submit` | components/NoteForm/NoteForm.tsx:66-69 | a submit fires exactly when the button is enabled; never while a create is pending; when it fires it issues exactly one create with the submitted values and resets the values to the initial ones; otherwise nothing changes |
| `NoteForm.Form.CreateSucceeded` | components/NoteForm/NoteForm.tsx:52-59 | a successful create is counted as a success, marks the "notes" queries stale, calls `onCancel`, and passes the returned note to `onCreated` when it is given; the form values are untouched |
| `NoteForm.Form.CreateFailed` | components/NoteForm/NoteForm.tsx:50-60 | a failed create only ends the pending state: it is not counted as a success, and nothing is invalidated, closed or reported |

## Left out

- The draft's persistence (storage key "notehub-draft", version 1, browser local storage) at lib/store/noteStore.ts:33-36: it is library I/O, not logic of the store.
- `undefined` written explicitly into a partial: an absent field is modelled as `None` only.
- Formik's timing of `isValid`. Before the first validation Formik reports an empty error record, so the button can look enabled on the untouched form. Submitting still validates first and does not call `onSubmit` when a rule fails. The model takes `isValid` to be the schema's verdict on the current values, which gives the same gating.
- Formik's touched and dirty tracking, and which single message is shown when a field fails several rules. The model keeps the set of failing messages per field.
- Lengths are counted in characters of `seq<char>`. JavaScript counts UTF-16 code units, so text outside the Basic Multilingual Plane can count differently.
- TanStack Query internals (de-duplication, refetching, stale-while-revalidate). Invalidating the `"notes"` key is the flag `notesStale`.
- The HTTP `createNote` call is abstract. Its request is appended to `requests`, and its outcome is the choice between `CreateSucceeded(note)` and `CreateFailed()`. The note's type file is not part of this model; `NoteTypes.Note` carries the fields the client passes on.
- Rendering, styles and the button labels "Creating..." / "Create note".
- Page composition and metadata (app/layout.tsx, app/not-found.tsx, components/CreateNote/CreateNotePage.tsx), and the list page's debounced search, pagination and deletion: none of it is logic of these two components.
