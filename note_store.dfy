/**
 * The draft store (lib/store/noteStore.ts): one mutable draft note, replaced
 * by `setDraft` with a field-wise merge of a partial record and reset to the
 * default by `clearDraft`.
 */
module NoteStore {
  import opened Wrappers
  import opened NoteTypes

  /** The draft being composed. */
  datatype Draft = Draft(title: string, content: string, tag: Tag)

  /** A `Partial<DraftNote>`: `None` marks a field the partial does not carry. */
  datatype PartialDraft = PartialDraft(title: Option<string>, content: Option<string>, tag: Option<Tag>)

  /** The default draft the store starts from and is cleared to. */
  const InitialDraft: Draft := Draft("", "", Todo)

  /** The partial carrying no field. */
  const NoFields: PartialDraft := PartialDraft(None, None, None)

  /** A uniform view of the three fields, so that properties can quantify over them. */
  datatype Field = TitleField | ContentField | TagField
  datatype FieldValue = Text(text: string) | TagValue(tag: Tag)

  function Get(d: Draft, f: Field): FieldValue {
    match f
    case TitleField => Text(d.title)
    case ContentField => Text(d.content)
    case TagField => TagValue(d.tag)
  }

  function Carried(p: PartialDraft, f: Field): Option<FieldValue> {
    match f
    case TitleField => if p.title.Some? then Some(Text(p.title.value)) else None
    case ContentField => if p.content.Some? then Some(Text(p.content.value)) else None
    case TagField => if p.tag.Some? then Some(TagValue(p.tag.value)) else None
  }

  /**
   * The object spread `{ ...d, ...p }`: every field `p` carries takes `p`'s
   * value, every other field keeps `d`'s.
   */
  function Merge(d: Draft, p: PartialDraft): (r: Draft)
    ensures forall f :: Get(r, f) == Carried(p, f).GetOr(Get(d, f))
  {
    Draft(p.title.GetOr(d.title), p.content.GetOr(d.content), p.tag.GetOr(d.tag))
  }

  /** The spread of two partials `{ ...p, ...q }`: `q` wins where both carry a field. */
  function Combine(p: PartialDraft, q: PartialDraft): (r: PartialDraft)
    ensures forall f :: Carried(r, f) == if Carried(q, f).Some? then Carried(q, f) else Carried(p, f)
  {
    PartialDraft(if q.title.Some? then q.title else p.title,
                 if q.content.Some? then q.content else p.content,
                 if q.tag.Some? then q.tag else p.tag)
  }

  /** Merging the partial that carries nothing leaves the draft as it was. */
  lemma MergeNoFields(d: Draft)
    ensures Merge(d, NoFields) == d
  {
  }

  /** Merging the same partial a second time changes nothing. */
  lemma MergeIdempotent(d: Draft, p: PartialDraft)
    ensures Merge(Merge(d, p), p) == Merge(d, p)
  {
  }

  /** Two merges in a row are one merge of the combined partial (last write wins). */
  lemma MergeTwice(d: Draft, p: PartialDraft, q: PartialDraft)
    ensures Merge(Merge(d, p), q) == Merge(d, Combine(p, q))
  {
  }

  /** After a reset, a merge gives the default draft overridden by exactly the fields of `p`. */
  lemma MergeAfterClear(p: PartialDraft)
    ensures Merge(InitialDraft, p) == Draft(p.title.GetOr(""), p.content.GetOr(""), p.tag.GetOr(Todo))
  {
  }

  /** The draft after a sequence of `setDraft` calls, first to last. */
  function ApplyAll(d: Draft, ps: seq<PartialDraft>): Draft
    decreases |ps|
  {
    if ps == [] then d else ApplyAll(Merge(d, ps[0]), ps[1..])
  }

  /** All partials of a sequence spread into one, later ones winning. */
  function CombineAll(ps: seq<PartialDraft>): PartialDraft
    decreases |ps|
  {
    if ps == [] then NoFields else Combine(ps[0], CombineAll(ps[1..]))
  }

  /** The value the last partial carrying field `f` gives it, if any does. */
  function LastWrite(ps: seq<PartialDraft>, f: Field): Option<FieldValue>
    decreases |ps|
  {
    if ps == [] then None
    else if Carried(ps[|ps| - 1], f).Some? then Carried(ps[|ps| - 1], f)
    else LastWrite(ps[..|ps| - 1], f)
  }

  /** Any number of `setDraft` calls has the effect of one call with all the partials combined. */
  lemma {:induction false} ApplyAllIsOneMerge(d: Draft, ps: seq<PartialDraft>)
    ensures ApplyAll(d, ps) == Merge(d, CombineAll(ps))
    decreases |ps|
  {
    if ps == [] {
      MergeNoFields(d);
    } else {
      ApplyAllIsOneMerge(Merge(d, ps[0]), ps[1..]);
      MergeTwice(d, ps[0], CombineAll(ps[1..]));
    }
  }

  /** Appending one more partial to a sequence of `setDraft` calls is one more merge. */
  lemma {:induction false} ApplyAllSnoc(d: Draft, ps: seq<PartialDraft>, p: PartialDraft)
    ensures ApplyAll(d, ps + [p]) == Merge(ApplyAll(d, ps), p)
    decreases |ps|
  {
    if ps == [] {
      assert ps + [p] == [p];
    } else {
      assert (ps + [p])[1..] == ps[1..] + [p];
      ApplyAllSnoc(Merge(d, ps[0]), ps[1..], p);
    }
  }

  /**
   * Last write wins, field by field: after a sequence of `setDraft` calls each
   * field holds the value of the last partial that carried it, or its value
   * before the sequence when none did.
   */
  lemma {:induction false} LastWriteWins(d: Draft, ps: seq<PartialDraft>, f: Field)
    ensures Get(ApplyAll(d, ps), f) == LastWrite(ps, f).GetOr(Get(d, f))
    decreases |ps|
  {
    if ps != [] {
      var init, last := ps[..|ps| - 1], ps[|ps| - 1];
      assert ps == init + [last];
      ApplyAllSnoc(d, init, last);
      LastWriteWins(d, init, f);
    }
  }

  /** The store: the one draft, updated in place by its two actions. */
  class DraftStore {
    var draft: Draft

    /** The store starts at the default draft. */
    constructor ()
      ensures draft == InitialDraft
    {
      draft := InitialDraft;
    }

    /** `setDraft(partial)`: the fields `p` carries overwrite the draft's, the rest are kept. */
    method SetDraft(p: PartialDraft)
      modifies this
      ensures draft == Merge(old(draft), p)
      ensures forall f :: Get(draft, f) == Carried(p, f).GetOr(Get(old(draft), f))
    {
      draft := Merge(draft, p);
    }

    /** `clearDraft()`: back to the default draft, whatever the state before. */
    method ClearDraft()
      modifies this
      ensures draft == InitialDraft
    {
      draft := InitialDraft;
    }
  }
}
