/** The draft editor: the draft being edited plus the text of the follow-up input.
    Every handler builds a new record from the previous one; nothing is updated in place. */
module DraftEditor {
  import opened Types
  import opened Strings

  /** `editedDraft` and `newFollowUp`, the editor's two pieces of state. */
  datatype Editor = Editor(edited: Draft, newFollowUp: string)

  /** The editor as first shown: a copy of the draft and an empty input. */
  function Open(d: Draft): (r: Editor)
    ensures r.edited == d && r.newFollowUp == ""
  {
    Editor(d, "")
  }

  /** A new draft handed to the editor replaces the edited copy; the input is kept. */
  function ResetToDraft(ed: Editor, d: Draft): (r: Editor)
    ensures r.edited == d && r.newFollowUp == ed.newFollowUp
  {
    ed.(edited := d)
  }

  /** Typing into the follow-up input replaces its text and nothing else. */
  function SetFollowUpInput(ed: Editor, text: string): (r: Editor)
    ensures r.edited == ed.edited && r.newFollowUp == text
  {
    ed.(newFollowUp := text)
  }

  /** The two inputs that carry a `name`: the subject line and the body. */
  datatype Field = Subject | Body

  /** Writes `value` into the named field; every other field of the draft is kept. */
  function HandleChange(ed: Editor, field: Field, value: string): (r: Editor)
    ensures r.newFollowUp == ed.newFollowUp
    ensures r.edited.subject == (if field == Subject then value else ed.edited.subject)
    ensures r.edited.body == (if field == Body then value else ed.edited.body)
    ensures r.edited.id == ed.edited.id && r.edited.originalEmailId == ed.edited.originalEmailId
    ensures r.edited.createdAt == ed.edited.createdAt && r.edited.lastEditedAt == ed.edited.lastEditedAt
    ensures r.edited.metadata == ed.edited.metadata
    ensures r.edited.suggestedFollowUps == ed.edited.suggestedFollowUps
  {
    match field
    case Subject => ed.(edited := ed.edited.(subject := value))
    case Body => ed.(edited := ed.edited.(body := value))
  }

  /** Writing a field's current value changes nothing; a second write to the same
      field overrides the first; writes to different fields commute. */
  lemma HandleChangeLaws(ed: Editor, f: Field, g: Field, v: string, w: string)
    ensures HandleChange(ed, Subject, ed.edited.subject) == ed
    ensures HandleChange(ed, Body, ed.edited.body) == ed
    ensures HandleChange(HandleChange(ed, f, v), f, w) == HandleChange(ed, f, w)
    ensures f != g ==> HandleChange(HandleChange(ed, f, v), g, w) == HandleChange(HandleChange(ed, g, w), f, v)
  {
  }

  /** The follow-ups as a list; a missing list reads as empty. */
  function FollowUps(d: Draft): seq<string> {
    d.suggestedFollowUps.GetOr([])
  }

  /** Adds the trimmed input at the end of the follow-ups and clears the input, but
      only when the trimmed input is non-blank; otherwise the editor is unchanged. */
  function AddFollowUp(ed: Editor): (r: Editor)
    ensures Trim(ed.newFollowUp) == "" ==> r == ed
    ensures Trim(ed.newFollowUp) != "" ==>
              r.newFollowUp == ""
              && r.edited.suggestedFollowUps == Some(FollowUps(ed.edited) + [Trim(ed.newFollowUp)])
              && r.edited == ed.edited.(suggestedFollowUps := r.edited.suggestedFollowUps)
  {
    var t := Trim(ed.newFollowUp);
    if t != "" then
      Editor(ed.edited.(suggestedFollowUps := Some(FollowUps(ed.edited) + [t])), "")
    else
      ed
  }

  /** `filter((_, i) => i !== index)` on a list: keeps every element whose position
      differs from `index`. */
  function WithoutIndex(xs: seq<string>, index: int): (r: seq<string>)
    ensures 0 <= index < |xs| ==> r == xs[..index] + xs[index + 1..]
    ensures !(0 <= index < |xs|) ==> r == xs
    decreases |xs|
  {
    if |xs| == 0 then []
    else
      var rest := WithoutIndex(xs[1..], index - 1);
      if index == 0 then rest else [xs[0]] + rest
  }

  /** Removes the follow-up at `index`; a missing list stays missing. */
  function RemoveFollowUp(ed: Editor, index: int): (r: Editor)
    ensures r.newFollowUp == ed.newFollowUp
    ensures ed.edited.suggestedFollowUps.None? ==> r == ed
    ensures ed.edited.suggestedFollowUps.Some? ==>
              var xs := ed.edited.suggestedFollowUps.value;
              r.edited.suggestedFollowUps.Some?
              && (0 <= index < |xs| ==> r.edited.suggestedFollowUps.value == xs[..index] + xs[index + 1..])
              && (!(0 <= index < |xs|) ==> r == ed)
    ensures r.edited == ed.edited.(suggestedFollowUps := r.edited.suggestedFollowUps)
  {
    match ed.edited.suggestedFollowUps
    case None => ed
    case Some(xs) => ed.(edited := ed.edited.(suggestedFollowUps := Some(WithoutIndex(xs, index))))
  }

  /** Removing the entry just added gives back the earlier list (a missing one as empty),
      and leaves the input cleared. */
  lemma RemoveUndoesAdd(ed: Editor)
    requires Trim(ed.newFollowUp) != ""
    ensures var r := RemoveFollowUp(AddFollowUp(ed), |FollowUps(ed.edited)|);
            r.edited == ed.edited.(suggestedFollowUps := Some(FollowUps(ed.edited)))
            && r.newFollowUp == ""
  {
    var xs := FollowUps(ed.edited);
    var ys := xs + [Trim(ed.newFollowUp)];
    assert ys[..|xs|] + ys[|xs| + 1..] == xs;
  }

  /** Every follow-up is non-blank and already trimmed. */
  predicate FollowUpsClean(d: Draft) {
    forall k :: 0 <= k < |FollowUps(d)| ==> FollowUps(d)[k] != "" && Trim(FollowUps(d)[k]) == FollowUps(d)[k]
  }

  /** Adding a follow-up keeps the follow-ups clean: only a non-blank trimmed text is added. */
  lemma AddKeepsFollowUpsClean(ed: Editor)
    requires FollowUpsClean(ed.edited)
    ensures FollowUpsClean(AddFollowUp(ed).edited)
  {
    TrimIdempotent(ed.newFollowUp);
    var t := Trim(ed.newFollowUp);
    if t != "" {
      var xs := FollowUps(ed.edited);
      var ys := FollowUps(AddFollowUp(ed).edited);
      assert ys == xs + [t];
      forall k | 0 <= k < |ys|
        ensures ys[k] != "" && Trim(ys[k]) == ys[k]
      {
        if k < |xs| { assert ys[k] == xs[k]; }
      }
    }
  }

  /** Removing a follow-up keeps the follow-ups clean. */
  lemma RemoveKeepsFollowUpsClean(ed: Editor, index: int)
    requires FollowUpsClean(ed.edited)
    ensures FollowUpsClean(RemoveFollowUp(ed, index).edited)
  {
    var xs := FollowUps(ed.edited);
    var ys := FollowUps(RemoveFollowUp(ed, index).edited);
    if ed.edited.suggestedFollowUps.Some? && 0 <= index < |xs| {
      assert ys == xs[..index] + xs[index + 1..];
      forall k | 0 <= k < |ys|
        ensures ys[k] != "" && Trim(ys[k]) == ys[k]
      {
        assert ys[k] == if k < index then xs[k] else xs[k + 1];
      }
    }
  }

  /** The record passed to `onSave`: the edited draft with `lastEditedAt` set to `now`. */
  function SaveDraft(ed: Editor, now: string): (r: Draft)
    ensures r.lastEditedAt == now
    ensures r.(lastEditedAt := ed.edited.lastEditedAt) == ed.edited
  {
    ed.edited.(lastEditedAt := now)
  }

  /** Saving keeps the draft's identity and creation time, so the saved record
      replaces the draft it was opened from; only the last save's clock counts. */
  lemma SaveKeepsIdentity(d: Draft, ed: Editor, now: string, later: string)
    requires ed.edited.id == d.id
    ensures SaveDraft(ed, now).id == d.id && SaveDraft(ed, now).createdAt == ed.edited.createdAt
    ensures SaveDraft(Open(SaveDraft(ed, now)), later) == SaveDraft(ed, later)
  {
  }
}
