/** Session state of the application shell (App.jsx): the draft list
    operations, the batch pass that categorises every email and extracts its
    action items, and the page navigation. */
module App {
  import opened Types
  import opened Gemini

  // ----- Draft list -----

  /** `addDraft`: the new draft goes at the end. */
  function AddDraft(drafts: seq<Draft>, d: Draft): (r: seq<Draft>)
    ensures |r| == |drafts| + 1 && r[..|drafts|] == drafts && r[|drafts|] == d
  {
    drafts + [d]
  }

  /** A partial draft as object spread sees it: None for a member the patch lacks.
      `suggestedFollowUps` may be present with the value undefined, hence two Options. */
  datatype DraftPatch = DraftPatch(
    id: Option<string>,
    originalEmailId: Option<string>,
    subject: Option<string>,
    body: Option<string>,
    createdAt: Option<string>,
    lastEditedAt: Option<string>,
    metadata: Option<DraftMetadata>,
    suggestedFollowUps: Option<Option<seq<string>>>)

  /** `{ ...d, ...p }`: every member the patch has wins. */
  function Merge(d: Draft, p: DraftPatch): Draft {
    Draft(
      p.id.GetOr(d.id),
      p.originalEmailId.GetOr(d.originalEmailId),
      p.subject.GetOr(d.subject),
      p.body.GetOr(d.body),
      p.createdAt.GetOr(d.createdAt),
      p.lastEditedAt.GetOr(d.lastEditedAt),
      p.metadata.GetOr(d.metadata),
      p.suggestedFollowUps.GetOr(d.suggestedFollowUps))
  }

  /** A whole draft used as a patch. */
  function FullPatch(d: Draft): DraftPatch {
    DraftPatch(Some(d.id), Some(d.originalEmailId), Some(d.subject), Some(d.body),
               Some(d.createdAt), Some(d.lastEditedAt), Some(d.metadata), Some(d.suggestedFollowUps))
  }

  /** Spreading a whole draft over any draft gives that whole draft; an empty
      patch changes nothing. */
  lemma MergeFullPatch(base: Draft, d: Draft)
    ensures Merge(base, FullPatch(d)) == d
    ensures Merge(base, DraftPatch(None, None, None, None, None, None, None, None)) == base
  {
  }

  /** `updateDraft`: the patch is merged into every draft with the id; the list
      keeps its length and order and every other draft. */
  function UpdateDraft(drafts: seq<Draft>, id: string, p: DraftPatch): (r: seq<Draft>)
    ensures |r| == |drafts|
    ensures forall i :: 0 <= i < |drafts| && drafts[i].id != id ==> r[i] == drafts[i]
    ensures forall i :: 0 <= i < |drafts| && drafts[i].id == id ==> r[i] == Merge(drafts[i], p)
  {
    seq(|drafts|, i requires 0 <= i < |drafts| => if drafts[i].id == id then Merge(drafts[i], p) else drafts[i])
  }

  /** Saving an edited draft (a whole draft patched under its own id) puts it in
      place of each draft with that id and keeps every id where it was. */
  lemma SaveReplacesById(drafts: seq<Draft>, d: Draft)
    ensures var r := UpdateDraft(drafts, d.id, FullPatch(d));
            (forall i :: 0 <= i < |r| ==> r[i].id == drafts[i].id)
            && (forall i :: 0 <= i < |r| && drafts[i].id == d.id ==> r[i] == d)
  {
  }

  /** `deleteDraft`: keeps, in order, the drafts whose id differs. */
  function DeleteDraft(drafts: seq<Draft>, id: string): (r: seq<Draft>)
    ensures |r| <= |drafts|
    ensures forall x :: x in r <==> x in drafts && x.id != id
  {
    if drafts == [] then []
    else if drafts[0].id == id then DeleteDraft(drafts[1..], id)
    else [drafts[0]] + DeleteDraft(drafts[1..], id)
  }

  /** Deleting distributes over concatenation: the survivors keep their relative order. */
  lemma {:induction false} DeleteDraftSplits(a: seq<Draft>, b: seq<Draft>, id: string)
    ensures DeleteDraft(a + b, id) == DeleteDraft(a, id) + DeleteDraft(b, id)
  {
    if a != [] {
      assert (a + b)[1..] == a[1..] + b;
      DeleteDraftSplits(a[1..], b, id);
    } else {
      assert a + b == b;
    }
  }

  /** Deleting an id no draft has changes nothing. */
  lemma {:induction false} DeleteAbsentId(drafts: seq<Draft>, id: string)
    requires forall x :: x in drafts ==> x.id != id
    ensures DeleteDraft(drafts, id) == drafts
  {
    if drafts != [] {
      assert drafts[0] in drafts;
      assert forall x :: x in drafts[1..] ==> x in drafts;
      DeleteAbsentId(drafts[1..], id);
      assert drafts == [drafts[0]] + drafts[1..];
    }
  }

  /** Deleting a freshly added draft by its (new) id restores the list. */
  lemma DeleteUndoesAdd(drafts: seq<Draft>, d: Draft)
    requires forall x :: x in drafts ==> x.id != d.id
    ensures DeleteDraft(AddDraft(drafts, d), d.id) == drafts
  {
    DeleteDraftSplits(drafts, [d], d.id);
    DeleteAbsentId(drafts, d.id);
    assert DeleteDraft([d], d.id) == DeleteDraft([d][1..], d.id);
    assert [d][1..] == [];
  }

  /** Deleting twice is deleting once. */
  lemma DeleteDraftIdempotent(drafts: seq<Draft>, id: string)
    ensures DeleteDraft(DeleteDraft(drafts, id), id) == DeleteDraft(drafts, id)
  {
    DeleteAbsentId(DeleteDraft(drafts, id), id);
  }

  // ----- Batch processing -----

  /** The alert the batch ends with. */
  datatype Notice = NothingToProcess | ProcessedAll

  /** One email after the batch: the category is replaced from a truthy response
      (possibly by an undefined member), set to Unknown when categorisation threw,
      and otherwise kept; the action items become the response, or [] when
      extraction threw. Every other member is copied. */
  function Processed(e: Email, categoryResponse: Result<Json>, itemsResponse: Result<seq<ActionItem>>): Email {
    var category :=
      match categoryResponse
      case Ok(v) => if Truthy(v) then CategoryMember(v) else e.category
      case Err(_) => Some(CategoryName(Unknown));
    // An array is always truthy, so `actionItemsResponse || []` is the response itself.
    var items :=
      match itemsResponse
      case Ok(xs) => Some(xs)
      case Err(_) => Some([]);
    e.(category := category, actionItems := items)
  }

  /** The two steps are isolated: the category depends only on the categorisation
      response and the action items only on the extraction response; the other
      members are unchanged. */
  lemma ProcessedStepsIsolated(e: Email, c1: Result<Json>, c2: Result<Json>,
                               i1: Result<seq<ActionItem>>, i2: Result<seq<ActionItem>>)
    ensures Processed(e, c1, i1).actionItems == Processed(e, c2, i1).actionItems
    ensures Processed(e, c1, i1).category == Processed(e, c1, i2).category
    ensures var p := Processed(e, c1, i1);
            p.id == e.id && p.sender == e.sender && p.subject == e.subject
            && p.body == e.body && p.timestamp == e.timestamp
    ensures c1.Err? ==> Processed(e, c1, i1).category == Some("Unknown")
    ensures i1.Err? ==> Processed(e, c1, i1).actionItems == Some([])
  {
  }

  /** `processEmails`: nothing to do on an empty inbox; otherwise every email,
      in order, is categorised and then has its action items extracted, each step
      with its own fallback. `gateway(i)` is the model as the i-th email sees it. */
  method ProcessEmails(emails: seq<Email>, prompts: PromptTemplates, parse: string -> Option<Json>,
                       gateway: nat -> Gateway)
    returns (r: seq<Email>, notice: Notice)
    ensures emails == [] ==> notice == NothingToProcess && r == emails
    ensures emails != [] ==> notice == ProcessedAll
    ensures |r| == |emails|
    ensures forall i :: 0 <= i < |emails| ==>
              r[i] == Processed(emails[i],
                                Ok(Categorized(gateway(i), parse, emails[i].body, prompts.categorizationPrompt)),
                                Ok(Extracted(gateway(i), parse, emails[i].body, prompts.actionItemPrompt)))
  {
    if |emails| == 0 {
      return emails, NothingToProcess;
    }
    var processedEmails: seq<Email> := [];
    for i := 0 to |emails|
      invariant |processedEmails| == i
      invariant forall k :: 0 <= k < i ==>
                  processedEmails[k] == Processed(emails[k],
                    Ok(Categorized(gateway(k), parse, emails[k].body, prompts.categorizationPrompt)),
                    Ok(Extracted(gateway(k), parse, emails[k].body, prompts.actionItemPrompt)))
    {
      var email := emails[i];
      var updatedEmail := email;

      // 1. Categorisation
      var categoryResponse := CategorizeEmail(gateway(i), parse, email.body, prompts.categorizationPrompt);
      match categoryResponse {
        case Ok(v) =>
          if Truthy(v) {
            updatedEmail := updatedEmail.(category := CategoryMember(v));
          }
        case Err(_) =>
          updatedEmail := updatedEmail.(category := Some(CategoryName(Unknown)));
      }

      // 2. Action-item extraction
      var itemsResponse := ExtractActionItems(gateway(i), parse, email.body, prompts.actionItemPrompt);
      match itemsResponse {
        case Ok(items) =>
          updatedEmail := updatedEmail.(actionItems := Some(items));
        case Err(_) =>
          updatedEmail := updatedEmail.(actionItems := Some([]));
      }
      assert updatedEmail == Processed(email, categoryResponse, itemsResponse);
      processedEmails := processedEmails + [updatedEmail];
    }
    return processedEmails, ProcessedAll;
  }

  // ----- Navigation -----

  datatype Page = InboxPage | EmailDetailPage | DraftEditorPage | PromptBrainPage

  /** The shell's state: current page, loaded emails, selected email, drafts and
      the draft being edited. */
  datatype Session = Session(
    page: Page,
    emails: seq<Email>,
    selected: Option<Email>,
    drafts: seq<Draft>,
    editing: Option<Draft>)

  const InitialSession: Session := Session(InboxPage, [], None, [], None)

  /** The detail page always has an email to show and the editor a draft to edit. */
  predicate Coherent(s: Session) {
    (s.page == EmailDetailPage ==> s.selected.Some?)
    && (s.page == DraftEditorPage ==> s.editing.Some?)
  }

  /** `handleEmailSelect`. */
  function SelectEmail(s: Session, e: Email): (r: Session)
    ensures r.page == EmailDetailPage && r.selected == Some(e)
    ensures r.emails == s.emails && r.drafts == s.drafts && r.editing == s.editing
  {
    s.(selected := Some(e), page := EmailDetailPage)
  }

  /** `handleBackToInbox`. */
  function BackToInbox(s: Session): (r: Session)
    ensures r.page == InboxPage && r.selected == None
    ensures r.emails == s.emails && r.drafts == s.drafts && r.editing == s.editing
  {
    s.(selected := None, page := InboxPage)
  }

  /** `handleEditDraft`. */
  function EditDraft(s: Session, d: Draft): (r: Session)
    ensures r.page == DraftEditorPage && r.editing == Some(d)
    ensures r.emails == s.emails && r.drafts == s.drafts && r.selected == s.selected
  {
    s.(editing := Some(d), page := DraftEditorPage)
  }

  /** `handleSaveEditedDraft`: the edited draft replaces the drafts with its id,
      editing ends and the inbox is shown. */
  function SaveEditedDraft(s: Session, d: Draft): (r: Session)
    ensures r.page == InboxPage && r.editing == None
    ensures r.drafts == UpdateDraft(s.drafts, d.id, FullPatch(d))
    ensures r.emails == s.emails && r.selected == s.selected
  {
    s.(drafts := UpdateDraft(s.drafts, d.id, FullPatch(d)), editing := None, page := InboxPage)
  }

  /** `handleCancelEditDraft`: back to the selected email if there is one, else the inbox. */
  function CancelEditDraft(s: Session): (r: Session)
    ensures r.editing == None
    ensures r.page == (if s.selected.Some? then EmailDetailPage else InboxPage)
    ensures r.emails == s.emails && r.drafts == s.drafts && r.selected == s.selected
  {
    s.(editing := None, page := if s.selected.Some? then EmailDetailPage else InboxPage)
  }

  /** The navigation bar sets the page directly, to the inbox or the prompt panel. */
  function Navigate(s: Session, p: Page): (r: Session)
    requires p == InboxPage || p == PromptBrainPage
    ensures r.page == p && r.selected == s.selected && r.editing == s.editing
    ensures r.emails == s.emails && r.drafts == s.drafts
  {
    s.(page := p)
  }

  /** Every transition keeps the session coherent, starting from the initial one. */
  lemma TransitionsKeepCoherent(s: Session, e: Email, d: Draft, p: Page)
    requires Coherent(s)
    ensures Coherent(InitialSession)
    ensures Coherent(SelectEmail(s, e)) && Coherent(BackToInbox(s)) && Coherent(EditDraft(s, d))
    ensures Coherent(SaveEditedDraft(s, d)) && Coherent(CancelEditDraft(s))
    ensures p == InboxPage || p == PromptBrainPage ==> Coherent(Navigate(s, p))
  {
  }
}
