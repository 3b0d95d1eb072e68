/** The records the email agent works on: the category enumeration, action items,
    emails, drafts and the five prompt templates. */
module Types {

  /** Success or a thrown error carrying its message. */
  datatype Result<+T> = Ok(value: T) | Err(message: string)

  datatype Option<+T> = None | Some(value: T) {
    function GetOr(default: T): T {
      match this
      case Some(v) => v
      case None => default
    }
  }

  /** The seven triage categories, in the order the source enumerates them. */
  datatype Category =
    | Important
    | Newsletter
    | Spam
    | ToDo
    | ProjectUpdate
    | MeetingRequest
    | Unknown

  /** The string value each category stands for. */
  function CategoryName(c: Category): string {
    match c
    case Important => "Important"
    case Newsletter => "Newsletter"
    case Spam => "Spam"
    case ToDo => "To-Do"
    case ProjectUpdate => "Project Update"
    case MeetingRequest => "Meeting Request"
    case Unknown => "Unknown"
  }

  /** The category names, in declaration order (what `Object.values(Category)` gives). */
  const CategoryNames: seq<string> :=
    ["Important", "Newsletter", "Spam", "To-Do", "Project Update", "Meeting Request", "Unknown"]

  /** The category a string names exactly, if any (an exact-match membership test). */
  function ParseCategory(s: string): (r: Option<Category>)
    ensures r.Some? <==> s in CategoryNames
    ensures r.Some? ==> CategoryName(r.value) == s
  {
    if s == "Important" then Some(Important)
    else if s == "Newsletter" then Some(Newsletter)
    else if s == "Spam" then Some(Spam)
    else if s == "To-Do" then Some(ToDo)
    else if s == "Project Update" then Some(ProjectUpdate)
    else if s == "Meeting Request" then Some(MeetingRequest)
    else if s == "Unknown" then Some(Unknown)
    else None
  }

  /** Every category has a name in the list, names are pairwise distinct, and
      parsing a name gives its category back. */
  lemma CategoryNameRoundTrip(c: Category)
    ensures CategoryName(c) in CategoryNames
    ensures ParseCategory(CategoryName(c)) == Some(c)
    ensures forall d: Category :: CategoryName(d) == CategoryName(c) ==> d == c
  {
  }

  /** An extracted task; `deadline` is None when the member is absent. */
  datatype ActionItem = ActionItem(task: string, deadline: Option<string>)

  /** An email record; `category` is None when the member is undefined. */
  datatype Email = Email(
    id: string,
    sender: string,
    subject: string,
    body: string,
    timestamp: int,
    category: Option<string>,
    actionItems: Option<seq<ActionItem>>)

  /** Snapshot of the source email taken when a draft is made. */
  datatype DraftMetadata = DraftMetadata(category: Option<string>, actionItems: Option<seq<ActionItem>>)

  datatype Draft = Draft(
    id: string,
    originalEmailId: string,
    subject: string,
    body: string,
    createdAt: string,
    lastEditedAt: string,
    metadata: DraftMetadata,
    suggestedFollowUps: Option<seq<string>>)

  /** The five editable prompts, all present; an empty prompt is "". */
  datatype PromptTemplates = PromptTemplates(
    categorizationPrompt: string,
    actionItemPrompt: string,
    autoReplyDraftPrompt: string,
    summarizationPrompt: string,
    taskExtractionPrompt: string)

  /** JavaScript's `a || b` on two strings: the first unless it is empty. */
  function OrElse(a: string, b: string): string
  {
    if a != "" then a else b
  }
}
