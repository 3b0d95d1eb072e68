/** The chat panel of an open email (components/ChatInterface.jsx): intent
    selection by keyword, the action-item formatter, draft construction and the
    append-only transcript. */
module Chat {
  import opened Types
  import opened Strings
  import opened Gemini
  import opened App

  /** What a chat message asks for, in the order the keywords are tried. */
  datatype Intent = AskSummary | AskTasks | AskDraft | AskCategory | GeneralChat

  predicate MentionsSummary(lower: string) {
    Contains(lower, "summarize")
  }

  predicate MentionsTasks(lower: string) {
    Contains(lower, "what tasks") || Contains(lower, "action items")
  }

  predicate MentionsDraft(lower: string) {
    Contains(lower, "draft a reply") || Contains(lower, "write a reply")
  }

  predicate MentionsCategory(lower: string) {
    Contains(lower, "categorize this email")
  }

  /** The intent of a message: keyword tests on the lower-cased text, first match wins. */
  function Classify(message: string): Intent
  {
    var lower := ToLower(message);
    if MentionsSummary(lower) then AskSummary
    else if MentionsTasks(lower) then AskTasks
    else if MentionsDraft(lower) then AskDraft
    else if MentionsCategory(lower) then AskCategory
    else GeneralChat
  }

  /** First match wins: each intent is chosen exactly when its keywords occur in
      the lower-cased message and no earlier intent's keywords do. */
  lemma ClassifyPrecedence(message: string)
    ensures var lower := ToLower(message);
            && (Classify(message) == AskSummary <==> MentionsSummary(lower))
            && (Classify(message) == AskTasks <==> !MentionsSummary(lower) && MentionsTasks(lower))
            && (Classify(message) == AskDraft <==>
                  !MentionsSummary(lower) && !MentionsTasks(lower) && MentionsDraft(lower))
            && (Classify(message) == AskCategory <==>
                  !MentionsSummary(lower) && !MentionsTasks(lower) && !MentionsDraft(lower) && MentionsCategory(lower))
            && (Classify(message) == GeneralChat <==>
                  !MentionsSummary(lower) && !MentionsTasks(lower) && !MentionsDraft(lower) && !MentionsCategory(lower))
  {
  }

  /** Classification ignores letter case. */
  lemma ClassifyIgnoresCase(message: string)
    ensures Classify(ToLower(message)) == Classify(message)
  {
    ToLowerIdempotent(message);
  }

  const ActionItemsHeader: string := "Here are the action items I found:\n"
  const NoItemsReply: string := "I did not find any specific action items in this email."
  const DraftNote: string := "\n\nI have created a draft. You can find it in the \"Inbox & Drafts\" section."
  const UncertainReply: string := "I couldn't confidently categorize this email."

  /** One bullet line: the item's task text, with its deadline when that is truthy. */
  function Bullet(item: ActionItem): (r: string)
    ensures StartsWith(r, "- " + item.task)
    ensures item.deadline.Some? && item.deadline.value != "" ==>
              r == "- " + item.task + " (due by " + item.deadline.value + ")"
    ensures !(item.deadline.Some? && item.deadline.value != "") ==> r == "- " + item.task
  {
    var line := "- " + item.task;
    assert line + "" == line;
    line + (if item.deadline.Some? && item.deadline.value != "" then " (due by " + item.deadline.value + ")" else "")
  }

  function Bullets(items: seq<ActionItem>): (r: seq<string>)
    ensures |r| == |items| && forall k :: 0 <= k < |items| ==> r[k] == Bullet(items[k])
  {
    seq(|items|, k requires 0 <= k < |items| => Bullet(items[k]))
  }

  /** The reply listing extracted action items, one bullet per line. */
  function FormatActionItems(items: seq<ActionItem>): string {
    ActionItemsHeader + Join(Bullets(items), "\n")
  }

  /** The formatted reply starts with the header and holds the bullet of every item. */
  lemma FormatListsEveryItem(items: seq<ActionItem>, k: nat)
    requires k < |items|
    ensures StartsWith(FormatActionItems(items), ActionItemsHeader)
    ensures Contains(FormatActionItems(items), Bullet(items[k]))
  {
    JoinContainsEach(Bullets(items), "\n", k);
    ContainsAfterPrefix(ActionItemsHeader, Join(Bullets(items), "\n"), Bullet(items[k]));
  }

  /** A single task with a deadline is listed as one bullet line under the header. */
  lemma SingleTaskReply(task: string, deadline: string)
    requires deadline != ""
    ensures FormatActionItems([ActionItem(task, Some(deadline))])
            == "Here are the action items I found:\n- " + task + " (due by " + deadline + ")"
  {
    assert Bullets([ActionItem(task, Some(deadline))]) == [Bullet(ActionItem(task, Some(deadline)))];
  }

  /** The text of `result.category` in a template: the member, or "undefined". */
  function CategoryText(v: Json): string {
    match CategoryMember(v)
    case Some(c) => c
    case None => "undefined"
  }

  function CategorizedReply(category: string): string {
    "I categorized this email as: **" + category + "**."
  }

  /** The agent message that replaces the reply when a call fails. */
  function ErrorReply(message: string): string {
    "An error occurred: " + OrElse(message, "Unknown error")
    + ". Please check the console and ensure your API key is configured correctly."
  }

  /** The draft made from a reply: "Re: " subject, the reply as body, and a
      snapshot of the email's category and action items. */
  function NewDraft(e: Email, id: string, reply: string, now: string, actionItems: Option<seq<ActionItem>>): Draft {
    Draft(id, e.id, "Re: " + e.subject, reply, now, now,
          DraftMetadata(e.category, actionItems), None)
  }

  /** The result of one chat turn: the agent's message and the draft it created, if any. */
  datatype Turn = Turn(reply: string, draft: Option<Draft>)

  /** The agent message for a free-text answer: the text, or the error reply. */
  function Answered(res: Result<string>): string {
    match res
    case Ok(t) => t
    case Err(m) => ErrorReply(m)
  }

  /** Which call a turn makes and how its answer becomes the agent message. */
  function TurnOf(g: Gateway, parse: string -> Option<Json>, e: Email, prompts: PromptTemplates,
                  message: string, draftId: string, now: string): Turn
  {
    match Classify(message)
    case AskSummary =>
      Turn(Answered(SummarizeEmail(g, e.body, OrElse(prompts.summarizationPrompt, prompts.categorizationPrompt))), None)
    case AskTasks =>
      var items := Extracted(g, parse, e.body, OrElse(prompts.taskExtractionPrompt, prompts.actionItemPrompt));
      Turn(if |items| > 0 then FormatActionItems(items) else NoItemsReply, None)
    case AskDraft =>
      var res := DraftReply(g, e, prompts.autoReplyDraftPrompt);
      if res.Ok? then Turn(res.value + DraftNote, Some(NewDraft(e, draftId, res.value, now, e.actionItems)))
      else Turn(ErrorReply(res.message), None)
    case AskCategory =>
      var v := Categorized(g, parse, e.body, prompts.categorizationPrompt);
      Turn(if Truthy(v) then CategorizedReply(CategoryText(v)) else UncertainReply, None)
    case GeneralChat =>
      Turn(Answered(ChatWithEmail(g, e.body, message)), None)
  }

  /** Only a reply request creates a draft, and only when the reply call succeeds;
      the draft answers the email, holds the reply as its body and snapshots the
      email's category and action items; the note follows the reply. */
  lemma DraftTurn(g: Gateway, parse: string -> Option<Json>, e: Email, prompts: PromptTemplates,
                  message: string, draftId: string, now: string)
    ensures var t := TurnOf(g, parse, e, prompts, message, draftId, now);
            t.draft.Some? <==> Classify(message) == AskDraft && DraftReply(g, e, prompts.autoReplyDraftPrompt).Ok?
    ensures var t := TurnOf(g, parse, e, prompts, message, draftId, now);
            t.draft.Some? ==>
              var body := DraftReply(g, e, prompts.autoReplyDraftPrompt).value;
              var d := t.draft.value;
              d.id == draftId && d.originalEmailId == e.id && d.subject == "Re: " + e.subject
              && d.body == body && d.metadata.category == e.category
              && d.metadata.actionItems == e.actionItems
              && t.reply == body + DraftNote
  {
  }

  /** A task request lists the extracted items, or says there are none; it never
      reports an error. */
  lemma TasksTurn(g: Gateway, parse: string -> Option<Json>, e: Email, prompts: PromptTemplates,
                  message: string, draftId: string, now: string)
    requires Classify(message) == AskTasks
    ensures var items := Extracted(g, parse, e.body, OrElse(prompts.taskExtractionPrompt, prompts.actionItemPrompt));
            var t := TurnOf(g, parse, e, prompts, message, draftId, now);
            t.draft.None?
            && (items == [] ==> t.reply == NoItemsReply)
            && (forall k :: 0 <= k < |items| ==> Contains(t.reply, Bullet(items[k])))
  {
    var items := Extracted(g, parse, e.body, OrElse(prompts.taskExtractionPrompt, prompts.actionItemPrompt));
    forall k | 0 <= k < |items|
      ensures Contains(TurnOf(g, parse, e, prompts, message, draftId, now).reply, Bullet(items[k]))
    {
      FormatListsEveryItem(items, k);
    }
  }

  /** A categorise request reports the category member of a truthy result, and
      the uncertainty message for a falsy one. */
  lemma CategoryTurn(g: Gateway, parse: string -> Option<Json>, e: Email, prompts: PromptTemplates,
                     message: string, draftId: string, now: string)
    requires Classify(message) == AskCategory
    ensures var v := Categorized(g, parse, e.body, prompts.categorizationPrompt);
            var t := TurnOf(g, parse, e, prompts, message, draftId, now);
            t.draft.None?
            && (Truthy(v) ==> t.reply == "I categorized this email as: **" + CategoryText(v) + "**.")
            && (!Truthy(v) ==> t.reply == UncertainReply)
  {
  }

  /** The summary branch of `handleSendMessage`, with its `catch`. */
  method SummaryBranch(g: Gateway, parse: string -> Option<Json>, email: Email, prompts: PromptTemplates,
                    userMessage: string, draftId: string, now: string)
    returns (reply: string, draft: Option<Draft>)
    requires Classify(userMessage) == AskSummary
    ensures Turn(reply, draft) == TurnOf(g, parse, email, prompts, userMessage, draftId, now)
  {
    draft := None;
    var prompt := OrElse(prompts.summarizationPrompt, prompts.categorizationPrompt);
    var summary := SummarizeEmail(g, email.body, prompt);
    match summary {
      case Ok(t) => reply := t;
      case Err(m) => reply := ErrorReply(m);
    }
  }

  /** The action-item branch: extraction never throws, so there is no error reply. */
  method TasksBranch(g: Gateway, parse: string -> Option<Json>, email: Email, prompts: PromptTemplates,
                    userMessage: string, draftId: string, now: string)
    returns (reply: string, draft: Option<Draft>)
    requires Classify(userMessage) == AskTasks
    ensures Turn(reply, draft) == TurnOf(g, parse, email, prompts, userMessage, draftId, now)
  {
    draft := None;
    var prompt := OrElse(prompts.taskExtractionPrompt, prompts.actionItemPrompt);
    var extracted := ExtractActionItems(g, parse, email.body, prompt);
    match extracted {
      case Ok(items) =>
        if |items| > 0 {
          reply := FormatActionItems(items);
        } else {
          reply := NoItemsReply;
        }
      case Err(m) => reply := ErrorReply(m);
    }
  }

  /** The reply branch: builds the draft from the reply, then appends the note. */
  method DraftBranch(g: Gateway, parse: string -> Option<Json>, email: Email, prompts: PromptTemplates,
                    userMessage: string, draftId: string, now: string)
    returns (reply: string, draft: Option<Draft>)
    requires Classify(userMessage) == AskDraft
    ensures Turn(reply, draft) == TurnOf(g, parse, email, prompts, userMessage, draftId, now)
  {
    draft := None;
    var drafted := DraftReply(g, email, prompts.autoReplyDraftPrompt);
    match drafted {
      case Ok(t) =>
        reply := t;
        // `actionItems || email.actionItems`: the local is never set in this branch.
        draft := Some(NewDraft(email, draftId, reply, now, email.actionItems));
        reply := reply + DraftNote;
      case Err(m) => reply := ErrorReply(m);
    }
  }

  /** The categorise branch: categorisation never throws. */
  method CategoryBranch(g: Gateway, parse: string -> Option<Json>, email: Email, prompts: PromptTemplates,
                    userMessage: string, draftId: string, now: string)
    returns (reply: string, draft: Option<Draft>)
    requires Classify(userMessage) == AskCategory
    ensures Turn(reply, draft) == TurnOf(g, parse, email, prompts, userMessage, draftId, now)
  {
    draft := None;
    var result := CategorizeEmail(g, parse, email.body, prompts.categorizationPrompt);
    match result {
      case Ok(v) =>
        if Truthy(v) {
          reply := CategorizedReply(CategoryText(v));
        } else {
          reply := UncertainReply;
        }
      case Err(m) => reply := ErrorReply(m);
    }
  }

  /** General chat: the question goes to the model with the email as context. */
  method ChatBranch(g: Gateway, parse: string -> Option<Json>, email: Email, prompts: PromptTemplates,
                    userMessage: string, draftId: string, now: string)
    returns (reply: string, draft: Option<Draft>)
    requires Classify(userMessage) == GeneralChat
    ensures Turn(reply, draft) == TurnOf(g, parse, email, prompts, userMessage, draftId, now)
  {
    draft := None;
    var answer := ChatWithEmail(g, email.body, userMessage);
    match answer {
      case Ok(t) => reply := t;
      case Err(m) => reply := ErrorReply(m);
    }
  }

  /** The `try`/`catch` of `handleSendMessage`: the keyword tests pick exactly one branch. */
  method Respond(g: Gateway, parse: string -> Option<Json>, email: Email, prompts: PromptTemplates,
                    userMessage: string, draftId: string, now: string)
    returns (reply: string, draft: Option<Draft>)
    ensures Turn(reply, draft) == TurnOf(g, parse, email, prompts, userMessage, draftId, now)
  {
    var lower := ToLower(userMessage);
    if Contains(lower, "summarize") {
      reply, draft := SummaryBranch(g, parse, email, prompts, userMessage, draftId, now);
    } else if Contains(lower, "what tasks") || Contains(lower, "action items") {
      reply, draft := TasksBranch(g, parse, email, prompts, userMessage, draftId, now);
    } else if Contains(lower, "draft a reply") || Contains(lower, "write a reply") {
      reply, draft := DraftBranch(g, parse, email, prompts, userMessage, draftId, now);
    } else if Contains(lower, "categorize this email") {
      reply, draft := CategoryBranch(g, parse, email, prompts, userMessage, draftId, now);
    } else {
      reply, draft := ChatBranch(g, parse, email, prompts, userMessage, draftId, now);
    }
  }

  const SummarizeQuery: string := "Summarize this email."
  const TasksQuery: string := "What tasks" + " do I need to do from this email?"
  const DraftQuery: string := "Draft a reply" + " based on the tone" + " of this email."

  /** Each quick-action button sends a message that selects its own intent. */
  lemma SummarizeQuerySelectsSummary()
    ensures Classify(SummarizeQuery) == AskSummary
  {
    assert ToLower(SummarizeQuery) == "summarize this email.";
    ContainsAt(ToLower(SummarizeQuery), "summarize", 0);
  }

  /** A message opening with "what tasks", in any case, and without the letter
      z is a task request. */
  lemma TasksOpeningSelectsTasks(m: string)
    requires StartsWith(ToLower(m), "what tasks")
    requires 'z' !in m && 'Z' !in m
    ensures Classify(m) == AskTasks
  {
    var lower := ToLower(m);
    ContainsAt(lower, "what tasks", 0);
    if Contains(lower, "summarize") {
      ContainedCharsOccur(lower, "summarize", 'z');
      LowerCharOrigin(m, 'z');
    }
  }

  /** A message opening with "draft a reply", in any case, and without the
      letters z, w and c is a reply request. */
  lemma DraftOpeningSelectsDraft(m: string)
    requires StartsWith(ToLower(m), "draft a reply")
    requires 'z' !in m && 'Z' !in m && 'w' !in m && 'W' !in m && 'c' !in m && 'C' !in m
    ensures Classify(m) == AskDraft
  {
    var lower := ToLower(m);
    ContainsAt(lower, "draft a reply", 0);
    if Contains(lower, "summarize") {
      ContainedCharsOccur(lower, "summarize", 'z');
      LowerCharOrigin(m, 'z');
    }
    if Contains(lower, "what tasks") {
      ContainedCharsOccur(lower, "what tasks", 'w');
      LowerCharOrigin(m, 'w');
    }
    if Contains(lower, "action items") {
      ContainedCharsOccur(lower, "action items", 'c');
      LowerCharOrigin(m, 'c');
    }
  }

  lemma TasksQueryOpening()
    ensures StartsWith(ToLower(TasksQuery), "what tasks")
  {
    ToLowerPrefix(TasksQuery, 10);
    assert ToLower("What tasks") == "what tasks";
  }

  lemma TasksQuerySelectsTasks()
    ensures Classify(TasksQuery) == AskTasks
  {
    TasksQueryOpening();
    TasksOpeningSelectsTasks(TasksQuery);
  }

  lemma DraftQueryOpening()
    ensures StartsWith(ToLower(DraftQuery), "draft a reply")
  {
    ToLowerPrefix(DraftQuery, 13);
    assert ToLower("Draft a reply") == "draft a reply";
  }

  lemma DraftQueryLacks(c: char)
    requires c in "zZwWcC"
    ensures c !in DraftQuery
  {
  }

  lemma DraftQuerySelectsDraft()
    ensures Classify(DraftQuery) == AskDraft
  {
    DraftQueryOpening();
    DraftQueryLacks('z');
    DraftQueryLacks('Z');
    DraftQueryLacks('w');
    DraftQueryLacks('W');
    DraftQueryLacks('c');
    DraftQueryLacks('C');
    DraftOpeningSelectsDraft(DraftQuery);
  }

  /** Without a usable API key a turn still produces exactly one reply and no
      draft: the free-text requests report the configuration error... */
  lemma UnconfiguredFreeTextTurn(g: Gateway, parse: string -> Option<Json>, e: Email, prompts: PromptTemplates,
                                 message: string, draftId: string, now: string)
    requires !Configured(g)
    requires Classify(message) in {AskSummary, AskDraft, GeneralChat}
    ensures var t := TurnOf(g, parse, e, prompts, message, draftId, now);
            t.draft.None? && t.reply == ErrorReply(NotConfiguredMessage)
  {
    var failure: Result<string> := Err(NotConfiguredMessage);
    if Classify(message) == AskSummary {
      assert SummarizeEmail(g, e.body, OrElse(prompts.summarizationPrompt, prompts.categorizationPrompt)) == failure;
    } else if Classify(message) == AskDraft {
      assert DraftReply(g, e, prompts.autoReplyDraftPrompt) == failure;
    } else {
      assert ChatWithEmail(g, e.body, message) == failure;
    }
  }

  /** ...while a task request finds no items and a categorise request reports
      Unknown. */
  lemma UnconfiguredStructuredTurn(g: Gateway, parse: string -> Option<Json>, e: Email, prompts: PromptTemplates,
                                   message: string, draftId: string, now: string)
    requires !Configured(g)
    requires Classify(message) in {AskTasks, AskCategory}
    ensures var t := TurnOf(g, parse, e, prompts, message, draftId, now);
            && t.draft.None?
            && (Classify(message) == AskTasks ==> t.reply == NoItemsReply)
            && (Classify(message) == AskCategory ==> t.reply == CategorizedReply("Unknown"))
  {
    UnconfiguredFallbacks(g, parse, e.body, OrElse(prompts.taskExtractionPrompt, prompts.actionItemPrompt));
    UnconfiguredFallbacks(g, parse, e.body, prompts.categorizationPrompt);
  }

  /** Who wrote a transcript entry. */
  datatype Sender = User | Agent

  datatype ChatMessage = ChatMessage(id: string, sender: Sender, text: string, timestamp: string)

  /** Identifiers and the clock reading a turn uses (uuidv4 and toISOString). */
  datatype Stamps = Stamps(userMessageId: string, sentAt: string, agentMessageId: string, repliedAt: string,
                           draftId: string, draftAt: string)

  /** The panel's state: the transcript and the input box. */
  class ChatPanel {
    var messages: seq<ChatMessage>
    var input: string

    constructor ()
      ensures messages == [] && input == ""
    {
      messages := [];
      input := "";
    }

    /** Typing into the input box replaces its text; the transcript is kept. */
    method SetInput(text: string)
      modifies this
      ensures input == text && messages == old(messages)
    {
      input := text;
    }

    /** `addMessage`: appends one entry to the transcript. */
    method AddMessage(id: string, sender: Sender, text: string, now: string)
      modifies this
      ensures messages == old(messages) + [ChatMessage(id, sender, text, now)]
      ensures input == old(input)
    {
      messages := messages + [ChatMessage(id, sender, text, now)];
    }

    /** `handleSendMessage`: a blank message changes nothing; otherwise the user's
        message is appended, the input cleared, exactly one branch runs, and exactly
        one agent message follows (the reply or the error text). A created draft
        is appended to `drafts`. */
    method SendMessage(g: Gateway, parse: string -> Option<Json>, email: Email, prompts: PromptTemplates,
                       userMessage: string, stamps: Stamps, drafts: seq<Draft>)
      returns (newDrafts: seq<Draft>)
      modifies this
      ensures Trim(userMessage) == "" ==>
                messages == old(messages) && input == old(input) && newDrafts == drafts
      ensures Trim(userMessage) != "" ==>
                var t := TurnOf(g, parse, email, prompts, userMessage, stamps.draftId, stamps.draftAt);
                && messages == old(messages) + [ChatMessage(stamps.userMessageId, User, userMessage, stamps.sentAt)]
                                             + [ChatMessage(stamps.agentMessageId, Agent, t.reply, stamps.repliedAt)]
                && input == ""
                && newDrafts == (if t.draft.Some? then AddDraft(drafts, t.draft.value) else drafts)
    {
      newDrafts := drafts;
      if Trim(userMessage) == "" {
        return;
      }
      AddMessage(stamps.userMessageId, User, userMessage, stamps.sentAt);
      input := "";

      var reply, draft := Respond(g, parse, email, prompts, userMessage, stamps.draftId, stamps.draftAt);
      if draft.Some? {
        newDrafts := AddDraft(drafts, draft.value);
      }
      AddMessage(stamps.agentMessageId, Agent, reply, stamps.repliedAt);
    }

    /** Enter or the Send button: `handleSendMessage()` with no argument sends the
        text of the input box. A blank input leaves the box as it is. */
    method SendInput(g: Gateway, parse: string -> Option<Json>, email: Email, prompts: PromptTemplates,
                     stamps: Stamps, drafts: seq<Draft>)
      returns (newDrafts: seq<Draft>)
      modifies this
      ensures Trim(old(input)) == "" ==>
                messages == old(messages) && input == old(input) && newDrafts == drafts
      ensures Trim(old(input)) != "" ==>
                var t := TurnOf(g, parse, email, prompts, old(input), stamps.draftId, stamps.draftAt);
                && messages == old(messages) + [ChatMessage(stamps.userMessageId, User, old(input), stamps.sentAt)]
                                             + [ChatMessage(stamps.agentMessageId, Agent, t.reply, stamps.repliedAt)]
                && input == ""
                && newDrafts == (if t.draft.Some? then AddDraft(drafts, t.draft.value) else drafts)
    {
      var text := input;
      newDrafts := SendMessage(g, parse, email, prompts, text, stamps, drafts);
    }
  }
}
