# Email Productivity Agent — a Dafny model

This project models the core of the Email Productivity Agent. It is a browser
application that triages a mock inbox with a hosted language model. The model
covers five parts:

- the service layer (`services/geminiService.js`). It covers the API-key check,
  the prompt templates, removal of a ```json fence, two-tier categorisation,
  action-item extraction that never fails, and the four free-text operations.
- the chat panel of an open email (`components/ChatInterface.jsx`). It covers
  intent selection by keyword, the action-item formatter, draft construction
  and the transcript, which only grows.
- the application shell (`App.jsx`). It covers the draft list, the batch pass
  over the inbox and page navigation.
- the inbox list (`components/EmailList.jsx`). It covers search, the category
  filter, the comparator and the sort, the sorted category list, the sort-order
  toggle and the category colours.
- the draft editor (`components/DraftEditor.jsx`). It covers field edits,
  adding and removing follow-ups, and saving.

The hosted model is an oracle, `Gemini.Gateway`: an optional API key and a
function from requests to responses. `JSON.parse` is a parameter
`parse: string -> Option<Json>`. `Json` keeps only what the code inspects:
falsy values, other scalars, objects with their `category` member, and arrays
of action items. A thrown error is `Err(message)` of `Types.Result`. An
undefined member is `None`. Clock readings and `uuidv4` values are parameters.

Files:

- `types.dfy`: records and categories.
- `strings.dfy`: the JavaScript string operations used.
- `gemini.dfy`: the service layer.
- `app.dfy`: the application shell.
- `chat.dfy`: the chat panel, with class `ChatPanel` holding the transcript and
  the input box.
- `email_list.dfy`: the inbox list.
- `draft_editor.dfy`: the draft editor.

`handleSendMessage` and `processEmails` change state step by step, so they are
methods proved against specification functions (`Chat.TurnOf`,
`App.Processed`). The list transforms and editor handlers build new values, so
they are functions.

## Model

| member | source | states |
|---|---|---|
| Types.CategoryName | types.js:2-10 | The value each category stands for; `CategoryNameRoundTrip` proves the seven values distinct and listed |
| Types.OrElse | components/ChatInterface.jsx:52-55 | JavaScript's logical or on two strings: the first unless it is empty; it gives the prompt fallbacks in `TurnOf` |
| Types.ParseCategory | types.js:2-10 | A string names a category exactly when it is one of the seven values, and the category found has that name |
| Types.CategoryNameRoundTrip | types.js:2-10 | The seven names are distinct members of the value list, and parsing a name gives its category back |
| Strings.Trim | services/geminiService.js:70 | `s.trim()`; specified by `TrimStart`, `TrimEnd`, `TrimIsInnerSlice`, `TrimEmptyIffBlank` and `TrimIdempotent` |
| Strings.TrimStart | services/geminiService.js:70 | `trim` drops only white space at the front; the result is a suffix starting at a non-space |
| Strings.TrimEnd | services/geminiService.js:70 | `trim` drops only white space at the back; the result is a prefix ending at a non-space |
| Strings.TrimIsInnerSlice | services/geminiService.js:70 | A trimmed string is a slice of the input with only white space around it |
| Strings.TrimEmptyIffBlank | components/ChatInterface.jsx:36 | `!s.trim()` holds exactly when every character is white space |
| Strings.TrimIdempotent | components/DraftEditor.jsx:19-22 | Trimming an already trimmed string changes nothing |
| Strings.ToLower | components/EmailList.jsx:23-25 | `toLowerCase` keeps the length and maps each character |
| Strings.ToLowerIdempotent | components/ChatInterface.jsx:49 | Lower-casing twice is lower-casing once |
| Strings.ToLowerPrefix | components/ChatInterface.jsx:49 | Lower-casing commutes with taking a prefix |
| Strings.LowerCharOrigin | components/ChatInterface.jsx:49 | A character of the lower-cased text comes from itself or its upper-case form |
| Strings.Contains | components/ChatInterface.jsx:51-92 | `s.includes(t)`; specified by `ContainsIffOccurs` (occurrence at some offset), `ContainsAt` and `ContainsAfterPrefix` |
| Strings.ContainsIffOccurs | components/ChatInterface.jsx:51 | `includes` holds exactly when the needle occurs at some offset |
| Strings.ContainsEmpty | components/EmailList.jsx:23-25 | Every string includes "" |
| Strings.ContainsAt | components/ChatInterface.jsx:51 | An occurrence at a known offset makes `includes` true |
| Strings.ContainedCharsOccur | components/ChatInterface.jsx:51-92 | Every character of an included string occurs in the containing string |
| Strings.ContainsAfterPrefix | components/ChatInterface.jsx:58-67 | Putting text in front keeps every occurrence, and the result starts with that text |
| Strings.Join | components/ChatInterface.jsx:60-67 | `xs.join(sep)`; `JoinContainsEach` proves every piece occurs in the result |
| Strings.JoinContainsEach | components/ChatInterface.jsx:60-67 | Every piece passed to `join` occurs in the joined string |
| Strings.StrLess | components/EmailList.jsx:47-48 | String `<`; the four lemmas below prove it a strict total order |
| Strings.StrLessIrreflexive | components/EmailList.jsx:47-48 | String `<` is irreflexive |
| Strings.StrLessTransitive | components/EmailList.jsx:47-48 | String `<` is transitive |
| Strings.StrLessTotal | components/EmailList.jsx:47-48 | Of two distinct strings one is `<` the other |
| Strings.StrLessAsymmetric | components/EmailList.jsx:47-48 | String `<` is asymmetric |
| Gemini.GetClient | services/geminiService.js:6-13 | A missing key, an empty key or the placeholder throws the configuration error; any other key gives a client holding exactly that key |
| Gemini.Call | services/geminiService.js:24-29 | The client check, then one oracle call; a missing text reads as ""; specified through the contracts of `GenerateText`, `SummarizeEmail`, `DraftReply` and `ChatWithEmail` |
| Gemini.ContentPrompt | services/geminiService.js:49 | The categorise, extract and summarise prompt (also lines 113 and 171); `ContentPromptParts` states its layout |
| Gemini.ContentPromptParts | services/geminiService.js:49 | The prompt is the instruction, the separator, then exactly the body; different bodies give different prompts |
| Gemini.DraftPrompt | services/geminiService.js:197 | The reply prompt; `DraftPromptOrder` states where the sender, subject and body sit |
| Gemini.DraftPromptOrder | services/geminiService.js:197 | The reply prompt holds the sender, subject and body, in that order, each right after its label |
| Gemini.FallbackPrompt | services/geminiService.js:88 | The free-text retry prompt listing the category names joined by ", " |
| Gemini.ChatPrompt | services/geminiService.js:228 | The chat message: the email body, then the user's question |
| Gemini.StripFence | services/geminiService.js:76-78 | A text starting with ```json and ending with ``` loses exactly those 7 and 3 characters; any other text is unchanged |
| Gemini.StripFenceRoundTrip | services/geminiService.js:145-147 | Stripping a fenced text gives the text back |
| Gemini.StripFenceUnfenced | services/geminiService.js:76-78 | A text without the opening fence passes unchanged |
| Gemini.FirstTier | services/geminiService.js:47-81 | The structured tier: call, trim, strip the fence, parse, None when any step throws; `FirstTierReturnedUnchecked`, `FencedReplyIsUnwrapped` and `FirstTierCanLeaveEnumeration` state its behaviour |
| Gemini.FallbackCategory | services/geminiService.js:86-100 | The retry tier: the exactly named category or Unknown; `FallbackYieldsCategory` states it |
| Gemini.Categorized | services/geminiService.js:46-101 | The value `categorizeEmail` resolves to; `CategorizeEmail` is proved equal to it and the lemmas below state its cases |
| Gemini.CategorizeEmail | services/geminiService.js:46-102 | Never fails; the structured tier's parsed value, else one free-text retry, else Unknown |
| Gemini.FallbackYieldsCategory | services/geminiService.js:83-101 | On the fallback path the result is an object with one of the seven names; it is not Unknown only when the retry's trimmed text is exactly that name |
| Gemini.FirstTierReturnedUnchecked | services/geminiService.js:80-81 | A value parsed by the first tier is returned as it is, with no membership check |
| Gemini.FirstTierCanLeaveEnumeration | services/geminiService.js:70-81 | Any unpadded, unfenced first-tier reply that parses to an object naming a string outside the enumeration is returned as it is, so the result need not be a category |
| Gemini.FencedReplyIsUnwrapped | services/geminiService.js:70-80 | A fenced structured reply is parsed without its fence |
| Gemini.Extracted | services/geminiService.js:110-160 | The items `extractActionItems` resolves to; `ExtractActionItems` is proved equal to it and `ExtractedCases` states its cases |
| Gemini.ExtractActionItems | services/geminiService.js:110-160 | Never fails; gives the parsed array, or [] on a failed call, a blank reply, a parse error or a non-array |
| Gemini.ExtractedCases | services/geminiService.js:140-158 | Gives exactly the parsed items when the reply parses to an array, and [] otherwise |
| Gemini.RequireText | services/geminiService.js:29-33 | The empty-text check shared by the four free-text operations, whose contracts state it per response |
| Gemini.GenerateText | services/geminiService.js:22-38 | Fails without a key, on a call failure, or on empty text; otherwise returns the text untrimmed |
| Gemini.SummarizeEmail | services/geminiService.js:168-186 | The summary text, the configuration error, the call's failure, or the empty-text error |
| Gemini.DraftReply | services/geminiService.js:194-212 | The reply text, the configuration error, the call's failure, or the empty-text error |
| Gemini.ChatWithEmail | services/geminiService.js:220-240 | The chat answer, the configuration error, the call's failure, or the empty-text error |
| Gemini.UnconfiguredFallbacks | services/geminiService.js:6-13 | Without a usable key, categorisation settles on Unknown and extraction on no items |
| Gemini.FreeTextNeverEmpty | services/geminiService.js:177-181 | A successful summary, reply or chat answer is never empty |
| App.AddDraft | App.jsx:47-49 | The new draft goes at the end; earlier drafts are unchanged |
| App.Merge | App.jsx:53 | `{ ...draft, ...patch }`; `MergeFullPatch` and `UpdateDraft`'s contract state its effect |
| App.FullPatch | App.jsx:139-140 | A whole draft used as the patch of a save; `SaveReplacesById` states the effect |
| App.MergeFullPatch | App.jsx:51-55 | Spreading a whole draft gives that draft; an empty patch changes nothing |
| App.UpdateDraft | App.jsx:51-55 | Same length and order; drafts with the id get the patch merged in; every other draft is unchanged |
| App.SaveReplacesById | App.jsx:139-143 | Saving an edited draft replaces each draft with its id and keeps every id in place |
| App.DeleteDraft | App.jsx:57-59 | Keeps exactly the drafts whose id differs |
| App.DeleteDraftSplits | App.jsx:57-59 | Deleting distributes over concatenation, so the survivors keep their order |
| App.DeleteAbsentId | App.jsx:57-59 | Deleting an id no draft has changes nothing |
| App.DeleteUndoesAdd | App.jsx:47-59 | Deleting a freshly added draft by its new id restores the list |
| App.DeleteDraftIdempotent | App.jsx:57-59 | Deleting twice is deleting once |
| App.Processed | App.jsx:85-111 | One email after the batch; `ProcessedStepsIsolated` states how each member depends on its own step and `ProcessEmails` is proved against it |
| App.ProcessedStepsIsolated | App.jsx:85-111 | The category depends only on categorisation and the items only on extraction; a throw gives Unknown or []; other members are kept |
| App.ProcessEmails | App.jsx:75-122 | An empty inbox gives the "nothing to process" notice; otherwise every email, in order, is categorised and then has its items extracted |
| App.SelectEmail | App.jsx:124-127 | Selects the email and shows its detail page; drafts and emails are kept |
| App.BackToInbox | App.jsx:129-132 | Clears the selection and shows the inbox |
| App.EditDraft | App.jsx:134-137 | Opens the draft in the editor |
| App.SaveEditedDraft | App.jsx:139-143 | Replaces the drafts with the id, ends editing and shows the inbox |
| App.CancelEditDraft | App.jsx:145-152 | Ends editing; returns to the selected email if there is one, else to the inbox |
| App.Navigate | App.jsx:235 | The navigation bar sets the page and keeps the emails, the selection, the drafts and the draft being edited |
| App.TransitionsKeepCoherent | App.jsx:178-200 | Every transition keeps a selected email behind the detail page and a draft behind the editor |
| Chat.Classify | components/ChatInterface.jsx:49-107 | The intent of a message; specified by `ClassifyPrecedence`, `ClassifyIgnoresCase` and the quick-query lemmas |
| Chat.ClassifyPrecedence | components/ChatInterface.jsx:49-107 | Each intent is chosen exactly when its keywords occur in the lower-cased message and no earlier intent's keywords do, so exactly one branch runs |
| Chat.ClassifyIgnoresCase | components/ChatInterface.jsx:49-104 | The intent depends on the message only up to letter case |
| Chat.Bullet | components/ChatInterface.jsx:61-66 | Each bullet is "- task", followed by " (due by d)" exactly when the deadline is truthy |
| Chat.Bullets | components/ChatInterface.jsx:60-66 | One bullet per item, in order |
| Chat.FormatActionItems | components/ChatInterface.jsx:57-67 | The reply listing the action items; specified by `FormatListsEveryItem` and `SingleTaskReply` |
| Chat.FormatListsEveryItem | components/ChatInterface.jsx:57-67 | The reply starts with the header and contains the bullet of every item |
| Chat.SingleTaskReply | components/ChatInterface.jsx:58-67 | One task with a deadline gives the header and one bullet line |
| Chat.CategoryText | components/ChatInterface.jsx:99 | `result.category` in a template literal: the member, or "undefined" when it is missing |
| Chat.CategorizedReply | components/ChatInterface.jsx:99 | The categorise reply; `CategoryTurn` states when it is given |
| Chat.ErrorReply | components/ChatInterface.jsx:124-131 | The agent message of the `catch`; `UnconfiguredFreeTextTurn` and the branch methods state when it is given |
| Chat.NewDraft | components/ChatInterface.jsx:77-88 | The draft made from a reply; `DraftTurn` states each of its fields |
| Chat.Answered | components/ChatInterface.jsx:53-106 | A free-text answer or, on a throw, the error reply |
| Chat.TurnOf | components/ChatInterface.jsx:43-131 | The reply and draft of one turn; `Respond` and the branch methods are proved equal to it and the lemmas below state its cases |
| Chat.DraftTurn | components/ChatInterface.jsx:72-91 | A draft is made exactly when the message asks for a reply and the reply call succeeds; its fields and the added note are stated |
| Chat.TasksTurn | components/ChatInterface.jsx:54-71 | A task request never errors and makes no draft; every extracted item's bullet appears; no items gives the no-items reply |
| Chat.CategoryTurn | components/ChatInterface.jsx:92-103 | A truthy result reports its category member; a falsy one gives the uncertainty reply |
| Chat.SummaryBranch | components/ChatInterface.jsx:51-53 | Reply and draft agree with `TurnOf` for a summary request |
| Chat.TasksBranch | components/ChatInterface.jsx:54-71 | Reply and draft agree with `TurnOf` for a task request |
| Chat.DraftBranch | components/ChatInterface.jsx:72-91 | Reply and draft agree with `TurnOf` for a reply request |
| Chat.CategoryBranch | components/ChatInterface.jsx:92-103 | Reply and draft agree with `TurnOf` for a categorise request |
| Chat.ChatBranch | components/ChatInterface.jsx:104-107 | Reply and draft agree with `TurnOf` for general chat |
| Chat.Respond | components/ChatInterface.jsx:43-131 | The keyword tests pick exactly one branch, in order; a thrown error becomes the error reply |
| Chat.SummarizeQuerySelectsSummary | components/ChatInterface.jsx:152 | The "Summarize" button's message is a summary request |
| Chat.TasksOpeningSelectsTasks | components/ChatInterface.jsx:51-54 | A message opening with "what tasks", in any case, with no letter z is a task request |
| Chat.DraftOpeningSelectsDraft | components/ChatInterface.jsx:51-72 | A message opening with "draft a reply", in any case, with no z, w or c is a reply request |
| Chat.TasksQueryOpening | components/ChatInterface.jsx:161 | The "What tasks" button's message opens with "what tasks" once lower-cased |
| Chat.TasksQuerySelectsTasks | components/ChatInterface.jsx:161 | The "What tasks" button's message is a task request |
| Chat.DraftQueryOpening | components/ChatInterface.jsx:171 | The reply button's message opens with "draft a reply" once lower-cased |
| Chat.DraftQueryLacks | components/ChatInterface.jsx:171 | The reply button's message holds none of the letters that start the earlier keywords |
| Chat.DraftQuerySelectsDraft | components/ChatInterface.jsx:171 | The reply button's message is a reply request |
| Chat.UnconfiguredFreeTextTurn | components/ChatInterface.jsx:124-131 | Without a key, summary, reply and chat requests give the configuration error reply and no draft |
| Chat.UnconfiguredStructuredTurn | components/ChatInterface.jsx:54-103 | Without a key, a task request finds no items and a categorise request reports Unknown |
| Chat.ChatPanel.constructor | components/ChatInterface.jsx:16-17 | The transcript and the input start empty |
| Chat.ChatPanel.SetInput | components/ChatInterface.jsx:227 | Typing replaces the input text and keeps the transcript |
| Chat.ChatPanel.AddMessage | components/ChatInterface.jsx:28-33 | Appends exactly one entry and keeps the input |
| Chat.ChatPanel.SendMessage | components/ChatInterface.jsx:35-135 | A blank message changes nothing; otherwise the user's entry, then one agent entry, are appended, the input is cleared, and a created draft is appended to the drafts |
| Chat.ChatPanel.SendInput | components/ChatInterface.jsx:35-36 | Enter or Send sends the input box's text (the default argument, lines 231 and 240): a blank input changes nothing and keeps the box; otherwise the same turn as `SendMessage` on that text |
| EmailList.Filter | components/EmailList.jsx:22-30 | `filter` keeps exactly the passing elements, each as often as before |
| EmailList.MatchesSearch | components/EmailList.jsx:22-26 | The lower-cased term occurs in the lower-cased subject, sender or body; `EmptySearchKeepsAll` and `FilteredAndSortedSpec` use it |
| EmailList.SearchFilter | components/EmailList.jsx:22-26 | The search step; `Filter`'s contract and `EmptySearchKeepsAll` state it |
| EmailList.MatchesCategory | components/EmailList.jsx:28-30 | "all" matches every email; any other value matches only emails with that category |
| EmailList.CategoryFilter | components/EmailList.jsx:28-30 | The category step; `CategoryFilterKeeps` states it |
| EmailList.FilterKeepingAll | components/EmailList.jsx:22-26 | A filter every element passes returns the list unchanged |
| EmailList.EmptySearchKeepsAll | components/EmailList.jsx:22-26 | An empty search term keeps every email in order |
| EmailList.CategoryFilterKeeps | components/EmailList.jsx:28-30 | "all" keeps every email; any other value keeps exactly the emails with that category |
| EmailList.KeyOf | components/EmailList.jsx:36-45 | The sort key: the timestamp, the lower-cased sender, or otherwise the lower-cased subject |
| EmailList.KeyLess | components/EmailList.jsx:47-48 | `<` on keys; `KeyLessStrictTotal` proves it a strict total order |
| EmailList.KeyLessStrictTotal | components/EmailList.jsx:36-48 | Key comparison is a strict total order |
| EmailList.Compare | components/EmailList.jsx:32-50 | The comparator; `CompareIsTotalPreorder` states its properties |
| EmailList.CompareIsTotalPreorder | components/EmailList.jsx:32-50 | The comparator is 0 exactly on equal keys, antisymmetric, total and transitive |
| EmailList.Insert | components/EmailList.jsx:32 | Insertion adds exactly one element |
| EmailList.SortEmails | components/EmailList.jsx:32 | The sort is a permutation |
| EmailList.InsertKeepsOrder | components/EmailList.jsx:32-50 | Inserting into an ordered list keeps it ordered |
| EmailList.SortEmailsOrders | components/EmailList.jsx:32-50 | The sorted list is ordered by the comparator and is a permutation of the input |
| EmailList.OrderedMeansKeysInOrder | components/EmailList.jsx:47-48 | In the sorted list keys ascend under "asc" and descend otherwise |
| EmailList.FilteredAndSorted | components/EmailList.jsx:21-51 | `filteredAndSortedEmails`; specified by `FilteredAndSortedSpec` |
| EmailList.FilteredAndSortedSpec | components/EmailList.jsx:21-51 | Shows exactly the emails passing both filters, none more often than in the inbox, ordered by the chosen key and direction |
| EmailList.CollectCategories | components/EmailList.jsx:53-57 | Collects each present non-empty category once |
| EmailList.InsertString | components/EmailList.jsx:58 | String insertion adds exactly one element |
| EmailList.SortStrings | components/EmailList.jsx:58 | The string sort is a permutation |
| EmailList.InsertStringAscending | components/EmailList.jsx:58 | Inserting a new string into an ascending list keeps it strictly ascending |
| EmailList.SortStringsAscending | components/EmailList.jsx:58 | Sorting distinct strings gives a strictly ascending list |
| EmailList.AllCategories | components/EmailList.jsx:53-59 | `allCategories`; specified by `AllCategoriesSpec` |
| EmailList.AllCategoriesSpec | components/EmailList.jsx:53-59 | The category list is strictly ascending and holds exactly the categories present |
| EmailList.ToggleSortOrder | components/EmailList.jsx:61-63 | The result is "asc" or "desc" and differs from a valid current order |
| EmailList.ToggleTwiceIsIdentity | components/EmailList.jsx:61-63 | Toggling twice restores a valid order |
| EmailList.CategoryColor | components/EmailList.jsx:70-80 | `getCategoryColor`; specified by `CategoryColorsDistinct` |
| EmailList.CategoryColorsDistinct | components/EmailList.jsx:70-80 | The seven categories get seven distinct colours, none the default; anything else gets the default |
| DraftEditor.Open | components/DraftEditor.jsx:6-7 | The editor starts on the given draft with an empty follow-up input |
| DraftEditor.ResetToDraft | components/DraftEditor.jsx:9-11 | A new draft replaces the edited copy; the input is kept |
| DraftEditor.SetFollowUpInput | components/DraftEditor.jsx:86 | Typing replaces the input text and nothing else |
| DraftEditor.HandleChange | components/DraftEditor.jsx:13-16 | Only the named field takes the new value; every other member is kept |
| DraftEditor.HandleChangeLaws | components/DraftEditor.jsx:13-16 | Writing a field's current value changes nothing; the last write to a field wins; writes to different fields commute |
| DraftEditor.FollowUps | components/DraftEditor.jsx:22 | The follow-up list, a missing list reading as empty (the logical-or default of line 22) |
| DraftEditor.AddFollowUp | components/DraftEditor.jsx:18-26 | A non-blank input is appended trimmed, a missing list counting as empty, and the input is cleared; a blank input changes nothing |
| DraftEditor.WithoutIndex | components/DraftEditor.jsx:31 | Filtering by index removes exactly the element at an in-range index and keeps the rest in order; an out-of-range index changes nothing |
| DraftEditor.RemoveFollowUp | components/DraftEditor.jsx:28-33 | A missing list stays missing; otherwise exactly the indexed follow-up goes; nothing else changes |
| DraftEditor.RemoveUndoesAdd | components/DraftEditor.jsx:18-33 | Removing the entry just added restores the earlier list |
| DraftEditor.AddKeepsFollowUpsClean | components/DraftEditor.jsx:18-26 | If every follow-up was non-blank and trimmed, that still holds after an add |
| DraftEditor.RemoveKeepsFollowUpsClean | components/DraftEditor.jsx:28-33 | If every follow-up was non-blank and trimmed, that still holds after a remove |
| DraftEditor.SaveDraft | components/DraftEditor.jsx:35-37 | The saved record is the edited draft with only `lastEditedAt` replaced |
| DraftEditor.SaveKeepsIdentity | components/DraftEditor.jsx:35-37 | Saving keeps the id and creation time; a later save overrides the earlier clock reading |

## Left out

- The model SDK, the network, and the choice between model names are left out. Each call is one application of `Gateway.respond`; a failure is `Failed(message)`.
- `JSON.parse` is left out. It is the parameter `parse`, and JSON values keep only the members the code reads.
- Console logging is left out, and so is the API-key instruction text printed before the configuration error.
- services/promptService.js and services/emailService.js are not part of this model. Prompts arrive as a `PromptTemplates` value and emails as a sequence.
- Concurrency between overlapping asynchronous actions is left out: one action runs to completion before the next.
- `alert`, `window.confirm` and `setTimeout` are left out. That includes the offer to jump to the editor after a draft is created, which only calls `handleEditDraft` (modelled as `App.EditDraft`).
- `uuidv4` and `new Date()` are inputs (`Chat.Stamps`, `now`). The draft's two clock readings for `createdAt` and `lastEditedAt` are modelled as one reading.
- `App.ProcessEmails` takes one gateway per email position instead of a model that changes across calls.
- The loading flags (`isLoading`, `isAgentThinking`) are left out, as are scrolling and all rendering.
- `toLowerCase` is modelled for ASCII letters only.
- String `<` and the default array sort are modelled on code points, not UTF-16 code units. They agree outside the astral planes.
- `Array.prototype.sort` is modelled as a stable insertion sort. Any sort consistent with the comparator gives the same keys in the same order.
- The `category` local of `handleSendMessage` is left out, because it is assigned and never read.
- The five prompts are taken as present strings. An absent prompt would read as "undefined" inside a template literal (services/geminiService.js:49, 197), and stored prompts are returned without filling in defaults (services/promptService.js:21).
- `Email.timestamp` is the number `new Date(timestamp).getTime()` gives. Date parsing is left out.
- Gemini.CategorizeEmail: does not promise that the result is one of the seven category names. The code returns a parsed first-tier value without checking membership, even though the response schema requests the enumeration (services/geminiService.js:62, 80-81). The model follows the code, and `Gemini.FirstTierCanLeaveEnumeration` exhibits a result outside the enumeration.
