# insta-messenger-genie, modelled in Dafny

This is a model of the logic in the Instagram messaging assistant demo, together with proofs about it. The demo's screens run on synthetic data. The model covers:

- **The mock data generator** (`mockData.ts`).
  - It builds conversations of 3 to 15 messages and sorts each conversation's messages by instant.
  - For each conversation it derives the unread count and the latest instant.
  - It builds twelve conversations and orders them latest first.
  - It builds batches of canned AI suggestions.
  - It simulates the Instagram account API.
- **The connection hook** (`useInstagramConnection.tsx`). It covers the account, the two in-progress flags, the login dialog and the credential fields, plus the connect, disconnect and sync handlers.
- **The message thread editor** (`MessageView.tsx`).
  - Sending a draft, picking a suggestion and resetting when the conversation changes.
  - The "latest inbound message" rule.
  - The date-separator rule and the textarea height rule.
- **The custom assistant form** (`CustomGPTForm.tsx`). It covers the three minimum-length rules and the list of reference files.
- **The custom assistant list** (`CustomGPT.tsx`). It covers deletion after a confirmation, the "file"/"files" label and the empty state.
- **The messages page** (`Messages.tsx`). It picks the conversation named by the route, or redirects to the first conversation.
- **The dashboard** (`Index.tsx`). It shows the three most recent conversations and the unread total.

How the source is mapped to Dafny:

- **Random draws.** Every random choice the generator makes with faker becomes an explicit *draw* value passed in as a parameter. A draw predicate limits it to the range faker is asked for; for the message instants of `faker.date.recent({ days: 7 })` that predicate, `DrawnRecently`, also takes the moment `now` the generator runs. Only the deterministic rules around the draws are modelled.
- **Instants.** These are integers, in milliseconds since the epoch.
- **Single clock reading.** A handler that reads the clock gets it as a parameter `now`.
- **State.** The `useState` variables of a component or hook become the fields of a class. Each handler becomes a method that states the whole new state.
- **Pure rules.** The pure derivations are functions. They are related by lemmas to reference definitions (a right-folded sum, the sorted order, a filter) or to inverse operations (split/join, decimal rendering).

Modules, one per source file, plus three support modules:

| module | file | models |
|---|---|---|
| `Results` | results.dfy | `Option` and `Result` |
| `Sequences` | sequences.dfy | `filter`, `filter(...).length`, `sort` with a numeric comparator as a stable insertion sort |
| `Text` | text.dfy | `trim`, `split`/`join` on one character, UTF-16 `length`, ASCII `toLowerCase`, `toString` of a natural number |
| `MockData` | mock_data.dfy | src/services/mockData.ts |
| `InstagramConnection` | instagram_connection.dfy | src/hooks/useInstagramConnection.tsx |
| `MessageView` | message_view.dfy | src/components/messages/MessageView.tsx |
| `CustomGptForm` | custom_gpt_form.dfy | src/components/customgpt/CustomGPTForm.tsx |
| `CustomGptPage` | custom_gpt_page.dfy | src/pages/CustomGPT.tsx |
| `MessagesPage` | messages_page.dfy | src/pages/Messages.tsx |
| `IndexPage` | index_page.dfy | src/pages/Index.tsx |

## Model

| member | source | states |
|---|---|---|
| Sequences.Filter | src/services/mockData.ts:153 | `filter` keeps exactly the elements that satisfy the predicate, and never lengthens the list |
| Sequences.FilterPermutation | src/services/mockData.ts:153 | two lists that are permutations of each other have the same filtered count, so counting after the sort equals counting the drawn messages |
| Sequences.SortBy | src/services/mockData.ts:151 | `sort` with a numeric comparator yields a permutation of the input that is non-decreasing by the key |
| Sequences.SortByLastIsMaximum | src/services/mockData.ts:159 | after sorting, the last element is one of the input's and no input element has a larger key |
| Text.TrimStart | src/components/messages/MessageView.tsx:38 | drops exactly the leading whitespace: the result is a suffix, what was dropped is all whitespace, and the result does not start with whitespace |
| Text.TrimEnd | src/components/messages/MessageView.tsx:38 | the mirror image for trailing whitespace |
| Text.Trim | src/components/messages/MessageView.tsx:38 | `trim()` removes the whitespace at both ends: the result neither starts nor ends with whitespace |
| Text.TrimIsSlice | src/components/messages/MessageView.tsx:38 | `trim()` gives a slice of the string with nothing but whitespace before and after it |
| Text.TrimEmptyIffBlank | src/components/messages/MessageView.tsx:38 | `trim()` gives the empty string exactly when every character is ECMAScript whitespace |
| Text.IsBlank | src/components/messages/MessageView.tsx:38 | `!s.trim()` holds exactly for strings made only of whitespace |
| Text.Split | src/components/messages/MessageView.tsx:188 | `split('\n')` yields one more piece than there are separators |
| Text.SplitJoin | src/components/messages/MessageView.tsx:188 | joining the pieces of a split with the separator gives back the original string |
| Text.SplitPiecesLackSeparator | src/components/messages/MessageView.tsx:188 | no piece of a split contains the separator |
| Text.Utf16Length | src/components/customgpt/CustomGPTForm.tsx:13-21 | JavaScript `length` counts UTF-16 code units: between once and twice the number of characters |
| Text.LowerAscii | src/services/mockData.ts:60 | lower-casing keeps the length, turns each capital letter into its own small letter, and keeps every other character |
| Text.Decimal | src/components/messages/MessageView.tsx:41 | `toString()` of a natural number is a non-empty string of digits with no leading zero |
| Text.DecimalRoundTrip | src/components/messages/MessageView.tsx:41 | reading the digits back gives the number |
| MockData.Ordinal | src/services/mockData.ts:96 | each suggestion type sits at its own position in `types` |
| MockData.Pool | src/services/mockData.ts:99-121 | each type has its own pool of five canned texts |
| MockData.CreateMockUser | src/services/mockData.ts:57-63 | the drawn id, full name, avatar and verified flag are kept, and the user name is the drawn one lower-cased |
| MockData.CreateMockMessage | src/services/mockData.ts:65-93 | the message carries the given sender and flag and the drawn id, content, instant and read flag |
| MockData.DrawnMessages | src/services/mockData.ts:138-149 | one message per draw, in push order |
| MockData.MockConversation | src/services/mockData.ts:133-162 | a built conversation keeps the drawn id and participant, has one message per message draw, and lists them ascending by instant |
| MockData.CreateMockConversation | src/services/mockData.ts:133-162 | the push loop followed by the sort yields the conversation the draws determine |
| MockData.DrawnMessagesSenders | src/services/mockData.ts:139-146 | each pushed message has the sentinel as sender when own, and the participant otherwise |
| MockData.MockConversationMessages | src/services/mockData.ts:135-151 | a built conversation has 3 to 15 messages, and they are a permutation of the drawn ones |
| MockData.MockConversationSenders | src/services/mockData.ts:139-148 | after sorting, every message still has the sender its authorship calls for |
| MockData.MockConversationWellFormed | src/services/mockData.ts:151-160 | a built conversation is non-empty and ascending by instant; `lastMessageAt` is the last message's instant; `unreadCount` counts its unread inbound messages |
| MockData.MockConversationUnread | src/services/mockData.ts:153 | `unreadCount` equals the number of drawn messages that are neither read nor own, so it never exceeds the message count |
| MockData.MockConversationLastIsMaximum | src/services/mockData.ts:151-159 | the last message after sorting is one of the drawn messages, and no drawn message is later |
| MockData.MockConversationLatest | src/services/mockData.ts:159 | `lastMessageAt` is the largest drawn instant: no drawn instant exceeds it, and some drawn message has it |
| MockData.MockConversationLatestBounds | src/services/mockData.ts:159 | no drawn instant is later than `lastMessageAt` |
| MockData.MockConversationLatestAttained | src/services/mockData.ts:159 | some drawn message has the instant `lastMessageAt` |
| MockData.MockConversationRecent | src/services/mockData.ts:89 | when every drawn instant lies in the seven days up to now, so does every message of the conversation, and so does its `lastMessageAt` |
| MockData.MockConversationContents | src/services/mockData.ts:67-88 | when every content is drawn from the templates, every message of the conversation carries a template |
| MockData.OwnIffSentBySelf | src/services/mockData.ts:140-146 | when the participant's id is not `'self'`, a message is own exactly when its sender's id is `'self'` |
| MockData.BuiltConversations | src/services/mockData.ts:167-169 | one conversation per draw |
| MockData.BuiltConversationsWellFormed | src/services/mockData.ts:167-169 | every conversation pushed by the generator is well formed |
| MockData.LatestFirstIsDescending | src/services/mockData.ts:171 | sorting latest first gives non-increasing `lastMessageAt` |
| MockData.LatestFirstKeepsWellFormed | src/services/mockData.ts:171 | sorting latest first keeps every conversation well formed |
| MockData.LatestFirstConversations | src/services/mockData.ts:167-171 | the built conversations, sorted latest first, are all well formed |
| MockData.Analytics | src/services/mockData.ts:175-181 | the analytics fields are the draws, each within the range it is drawn from |
| MockData.GenerateMockData | src/services/mockData.ts:164-183 | exactly twelve conversations, a permutation of those built, non-increasing by `lastMessageAt`, all well formed; the analytics summary is built from the draws |
| MockData.CreateMockAISuggestion | src/services/mockData.ts:95-131 | the type comes from index 0..2; the text comes from that type's own pool; the score lies in 0.70..0.99 |
| MockData.GetAiSuggestionsForMessage | src/services/mockData.ts:189-198 | 2 to 4 suggestions, one per draw, each with a text from its type's pool; the result depends only on the draws, never on the message |
| MockData.CreateMockInstagramAccount | src/services/mockData.ts:201-210 | a new account is disconnected and never synced, its follower counts lie in their ranges, its user name is the drawn one lower-cased, and the other drawn fields are kept |
| MockData.ConnectAccount | src/services/mockData.ts:214-229 | rejects with "Invalid credentials" exactly when a credential is empty; otherwise it returns the account with the given user name, connected and synced now, and the other fields as drawn |
| MockData.DisconnectAccount | src/services/mockData.ts:231-238 | always resolves |
| MockData.SyncMessages | src/services/mockData.ts:240-247 | always resolves |
| InstagramConnection.ConnectionHook.constructor | src/hooks/useInstagramConnection.tsx:8-13 | no account, nothing in progress, dialog closed, empty credentials |
| InstagramConnection.ConnectionHook.SetUsername | src/hooks/useInstagramConnection.tsx:12 | only the user name changes |
| InstagramConnection.ConnectionHook.SetPassword | src/hooks/useInstagramConnection.tsx:13 | only the password changes |
| InstagramConnection.ConnectionHook.SetLoginDialogOpen | src/hooks/useInstagramConnection.tsx:11 | only the dialog flag changes |
| InstagramConnection.ConnectionHook.HandleOpenConnectDialog | src/hooks/useInstagramConnection.tsx:15-17 | opens the dialog and changes nothing else |
| InstagramConnection.ConnectionHook.HandleConnect | src/hooks/useInstagramConnection.tsx:19-50 | with a credential missing the state is unchanged; otherwise the account becomes the one the service returns: the drawn account under the entered user name, connected and synced now; the dialog closes, the credentials are cleared and `isConnecting` ends false; a hook with no request in flight still has none |
| InstagramConnection.ConnectionHook.HandleDisconnect | src/hooks/useInstagramConnection.tsx:52-69 | afterwards there is no account; nothing else changes, and no request is left in flight |
| InstagramConnection.ConnectionHook.HandleSync | src/hooks/useInstagramConnection.tsx:71-98 | without an account nothing changes; otherwise only `lastSynced` changes, to now, and `isSyncing` ends false, so no request is left in flight |
| InstagramConnection.ConnectSyncDisconnect | src/hooks/useInstagramConnection.tsx:15-98 | open, type, connect, sync and disconnect in turn: the account is connected under the typed name, then re-synced with every other field kept, then gone |
| MessageView.LastOtherMessage | src/components/messages/MessageView.tsx:65-67 | absent exactly when every message is own; otherwise an inbound message of the thread whose instant no inbound message exceeds |
| MessageView.OwnSendKeepsLastOther | src/components/messages/MessageView.tsx:55-67 | appending an own message leaves the latest inbound message unchanged |
| MessageView.MessageDate | src/components/messages/MessageView.tsx:74-83 | a separator precedes message 0, and message i > 0 exactly when it is more than two hours after message i - 1 |
| MessageView.Rows | src/components/messages/MessageView.tsx:188 | between 1 and 3: one more than the number of line breaks, capped at 3 |
| MessageView.OwnMessage | src/components/messages/MessageView.tsx:40-53 | the sent message carries the untrimmed draft, is own and unread, is sent by `'self'`, and is stamped now |
| MessageView.ThreadState.constructor | src/components/messages/MessageView.tsx:14-16 | no messages, empty draft, suggestions hidden |
| MessageView.ThreadState.OnConversationChange | src/components/messages/MessageView.tsx:19-27 | the thread shows the new conversation's messages, the draft is cleared and the suggestions are hidden |
| MessageView.ThreadState.SetNewMessage | src/components/messages/MessageView.tsx:181 | only the draft changes |
| MessageView.ThreadState.HandleSend | src/components/messages/MessageView.tsx:37-58 | a blank draft changes nothing; otherwise exactly one own message is appended after the unchanged earlier ones, and the draft and suggestions are cleared |
| MessageView.ThreadState.HandleSuggestionSelect | src/components/messages/MessageView.tsx:60-63 | the chosen text becomes the draft and the suggestions are hidden |
| MessageView.ThreadState.HandleGenerateSuggestions | src/components/messages/MessageView.tsx:69-72 | opens the suggestions exactly when there is an inbound message; otherwise nothing changes |
| MessageView.ThreadState.SendDisabled | src/components/messages/MessageView.tsx:194 | the send button is disabled exactly when the draft is all whitespace |
| CustomGptForm.Validate | src/components/customgpt/CustomGPTForm.tsx:12-22 | the schema reports no issue exactly when name, description and instructions are at least 3, 10 and 20 code units long |
| CustomGptForm.ValidateReportsTooShort | src/components/customgpt/CustomGPTForm.tsx:12-22 | a field is reported exactly when it is below its minimum |
| CustomGptForm.ValidateIssuesInFieldOrder | src/components/customgpt/CustomGPTForm.tsx:13-21 | each issue carries its own field's message, and the issues follow the field order, so no field is reported twice |
| CustomGptForm.Position | src/components/customgpt/CustomGPTForm.tsx:12-22 | each field sits at its own position in the schema |
| CustomGptForm.DefaultsFailEveryRule | src/components/customgpt/CustomGPTForm.tsx:34-38 | the empty defaults fail all three rules, each with its message |
| CustomGptForm.SubmittedValues | src/components/customgpt/CustomGPTForm.tsx:175 | values reach `onSubmit` exactly when the button is enabled and the schema accepts them, and then unchanged |
| CustomGptForm.WithoutIndex | src/components/customgpt/CustomGPTForm.tsx:51 | an index in range removes exactly that element and keeps the rest in order; an index out of range removes nothing |
| CustomGptForm.FormState.constructor | src/components/customgpt/CustomGPTForm.tsx:41 | no files |
| CustomGptForm.FormState.HandleFileChange | src/components/customgpt/CustomGPTForm.tsx:43-48 | the chosen files go after the existing ones, in order; without a file list nothing changes |
| CustomGptForm.FormState.RemoveFile | src/components/customgpt/CustomGPTForm.tsx:50-52 | removes exactly the file at the index (one file fewer); an index out of range changes nothing |
| CustomGptForm.RemoveAfterAppend | src/components/customgpt/CustomGPTForm.tsx:43-52 | adding files and then removing the first new one leaves the old files followed by the rest of the new ones |
| CustomGptPage.InitialCustomGpts | src/pages/CustomGPT.tsx:22-39 | two entries, with ids '1' and '2', created 3 and 7 days ago, with 2 and 5 files |
| CustomGptPage.WithoutId | src/pages/CustomGPT.tsx:43 | every entry with the id goes and every other entry stays; with no such entry the list is unchanged |
| CustomGptPage.DeleteKeepsOrder | src/pages/CustomGPT.tsx:43 | deletion distributes over concatenation, so the survivors keep their order |
| CustomGptPage.DeleteCounts | src/pages/CustomGPT.tsx:43 | deletion removes every copy of an entry with the id and keeps every copy of the others |
| CustomGptPage.DeleteFromPair | src/pages/CustomGPT.tsx:43 | deleting from a two-entry list keeps exactly the entries with another id, in order |
| CustomGptPage.DeletingOneInitialEntry | src/pages/CustomGPT.tsx:22-43 | deleting one initial assistant keeps the other; deleting an unknown id keeps both |
| CustomGptPage.DeletingInitialEntries | src/pages/CustomGPT.tsx:22-43 | deleting both initial assistants, in either order, empties the list |
| CustomGptPage.FileLabel | src/pages/CustomGPT.tsx:106 | "file" exactly when the count is 1, otherwise "files" |
| CustomGptPage.PageState.constructor | src/pages/CustomGPT.tsx:21-39 | the initial list, dialog closed |
| CustomGptPage.PageState.HandleDelete | src/pages/CustomGPT.tsx:41-46 | a confirmed deletion filters out the id; a declined one changes nothing |
| CustomGptPage.PageState.SetCreateDialogOpen | src/pages/CustomGPT.tsx:146 | only the dialog flag changes |
| CustomGptPage.PageState.ShowEmptyState | src/pages/CustomGPT.tsx:126 | the empty-state block shows exactly when the list of assistants is empty |
| CustomGptPage.DeleteEverythingShowsEmptyState | src/pages/CustomGPT.tsx:126 | the empty state is hidden at first and after a declined deletion, and shown once both assistants are deleted |
| MessagesPage.FindById | src/pages/Messages.tsx:30 | absent exactly when no conversation has the id; otherwise the first conversation with it |
| MessagesPage.PageState.constructor | src/pages/Messages.tsx:14-15 | nothing selected, loading |
| MessagesPage.PageState.RedirectToFirst | src/pages/Messages.tsx:24-26 | a redirect exists exactly when the list is non-empty, and leads to the first conversation's thread |
| MessagesPage.PageState.OnRouteChange | src/pages/Messages.tsx:17-43 | loading ends; a known id is selected with no navigation; no id, or an unknown one, keeps the selection and redirects to the first conversation if there is one |
| MessagesPage.PageState.HandleSelectConversation | src/pages/Messages.tsx:45-47 | sets the selection |
| MessagesPage.PageState.View | src/pages/Messages.tsx:69-89 | the skeleton while loading, else the selected conversation's thread, else the placeholder |
| MessagesPage.RedirectIsFound | src/pages/Messages.tsx:25-30 | the redirect target's id finds the first conversation |
| MessagesPage.EmptyListNeverRedirects | src/pages/Messages.tsx:21-37 | with no conversations, no route id leads to a redirect, and the placeholder is shown |
| MessagesPage.LandThenFollowRedirect | src/pages/Messages.tsx:24-33 | landing on the bare path and following the redirect shows the first conversation, with no further redirect |
| IndexPage.RecentConversations | src/pages/Index.tsx:33 | the first min(3, n) conversations, in order |
| IndexPage.SumUnreadFrom | src/pages/Index.tsx:34 | the left fold never goes below its start value |
| IndexPage.TotalUnread | src/pages/Index.tsx:34 | the total is non-negative |
| IndexPage.FoldIsSum | src/pages/Index.tsx:34 | the left fold from a start value is that value plus the reference sum |
| IndexPage.TotalUnreadIsSum | src/pages/Index.tsx:34 | `totalUnread` equals the sum of every `unreadCount` |
| IndexPage.SumAppend | src/pages/Index.tsx:34 | the reference sum is additive over concatenation |
| IndexPage.TotalUnreadAppend | src/pages/Index.tsx:34 | the total over two lists together is the sum of their totals |
| IndexPage.SumPositiveIff | src/pages/Index.tsx:34 | the reference sum is positive exactly when some count is positive |
| IndexPage.TotalUnreadPositiveIff | src/pages/Index.tsx:34 | the total is positive exactly when some conversation has unread messages |
| IndexPage.ShowUnreadChip | src/pages/Index.tsx:80 | the unread chip is shown exactly when some conversation has unread messages |
| IndexPage.RecentAreLatest | src/pages/Index.tsx:33 | on the twelve conversations sorted latest first, the preview is the first three and none of the others is later |

## Left out

- Random draws: faker's uuids, names, avatars, user names, template choices, booleans and ranges are parameters. Their distributions are not modelled, for example the 0.4 share of own messages and the 0.7 share of read ones.
- MockData.CreateMockMessage: the content is taken from the draw rather than picked from the template list inside the function. That the content is a template is a separate lemma (MockData.MockConversationContents), under the draw predicate `DrawnFromTemplates`.
- MockData.GenerateMockData: does not restate that every message content is a template; MockData.MockConversationContents states it for each conversation.
- Sequences.SortBy: sorting is a stable insertion sort, but its stability is not proved. Only the order by key and the permutation are stated.
- Floating point: suggestion scores and the analytics ratios are two-decimal numbers in the source. Here they are integer hundredths, without the `toFixed` rounding.
- `Date`: instants are integer milliseconds. `formatRelative` and the other date labels are not modelled; MessageView.MessageDate returns the instant the label would be made from.
- Clock: `new Date()` and `Date.now()` are a parameter `now`. One handler run reads one instant, so the id and the timestamp of a sent message come from the same reading.
- Timers and promises: the delays of the simulated API, the 500 ms delay of the messages page effect and its `clearTimeout` cleanup are not modelled. Every handler runs to completion before the next one starts, and handler runs never overlap.
- The `catch` branches of the hook's handlers are not modelled as reachable. The simulated API cannot reject once the handler's guard holds, and the model proves this.
- Toasts, `console.log`, scrolling into view and every piece of rendering and styling are not modelled. The analytics page and its charts are not part of this model.
- `confirm` is a boolean parameter of CustomGptPage.PageState.HandleDelete. `navigate` is the path that MessagesPage.PageState.OnRouteChange returns. React's re-running of the effect after a navigation is spelt out in MessagesPage.LandThenFollowRedirect.
- zod, react-hook-form and the resolver: only the three minimum-length rules and the gate in front of `onSubmit` are modelled (CustomGptForm.SubmittedValues). The empty-field error rendering is not modelled.
- Text.LowerAscii: `toLowerCase` is modelled for ASCII letters only. Other scripts are left unchanged.
- Text.Utf16Length: Dafny strings hold Unicode scalar values, so a lone surrogate, which JavaScript allows, cannot be represented.
- The `File` objects of the form carry only a name and a size. The kilobyte label is not modelled.
- `handleUse` on the assistant list only shows a toast, and it is not modelled.
- `CreateCustomGPTDialog` sets its submitting flag, waits, shows a toast, resets the flag, closes the dialog through `onOpenChange(false)` and navigates to `/customgpt`. It is not part of this model.
