/** The synthetic data generator and the simulated Instagram API
    (src/services/mockData.ts). Every random draw the generator makes is an
    explicit "draw" parameter here; only the deterministic rules around the
    draws are modelled. Instants (`Date`) are milliseconds since the epoch. */
module MockData {
  import opened Results
  import opened Sequences
  import Text

  datatype User = User(id: string, name: string, username: string, avatar: string, isVerified: bool)

  datatype Message = Message(id: string, sender: User, content: string, timestamp: int, read: bool, isOwn: bool)

  datatype Conversation = Conversation(
    id: string,
    participant: User,
    messages: seq<Message>,
    lastMessageAt: int,
    unreadCount: nat)

  datatype SuggestionType = Simple | Question | FollowUp

  /** `score` is a two-decimal number in the source; it is kept here as an
      integer count of hundredths. */
  datatype AISuggestion = AISuggestion(id: string, text: string, kind: SuggestionType, scoreHundredths: int)

  /** The three ratios are two-decimal numbers in the source, kept here as
      integer hundredths. */
  datatype AnalyticsSummary = AnalyticsSummary(
    totalMessages: int,
    responseRateHundredths: int,
    averageResponseTime: int,
    engagementScoreHundredths: int,
    messageGrowthHundredths: int)

  datatype InstagramAccount = InstagramAccount(
    id: string,
    username: string,
    avatar: string,
    fullName: string,
    followers: int,
    following: int,
    isConnected: bool,
    lastSynced: Option<int>)

  /** The sender identity of every message the local user writes. */
  const SelfUser := User("self", "Me", "me", "/placeholder.svg", false)

  /** How many conversations the generator builds. */
  const ConversationCount := 12

  const MessageTemplates: seq<string> := [
    "Hey, how are you doing today?",
    "Did you see that new post?",
    "Thanks for your help yesterday!",
    "What time are we meeting tomorrow?",
    "I just sent you the file you requested.",
    "Can we reschedule our call?",
    "Looking forward to working with you.",
    "Let me know when you're available to chat.",
    "I really liked your recent photos!",
    "Have you checked out that new restaurant?",
    "Just got back from vacation, it was amazing!",
    "Sorry for the late reply, I've been busy.",
    "Are you coming to the event this weekend?",
    "Could you give me some feedback on my latest post?",
    "I'd like to collaborate with you on a project."
  ]

  /** The suggestion types in the order the generator indexes them. */
  const SuggestionTypes: seq<SuggestionType> := [Simple, Question, FollowUp]

  /** `suggestionsByType`: the canned texts, one row per suggestion type in
      the order of `SuggestionTypes`. */
  const SuggestionsByType: seq<seq<string>> := [
    [ "Thanks for reaching out!",
      "I appreciate your message.",
      "Great to hear from you!",
      "Thanks for sharing that with me.",
      "I understand what you mean." ],
    [ "When would be a good time to discuss this further?",
      "What specific features are you looking for?",
      "How did you hear about our services?",
      "Would you like me to send you more information?",
      "Can you provide more details about your requirements?" ],
    [ "I'll follow up with you next week about this.",
      "Let's schedule a call to discuss the next steps.",
      "I'll send you the proposal by tomorrow.",
      "Would it be helpful if I shared some examples?",
      "Should we include your team in our next discussion?" ]
  ]

  /** The position of a type in `SuggestionTypes`. */
  function Ordinal(kind: SuggestionType): (n: nat)
    ensures n < |SuggestionTypes| && SuggestionTypes[n] == kind
  {
    match kind
    case Simple => 0
    case Question => 1
    case FollowUp => 2
  }

  /** The canned texts of one suggestion type. */
  function Pool(kind: SuggestionType): (texts: seq<string>)
    ensures |texts| == 5
  {
    SuggestionsByType[Ordinal(kind)]
  }

  // ---------------------------------------------------------------------
  // Random draws
  // ---------------------------------------------------------------------

  /** uuid, full name, user name, avatar and the verified flag. */
  datatype UserDraw = UserDraw(id: string, fullName: string, userName: string, avatar: string, isVerified: bool)

  /** The draws behind one message: its authorship flag, its uuid, the
      template text it picks, its recent instant and its read flag. */
  datatype MessageDraw = MessageDraw(isOwn: bool, id: string, content: string, timestamp: int, read: bool)

  /** The participant, one message draw per message, and the uuid. */
  datatype ConversationDraw = ConversationDraw(participant: UserDraw, messages: seq<MessageDraw>, id: string)

  /** Type index in 0..2, text index into that type's pool, score in
      hundredths in 70..99. */
  datatype SuggestionDraw = SuggestionDraw(id: string, typeIndex: nat, textIndex: nat, scoreHundredths: int)

  datatype AnalyticsDraw = AnalyticsDraw(
    totalMessages: int,
    responseRateHundredths: int,
    averageResponseTime: int,
    engagementScoreHundredths: int,
    messageGrowthHundredths: int)

  datatype AccountDraw = AccountDraw(
    id: string, userName: string, avatar: string, fullName: string, followers: int, following: int)

  /** The message count is drawn from 3..15. */
  predicate ValidConversationDraw(d: ConversationDraw)
  {
    3 <= |d.messages| <= 15
  }

  /** `faker.date.recent({ days: 7 })` draws an instant in the seven days,
      in milliseconds, before the moment the generator runs. */
  const RecentWindow := 7 * 24 * 60 * 60 * 1000

  /** Each message's instant lies in the seven days up to `now`. */
  predicate DrawnRecently(d: ConversationDraw, now: int)
  {
    forall i :: 0 <= i < |d.messages| ==> now - RecentWindow <= d.messages[i].timestamp <= now
  }

  /** Each message's content is picked from the template list. */
  predicate DrawnFromTemplates(d: ConversationDraw)
  {
    forall i :: 0 <= i < |d.messages| ==> d.messages[i].content in MessageTemplates
  }

  predicate ValidSuggestionDraw(d: SuggestionDraw)
  {
    d.typeIndex < |SuggestionTypes| && d.textIndex < 5 && 70 <= d.scoreHundredths <= 99
  }

  predicate ValidAnalyticsDraw(a: AnalyticsDraw)
  {
    && 120 <= a.totalMessages <= 500
    && 60 <= a.responseRateHundredths <= 95
    && 5 <= a.averageResponseTime <= 120
    && 50 <= a.engagementScoreHundredths <= 90
    && -10 <= a.messageGrowthHundredths <= 30
  }

  predicate ValidAccountDraw(d: AccountDraw)
  {
    100 <= d.followers <= 10000 && 50 <= d.following <= 1000
  }

  // ---------------------------------------------------------------------
  // Entity builders
  // ---------------------------------------------------------------------

  /** `createMockUser`: the user name is lower-cased. */
  function CreateMockUser(d: UserDraw): (u: User)
    ensures u.id == d.id && u.name == d.fullName && u.avatar == d.avatar && u.isVerified == d.isVerified
    ensures u.username == Text.LowerAscii(d.userName)
  {
    User(d.id, d.fullName, Text.LowerAscii(d.userName), d.avatar, d.isVerified)
  }

  /** `createMockMessage`: the drawn template becomes the content. */
  function CreateMockMessage(sender: User, isOwn: bool, d: MessageDraw): (m: Message)
    ensures m.content == d.content
    ensures m.sender == sender && m.isOwn == isOwn
    ensures m.id == d.id && m.timestamp == d.timestamp && m.read == d.read
  {
    Message(d.id, sender, d.content, d.timestamp, d.read, isOwn)
  }

  /** The sender of a drawn message: the sentinel for own messages, the
      participant otherwise. */
  function SenderFor(participant: User, isOwn: bool): User
  {
    if isOwn then SelfUser else participant
  }

  /** The messages in the order the builder pushes them, before sorting. */
  function DrawnMessages(participant: User, ds: seq<MessageDraw>): (ms: seq<Message>)
    ensures |ms| == |ds|
  {
    seq(|ds|, i requires 0 <= i < |ds| => CreateMockMessage(SenderFor(participant, ds[i].isOwn), ds[i].isOwn, ds[i]))
  }

  /** Sort key of `messages.sort((a, b) => a.timestamp - b.timestamp)`. */
  function Timestamp(m: Message): int
  {
    m.timestamp
  }

  /** Sort key of `conversations.sort((a, b) => b.lastMessageAt - a.lastMessageAt)`:
      ascending by the negated instant is descending by the instant. */
  function NegatedLastMessageAt(c: Conversation): int
  {
    -c.lastMessageAt
  }

  /** The unread-count filter: not read and not written by the local user. */
  predicate IsUnread(m: Message)
  {
    !m.read && !m.isOwn
  }

  /** The conversation `createMockConversation` builds from its draws: it
      keeps the drawn id and participant and has one message per message
      draw, ordered by instant. */
  function MockConversation(d: ConversationDraw): (c: Conversation)
    requires ValidConversationDraw(d)
    ensures c.id == d.id && c.participant == CreateMockUser(d.participant)
    ensures |c.messages| == |d.messages|
    ensures SortedBy(c.messages, Timestamp)
  {
    var participant := CreateMockUser(d.participant);
    var messages := SortBy(DrawnMessages(participant, d.messages), Timestamp);
    Conversation(d.id, participant, messages, messages[|messages| - 1].timestamp, Count(messages, IsUnread))
  }

  /** The invariants every generated conversation satisfies: at least one
      message, messages ascending by instant, `lastMessageAt` the final
      message's instant, `unreadCount` the number of unread inbound messages,
      own messages sent by the sentinel and the others by the participant. */
  ghost predicate WellFormed(c: Conversation)
  {
    && |c.messages| >= 1
    && SortedBy(c.messages, Timestamp)
    && c.lastMessageAt == c.messages[|c.messages| - 1].timestamp
    && c.unreadCount == Count(c.messages, IsUnread)
    && forall i :: 0 <= i < |c.messages| ==>
         c.messages[i].sender == SenderFor(c.participant, c.messages[i].isOwn)
  }

  /** `createMockConversation`: pushes one message per draw, sorts them and
      derives the two summary fields. */
  method CreateMockConversation(d: ConversationDraw) returns (c: Conversation)
    requires ValidConversationDraw(d)
    ensures c == MockConversation(d)
  {
    var participant := CreateMockUser(d.participant);
    var messageCount := |d.messages|;
    var messages: seq<Message> := [];
    for i := 0 to messageCount
      invariant messages == DrawnMessages(participant, d.messages)[..i]
    {
      var isOwn := d.messages[i].isOwn;
      var sender := if isOwn then SelfUser else participant;
      messages := messages + [CreateMockMessage(sender, isOwn, d.messages[i])];
    }
    assert messages == DrawnMessages(participant, d.messages);
    messages := SortBy(messages, Timestamp);
    var unreadCount := Count(messages, IsUnread);
    c := Conversation(d.id, participant, messages, messages[|messages| - 1].timestamp, unreadCount);
  }

  /** The sender rule of well-formed conversations, as a filter predicate. */
  function SentByRightSender(participant: User): Message -> bool
  {
    (m: Message) => m.sender == SenderFor(participant, m.isOwn)
  }

  /** Every drawn message has the sender its authorship calls for. */
  lemma DrawnMessagesSenders(participant: User, ds: seq<MessageDraw>)
    ensures forall i :: 0 <= i < |ds| ==> SentByRightSender(participant)(DrawnMessages(participant, ds)[i])
  {
  }

  /** A built conversation holds exactly the drawn messages (3 to 15 of
      them), reordered. */
  lemma MockConversationMessages(d: ConversationDraw)
    requires ValidConversationDraw(d)
    ensures 3 <= |MockConversation(d).messages| <= 15
    ensures multiset(MockConversation(d).messages)
         == multiset(DrawnMessages(CreateMockUser(d.participant), d.messages))
  {
  }

  /** Every message of a built conversation has the sender its authorship
      calls for. */
  lemma MockConversationSenders(d: ConversationDraw)
    requires ValidConversationDraw(d)
    ensures forall i :: 0 <= i < |MockConversation(d).messages| ==>
              SentByRightSender(MockConversation(d).participant)(MockConversation(d).messages[i])
  {
    var participant := CreateMockUser(d.participant);
    var drawn := DrawnMessages(participant, d.messages);
    DrawnMessagesSenders(participant, d.messages);
    SortByKeepsAll(drawn, Timestamp, SentByRightSender(participant));
  }

  /** A built conversation is well formed. */
  lemma MockConversationWellFormed(d: ConversationDraw)
    requires ValidConversationDraw(d)
    ensures WellFormed(MockConversation(d))
  {
    var c := MockConversation(d);
    MockConversationSenders(d);
    assert forall i :: 0 <= i < |c.messages| ==> SentByRightSender(c.participant)(c.messages[i]);
  }

  /** `unreadCount` counts the unread inbound messages among those drawn, so
      it never exceeds the message count. */
  lemma MockConversationUnread(d: ConversationDraw)
    requires ValidConversationDraw(d)
    ensures MockConversation(d).unreadCount
         == Count(DrawnMessages(CreateMockUser(d.participant), d.messages), IsUnread)
    ensures MockConversation(d).unreadCount <= |MockConversation(d).messages|
  {
    var c := MockConversation(d);
    FilterPermutation(c.messages, DrawnMessages(c.participant, d.messages), IsUnread);
  }

  /** `lastMessageAt` is the instant of the latest drawn message. */
  lemma MockConversationLastIsMaximum(d: ConversationDraw)
    requires ValidConversationDraw(d)
    ensures exists k :: 0 <= k < |d.messages| &&
              DrawnMessages(CreateMockUser(d.participant), d.messages)[k] == MockConversation(d).messages[|d.messages| - 1]
    ensures forall i :: 0 <= i < |d.messages| ==>
              DrawnMessages(CreateMockUser(d.participant), d.messages)[i].timestamp <= MockConversation(d).lastMessageAt
  {
    var drawn := DrawnMessages(CreateMockUser(d.participant), d.messages);
    SortByLastIsMaximum(drawn, Timestamp);
  }

  /** `lastMessageAt` is the latest instant among the drawn messages. */
  lemma MockConversationLatest(d: ConversationDraw)
    requires ValidConversationDraw(d)
    ensures forall i :: 0 <= i < |d.messages| ==> d.messages[i].timestamp <= MockConversation(d).lastMessageAt
    ensures exists i :: 0 <= i < |d.messages| && d.messages[i].timestamp == MockConversation(d).lastMessageAt
  {
    MockConversationLatestBounds(d);
    MockConversationLatestAttained(d);
  }

  /** No drawn instant is later than `lastMessageAt`. */
  lemma MockConversationLatestBounds(d: ConversationDraw)
    requires ValidConversationDraw(d)
    ensures forall i :: 0 <= i < |d.messages| ==> d.messages[i].timestamp <= MockConversation(d).lastMessageAt
  {
    var c := MockConversation(d);
    var drawn := DrawnMessages(c.participant, d.messages);
    MockConversationLastIsMaximum(d);
    forall i | 0 <= i < |d.messages| ensures d.messages[i].timestamp <= c.lastMessageAt {
      assert drawn[i].timestamp == d.messages[i].timestamp;
    }
  }

  /** Some drawn message has the instant `lastMessageAt`. */
  lemma MockConversationLatestAttained(d: ConversationDraw)
    requires ValidConversationDraw(d)
    ensures exists i :: 0 <= i < |d.messages| && d.messages[i].timestamp == MockConversation(d).lastMessageAt
  {
    var c := MockConversation(d);
    var drawn := DrawnMessages(c.participant, d.messages);
    MockConversationLastIsMaximum(d);
    var k :| 0 <= k < |drawn| && drawn[k] == c.messages[|d.messages| - 1];
    assert drawn[k].timestamp == d.messages[k].timestamp;
  }

  /** Every message of a built conversation carries one of the templates. */
  lemma MockConversationContents(d: ConversationDraw)
    requires ValidConversationDraw(d) && DrawnFromTemplates(d)
    ensures forall i :: 0 <= i < |MockConversation(d).messages| ==>
              MockConversation(d).messages[i].content in MessageTemplates
  {
    var drawn := DrawnMessages(CreateMockUser(d.participant), d.messages);
    SortByKeepsAll(drawn, Timestamp, HasTemplateContent);
  }

  /** Every message of a built conversation, and so its `lastMessageAt`,
      lies in the seven days up to `now` when every drawn instant does. */
  lemma MockConversationRecent(d: ConversationDraw, now: int)
    requires ValidConversationDraw(d) && DrawnRecently(d, now)
    ensures forall i :: 0 <= i < |MockConversation(d).messages| ==>
              now - RecentWindow <= MockConversation(d).messages[i].timestamp <= now
    ensures now - RecentWindow <= MockConversation(d).lastMessageAt <= now
  {
    var drawn := DrawnMessages(CreateMockUser(d.participant), d.messages);
    assert forall i :: 0 <= i < |drawn| ==> SentWithin(now - RecentWindow, now)(drawn[i]);
    SortByKeepsAll(drawn, Timestamp, SentWithin(now - RecentWindow, now));
  }

  /** The instant rule, as a filter predicate. */
  function SentWithin(from: int, to: int): Message -> bool
  {
    (m: Message) => from <= m.timestamp <= to
  }

  /** The content rule, as a filter predicate. */
  predicate HasTemplateContent(m: Message)
  {
    m.content in MessageTemplates
  }

  /** The sentinel tells own messages apart: the participant's id is never
      `'self'` (it is a uuid), and then a message is own exactly when its
      sender's id is `'self'`. */
  lemma OwnIffSentBySelf(c: Conversation)
    requires WellFormed(c)
    requires c.participant.id != SelfUser.id
    ensures forall i :: 0 <= i < |c.messages| ==>
              (c.messages[i].isOwn <==> c.messages[i].sender.id == SelfUser.id)
  {
  }

  /** The twelve conversations in the order they are pushed. */
  function BuiltConversations(ds: seq<ConversationDraw>): (cs: seq<Conversation>)
    requires forall i :: 0 <= i < |ds| ==> ValidConversationDraw(ds[i])
    ensures |cs| == |ds|
  {
    seq(|ds|, i requires 0 <= i < |ds| => MockConversation(ds[i]))
  }

  /** Every conversation pushed by the generator is well formed. */
  lemma BuiltConversationsWellFormed(ds: seq<ConversationDraw>)
    requires forall i :: 0 <= i < |ds| ==> ValidConversationDraw(ds[i])
    ensures forall i :: 0 <= i < |ds| ==> WellFormed(BuiltConversations(ds)[i])
  {
    forall i | 0 <= i < |ds| ensures WellFormed(BuiltConversations(ds)[i]) {
      MockConversationWellFormed(ds[i]);
    }
  }

  /** Sorting latest first orders conversations by non-increasing
      `lastMessageAt`. */
  lemma LatestFirstIsDescending(cs: seq<Conversation>)
    ensures forall i, j :: 0 <= i < j < |cs| ==>
              SortBy(cs, NegatedLastMessageAt)[i].lastMessageAt >= SortBy(cs, NegatedLastMessageAt)[j].lastMessageAt
  {
    var sorted := SortBy(cs, NegatedLastMessageAt);
    forall i, j | 0 <= i < j < |sorted| ensures sorted[i].lastMessageAt >= sorted[j].lastMessageAt {
      assert NegatedLastMessageAt(sorted[i]) <= NegatedLastMessageAt(sorted[j]);
    }
  }

  /** Sorting latest first keeps every conversation well formed. */
  lemma LatestFirstKeepsWellFormed(cs: seq<Conversation>)
    requires forall i :: 0 <= i < |cs| ==> WellFormed(cs[i])
    ensures forall i :: 0 <= i < |cs| ==> WellFormed(SortBy(cs, NegatedLastMessageAt)[i])
  {
    var sorted := SortBy(cs, NegatedLastMessageAt);
    forall i | 0 <= i < |sorted| ensures WellFormed(sorted[i]) {
      assert sorted[i] in multiset(cs);
    }
  }

  /** The built conversations sorted latest first are, like every built
      conversation, well formed. */
  lemma LatestFirstConversations(ds: seq<ConversationDraw>)
    requires forall i :: 0 <= i < |ds| ==> ValidConversationDraw(ds[i])
    ensures forall i :: 0 <= i < |ds| ==> WellFormed(SortBy(BuiltConversations(ds), NegatedLastMessageAt)[i])
  {
    BuiltConversationsWellFormed(ds);
    LatestFirstKeepsWellFormed(BuiltConversations(ds));
  }

  /** The analytics summary `generateMockData` returns: the drawn values,
      each within its range. */
  function Analytics(a: AnalyticsDraw): (summary: AnalyticsSummary)
    requires ValidAnalyticsDraw(a)
    ensures 120 <= summary.totalMessages <= 500 && 5 <= summary.averageResponseTime <= 120
    ensures 60 <= summary.responseRateHundredths <= 95 && 50 <= summary.engagementScoreHundredths <= 90
    ensures -10 <= summary.messageGrowthHundredths <= 30
  {
    AnalyticsSummary(a.totalMessages, a.responseRateHundredths, a.averageResponseTime,
                     a.engagementScoreHundredths, a.messageGrowthHundredths)
  }

  /** `generateMockData`: the twelve built conversations, reordered latest
      first, each well formed, and the analytics summary. */
  method GenerateMockData(ds: seq<ConversationDraw>, a: AnalyticsDraw)
    returns (conversations: seq<Conversation>, analytics: AnalyticsSummary)
    requires |ds| == ConversationCount
    requires forall i :: 0 <= i < |ds| ==> ValidConversationDraw(ds[i])
    requires ValidAnalyticsDraw(a)
    ensures |conversations| == ConversationCount
    ensures multiset(conversations) == multiset(BuiltConversations(ds))
    ensures forall i, j :: 0 <= i < j < |conversations| ==>
              conversations[i].lastMessageAt >= conversations[j].lastMessageAt
    ensures forall i :: 0 <= i < |conversations| ==> WellFormed(conversations[i])
    ensures analytics == Analytics(a)
  {
    conversations := [];
    for i := 0 to ConversationCount
      invariant |conversations| == i
      invariant forall k :: 0 <= k < i ==> conversations[k] == MockConversation(ds[k])
    {
      var c := CreateMockConversation(ds[i]);
      conversations := conversations + [c];
    }
    assert conversations == BuiltConversations(ds);
    LatestFirstIsDescending(conversations);
    LatestFirstConversations(ds);
    conversations := SortBy(conversations, NegatedLastMessageAt);
    analytics := Analytics(a);
  }

  // ---------------------------------------------------------------------
  // Suggestions
  // ---------------------------------------------------------------------

  /** `createMockAISuggestion`: the type is picked by an index in 0..2 and
      the text from that type's own pool. */
  function CreateMockAISuggestion(d: SuggestionDraw): (s: AISuggestion)
    requires ValidSuggestionDraw(d)
    ensures s.kind == SuggestionTypes[d.typeIndex]
    ensures s.text in Pool(s.kind)
    ensures 70 <= s.scoreHundredths <= 99
    ensures s.id == d.id
  {
    var kind := SuggestionTypes[d.typeIndex];
    AISuggestion(d.id, Pool(kind)[d.textIndex], kind, d.scoreHundredths)
  }

  /** `getAiSuggestionsForMessage`: 2 to 4 suggestions, one per draw. The
      message text is not consulted: the result is fixed by the draws. */
  method GetAiSuggestionsForMessage(message: string, ds: seq<SuggestionDraw>) returns (suggestions: seq<AISuggestion>)
    requires 2 <= |ds| <= 4
    requires forall i :: 0 <= i < |ds| ==> ValidSuggestionDraw(ds[i])
    ensures 2 <= |suggestions| <= 4 && |suggestions| == |ds|
    ensures forall i :: 0 <= i < |ds| ==> suggestions[i] == CreateMockAISuggestion(ds[i])
    ensures forall i :: 0 <= i < |suggestions| ==>
              suggestions[i].text in Pool(suggestions[i].kind) && 70 <= suggestions[i].scoreHundredths <= 99
  {
    suggestions := [];
    var count := |ds|;
    for i := 0 to count
      invariant |suggestions| == i
      invariant forall k :: 0 <= k < i ==> suggestions[k] == CreateMockAISuggestion(ds[k])
    {
      suggestions := suggestions + [CreateMockAISuggestion(ds[i])];
    }
  }

  // ---------------------------------------------------------------------
  // Simulated Instagram API
  // ---------------------------------------------------------------------

  /** `createMockInstagramAccount`: a disconnected account never synced. */
  function CreateMockInstagramAccount(d: AccountDraw): (acc: InstagramAccount)
    requires ValidAccountDraw(d)
    ensures !acc.isConnected && acc.lastSynced == None
    ensures 100 <= acc.followers <= 10000 && 50 <= acc.following <= 1000
    ensures acc.id == d.id && acc.avatar == d.avatar && acc.fullName == d.fullName
    ensures acc.username == Text.LowerAscii(d.userName)
  {
    InstagramAccount(d.id, Text.LowerAscii(d.userName), d.avatar, d.fullName, d.followers, d.following, false, None)
  }

  /** The rejection `connectAccount` settles with. */
  const InvalidCredentials := "Invalid credentials"

  /** `connectAccount`: rejects when either credential is empty; otherwise
      builds an account and overwrites its user name, connection flag and
      sync instant. */
  method ConnectAccount(username: string, password: string, d: AccountDraw, now: int)
    returns (r: Result<InstagramAccount>)
    requires ValidAccountDraw(d)
    ensures r.Err? <==> username == "" || password == ""
    ensures r.Err? ==> r.message == InvalidCredentials
    ensures r.Ok? ==> r.value.username == username && r.value.isConnected && r.value.lastSynced == Some(now)
    ensures r.Ok? ==> var base := CreateMockInstagramAccount(d);
              && r.value.id == base.id && r.value.avatar == base.avatar && r.value.fullName == base.fullName
              && r.value.followers == base.followers && r.value.following == base.following
  {
    if username != "" && password != "" {
      var account := CreateMockInstagramAccount(d);
      account := account.(username := username);
      account := account.(isConnected := true);
      account := account.(lastSynced := Some(now));
      r := Ok(account);
    } else {
      r := Err(InvalidCredentials);
    }
  }

  /** `disconnectAccount` always resolves. */
  function DisconnectAccount(accountId: string): (r: Result<()>)
    ensures r.Ok?
  {
    Ok(())
  }

  /** `syncMessages` always resolves. */
  function SyncMessages(accountId: string): (r: Result<()>)
    ensures r.Ok?
  {
    Ok(())
  }
}
