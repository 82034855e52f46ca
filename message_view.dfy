/** The message thread editor (src/components/messages/MessageView.tsx):
    the thread's local copy of the messages, the draft being typed and the
    suggestion panel flag, with the handlers that change them and the
    expressions the view derives from them. */
module MessageView {
  import opened Results
  import opened Sequences
  import opened MockData
  import Text

  /** `!m.isOwn`: written by the participant. */
  predicate IsInbound(m: Message)
  {
    !m.isOwn
  }

  /** Sort key of `sort((a, b) => b.timestamp - a.timestamp)`: latest first. */
  function NegatedTimestamp(m: Message): int
  {
    -m.timestamp
  }

  /** `lastOtherMessage`: the head of the inbound messages sorted latest
      first. Absent exactly when every message is own; otherwise an inbound
      message of the thread with the latest instant among the inbound
      ones. */
  function LastOtherMessage(messages: seq<Message>): (r: Option<Message>)
    ensures r.None? <==> forall i :: 0 <= i < |messages| ==> messages[i].isOwn
    ensures r.Some? ==> r.value in messages && !r.value.isOwn
    ensures r.Some? ==> forall i :: 0 <= i < |messages| && !messages[i].isOwn ==>
                          messages[i].timestamp <= r.value.timestamp
  {
    var inbound := Filter(messages, IsInbound);
    var latestFirst := SortBy(inbound, NegatedTimestamp);
    if |latestFirst| == 0 then
      None
    else
      assert latestFirst[0] in multiset(inbound);
      assert forall i :: 0 <= i < |messages| && !messages[i].isOwn ==>
               messages[i].timestamp <= latestFirst[0].timestamp by {
        forall i | 0 <= i < |messages| && !messages[i].isOwn
          ensures messages[i].timestamp <= latestFirst[0].timestamp
        {
          assert messages[i] in multiset(latestFirst);
          FirstIsMinimal(latestFirst, NegatedTimestamp, messages[i]);
        }
      }
      Some(latestFirst[0])
  }

  /** Milliseconds in two hours. */
  const TwoHours := 2 * 60 * 60 * 1000

  /** `getMessageDate`: whether a date separator is drawn before message
      `index`, and for which instant (the label text itself, a relative date
      formatted against the clock, is not modelled). The hour difference is
      a real division as in the source. */
  function MessageDate(messages: seq<Message>, index: nat): (date: Option<int>)
    requires index < |messages|
    ensures date.Some? <==> index == 0 || messages[index].timestamp - messages[index - 1].timestamp > TwoHours
    ensures date.Some? ==> date.value == messages[index].timestamp
  {
    if index == 0 then Some(messages[index].timestamp)
    else
      var timeDiff := messages[index].timestamp - messages[index - 1].timestamp;
      var hoursDiff := timeDiff as real / (1000 * 60 * 60) as real;
      if hoursDiff > 2.0 then Some(messages[index].timestamp) else None
  }

  /** `rows={Math.min(3, Math.max(1, newMessage.split('\n').length))}`. */
  function Rows(draft: string): (rows: int)
    ensures 1 <= rows <= 3
    ensures rows == if Text.Occurrences(draft, '\n') >= 2 then 3 else Text.Occurrences(draft, '\n') + 1
  {
    var lines := |Text.Split(draft, '\n')|;
    var atLeastOne := if lines > 1 then lines else 1;
    if atLeastOne < 3 then atLeastOne else 3
  }

  /** The message `handleSend` appends: the draft as typed (not trimmed),
      own, unread, from the sentinel sender, with the clock reading as its
      instant and its decimal rendering as its id. */
  function OwnMessage(draft: string, now: nat): (m: Message)
    ensures m.content == draft && m.isOwn && !m.read && m.sender == SelfUser && m.timestamp == now
  {
    Message(Text.Decimal(now), SelfUser, draft, now, false, true)
  }

  class ThreadState {
    var messages: seq<Message>
    var newMessage: string
    var showSuggestions: bool

    /** The `useState` initial values. */
    constructor ()
      ensures messages == [] && newMessage == "" && !showSuggestions
    {
      messages := [];
      newMessage := "";
      showSuggestions := false;
    }

    /** The effect that runs whenever the `conversation` prop changes (and
        after the first render): the thread shows that conversation's
        messages, the draft is cleared and the suggestions are hidden. */
    method OnConversationChange(conversation: Conversation)
      modifies this
      ensures messages == conversation.messages && newMessage == "" && !showSuggestions
    {
      messages := conversation.messages;
      newMessage := "";
      showSuggestions := false;
    }

    /** The textarea's `onChange`. */
    method SetNewMessage(value: string)
      modifies this
      ensures newMessage == value && messages == old(messages) && showSuggestions == old(showSuggestions)
    {
      newMessage := value;
    }

    /** `handleSend`: a draft that trims to nothing changes nothing; any
        other draft is appended as one own message after the existing ones,
        and the draft and the suggestion panel are cleared. */
    method HandleSend(now: nat)
      modifies this
      ensures Text.IsBlank(old(newMessage)) ==>
                messages == old(messages) && newMessage == old(newMessage) && showSuggestions == old(showSuggestions)
      ensures !Text.IsBlank(old(newMessage)) ==>
                && messages == old(messages) + [OwnMessage(old(newMessage), now)]
                && newMessage == "" && !showSuggestions
    {
      if Text.IsBlank(newMessage) {
        return;
      }
      var newMsg := OwnMessage(newMessage, now);
      messages := messages + [newMsg];
      newMessage := "";
      showSuggestions := false;
    }

    /** `handleSuggestionSelect`: the chosen text becomes the draft and the
        panel closes. */
    method HandleSuggestionSelect(text: string)
      modifies this
      ensures newMessage == text && !showSuggestions && messages == old(messages)
    {
      newMessage := text;
      showSuggestions := false;
    }

    /** `handleGenerateSuggestions`: opens the panel only when there is an
        inbound message to answer. */
    method HandleGenerateSuggestions()
      modifies this
      ensures showSuggestions == if LastOtherMessage(messages).Some? then true else old(showSuggestions)
      ensures messages == old(messages) && newMessage == old(newMessage)
    {
      if LastOtherMessage(messages).None? {
        return;
      }
      showSuggestions := true;
    }

    /** The send button is disabled exactly when the draft trims to nothing. */
    function SendDisabled(): (disabled: bool)
      reads this
      ensures disabled <==> Text.AllWhitespace(newMessage)
    {
      Text.IsBlank(newMessage)
    }
  }

  /** Appending an own message does not change the latest inbound message. */
  lemma OwnSendKeepsLastOther(messages: seq<Message>, m: Message)
    requires m.isOwn
    ensures LastOtherMessage(messages + [m]) == LastOtherMessage(messages)
  {
    FilterConcat(messages, [m], IsInbound);
    assert Filter([m], IsInbound) == [];
    assert Filter(messages + [m], IsInbound) == Filter(messages, IsInbound);
  }
}
