/** The dashboard (src/pages/Index.tsx): the three conversations it
    previews and the unread total shown in a chip beside the heading. */
module IndexPage {
  import opened MockData

  /** `conversations.slice(0, 3)`: the first three, or all of them when
      there are fewer. */
  function RecentConversations(cs: seq<Conversation>): (recent: seq<Conversation>)
    ensures |recent| == if |cs| < 3 then |cs| else 3
    ensures recent == cs[..|recent|]
  {
    if |cs| < 3 then cs else cs[..3]
  }

  /** The left fold `reduce((acc, conv) => acc + conv.unreadCount, acc)`. */
  function SumUnreadFrom(acc: int, cs: seq<Conversation>): (total: int)
    ensures total >= acc
    decreases |cs|
  {
    if cs == [] then acc else SumUnreadFrom(acc + cs[0].unreadCount, cs[1..])
  }

  /** `totalUnread`: the fold started at 0. */
  function TotalUnread(cs: seq<Conversation>): (total: int)
    ensures total >= 0
  {
    SumUnreadFrom(0, cs)
  }

  /** The reference sum, added up from the right. */
  function SumUnread(cs: seq<Conversation>): nat
  {
    if cs == [] then 0 else cs[0].unreadCount + SumUnread(cs[1..])
  }

  /** The left fold from `acc` is `acc` plus the sum of the counts. */
  lemma {:induction false} FoldIsSum(acc: int, cs: seq<Conversation>)
    ensures SumUnreadFrom(acc, cs) == acc + SumUnread(cs)
    decreases |cs|
  {
    if cs != [] {
      FoldIsSum(acc + cs[0].unreadCount, cs[1..]);
    }
  }

  /** `totalUnread` is the sum of all the unread counts. */
  lemma TotalUnreadIsSum(cs: seq<Conversation>)
    ensures TotalUnread(cs) == SumUnread(cs)
  {
    FoldIsSum(0, cs);
  }

  /** The total of two lists together is the sum of their totals. */
  lemma TotalUnreadAppend(a: seq<Conversation>, b: seq<Conversation>)
    ensures TotalUnread(a + b) == TotalUnread(a) + TotalUnread(b)
  {
    TotalUnreadIsSum(a + b);
    TotalUnreadIsSum(a);
    TotalUnreadIsSum(b);
    SumAppend(a, b);
  }

  lemma {:induction false} SumAppend(a: seq<Conversation>, b: seq<Conversation>)
    ensures SumUnread(a + b) == SumUnread(a) + SumUnread(b)
    decreases |a|
  {
    if a != [] {
      assert (a + b)[0] == a[0];
      assert (a + b)[1..] == a[1..] + b;
      SumAppend(a[1..], b);
    } else {
      assert a + b == b;
    }
  }

  /** The total is positive exactly when some conversation has unread
      messages. */
  lemma TotalUnreadPositiveIff(cs: seq<Conversation>)
    ensures TotalUnread(cs) > 0 <==> exists i :: 0 <= i < |cs| && cs[i].unreadCount > 0
  {
    TotalUnreadIsSum(cs);
    SumPositiveIff(cs);
  }

  lemma {:induction false} SumPositiveIff(cs: seq<Conversation>)
    ensures SumUnread(cs) > 0 <==> exists i :: 0 <= i < |cs| && cs[i].unreadCount > 0
    decreases |cs|
  {
    if cs != [] {
      SumPositiveIff(cs[1..]);
      if SumUnread(cs[1..]) > 0 {
        var i :| 0 <= i < |cs[1..]| && cs[1..][i].unreadCount > 0;
        assert cs[i + 1].unreadCount > 0;
      }
      if exists i :: 0 <= i < |cs| && cs[i].unreadCount > 0 {
        var i :| 0 <= i < |cs| && cs[i].unreadCount > 0;
        if i > 0 {
          assert cs[1..][i - 1].unreadCount > 0;
        }
      }
    }
  }

  /** `{totalUnread > 0 && …}`: the unread chip is shown exactly when some
      conversation has unread messages. */
  function ShowUnreadChip(cs: seq<Conversation>): (shown: bool)
    ensures shown <==> exists i :: 0 <= i < |cs| && cs[i].unreadCount > 0
  {
    TotalUnreadPositiveIff(cs);
    TotalUnread(cs) > 0
  }

  /** On the generated list (twelve conversations, latest first) the preview
      is the three latest conversations: none of the others is later. */
  lemma RecentAreLatest(cs: seq<Conversation>)
    requires |cs| == ConversationCount
    requires forall i, j :: 0 <= i < j < |cs| ==> cs[i].lastMessageAt >= cs[j].lastMessageAt
    ensures RecentConversations(cs) == cs[..3]
    ensures forall r, k :: 0 <= r < 3 && 3 <= k < |cs| ==>
              RecentConversations(cs)[r].lastMessageAt >= cs[k].lastMessageAt
  {
  }
}
