/** The messages page (src/pages/Messages.tsx): choosing the conversation
    named by the route, redirecting to the first conversation when the route
    names none or an unknown one, and which pane is shown. The effect's
    500 ms delay is not modelled: the effect runs to completion at once. A
    navigation is returned as the path to go to. */
module MessagesPage {
  import opened Results
  import opened MockData

  /** `conversations.find(c => c.id === id)`: the first conversation with
      that id. */
  function FindById(cs: seq<Conversation>, id: string): (r: Option<Conversation>)
    ensures r.None? <==> forall i :: 0 <= i < |cs| ==> cs[i].id != id
    ensures r.Some? ==> exists k :: 0 <= k < |cs| && cs[k] == r.value && r.value.id == id &&
                                    forall j :: 0 <= j < k ==> cs[j].id != id
  {
    if cs == [] then None
    else if cs[0].id == id then Some(cs[0])
    else
      var r := FindById(cs[1..], id);
      if r.Some? then
        var k :| 0 <= k < |cs[1..]| && cs[1..][k] == r.value && r.value.id == id &&
                 forall j :: 0 <= j < k ==> cs[1..][j].id != id;
        assert cs[k + 1] == r.value;
        r
      else r
  }

  /** The path of a conversation's thread. */
  function ThreadPath(id: string): string
  {
    "/messages/" + id
  }

  /** What occupies the thread pane. */
  datatype Pane = LoadingSkeleton | Thread(conversation: Conversation) | Placeholder

  class PageState {
    /** `mockData.conversations`, fixed for the page's lifetime. */
    const conversations: seq<Conversation>
    var selectedConversation: Option<Conversation>
    var isLoading: bool

    constructor (conversations: seq<Conversation>)
      ensures this.conversations == conversations
      ensures selectedConversation == None && isLoading
    {
      this.conversations := conversations;
      selectedConversation := None;
      isLoading := true;
    }

    /** The redirect both branches of the effect issue: to the first
        conversation, when there is one. */
    function RedirectToFirst(): (nav: Option<string>)
      reads this
      ensures nav.Some? <==> |conversations| > 0
      ensures nav.Some? ==> nav.value == ThreadPath(conversations[0].id)
    {
      if |conversations| > 0 then Some(ThreadPath(conversations[0].id)) else None
    }

    /** The effect run for a route parameter (`None` when the route has none;
        the empty string is falsy and counts as none). A known id becomes the
        selection and nothing is navigated; no id or an unknown one keeps the
        selection and redirects to the first conversation, if any. Loading is
        over afterwards. */
    method OnRouteChange(conversationId: Option<string>) returns (navigateTo: Option<string>)
      modifies this
      ensures !isLoading
      ensures conversationId.None? || conversationId.value == "" ==>
                selectedConversation == old(selectedConversation) && navigateTo == RedirectToFirst()
      ensures conversationId.Some? && conversationId.value != "" ==>
                var found := FindById(conversations, conversationId.value);
                && (found.Some? ==> selectedConversation == found && navigateTo == None)
                && (found.None? ==> selectedConversation == old(selectedConversation) && navigateTo == RedirectToFirst())
    {
      // `setIsLoading(true)` before the timer is overwritten when the timer
      // fires, which here is at once.
      isLoading := false;
      navigateTo := None;
      var present := conversationId.Some? && conversationId.value != "";
      if !present && |conversations| > 0 {
        navigateTo := Some(ThreadPath(conversations[0].id));
      }
      if present {
        var conversation := FindById(conversations, conversationId.value);
        if conversation.Some? {
          selectedConversation := conversation;
        } else if |conversations| > 0 {
          navigateTo := Some(ThreadPath(conversations[0].id));
        }
      }
    }

    /** `handleSelectConversation`. */
    method HandleSelectConversation(conversation: Conversation)
      modifies this
      ensures selectedConversation == Some(conversation) && isLoading == old(isLoading)
    {
      selectedConversation := Some(conversation);
    }

    /** The pane: the skeleton while loading, else the selected thread, else
        the placeholder. */
    function View(): (pane: Pane)
      reads this
      ensures pane.LoadingSkeleton? <==> isLoading
      ensures pane.Thread? <==> !isLoading && selectedConversation.Some?
      ensures pane.Thread? ==> pane.conversation == selectedConversation.value
    {
      if isLoading then LoadingSkeleton
      else if selectedConversation.Some? then Thread(selectedConversation.value)
      else Placeholder
    }
  }

  /** A redirect always names a conversation of the list, and following it
      selects that conversation: the route id of the redirect is found. */
  lemma RedirectIsFound(cs: seq<Conversation>)
    requires |cs| > 0
    ensures FindById(cs, cs[0].id) == Some(cs[0])
  {
  }

  /** With no conversations at all, no route ever produces a redirect. */
  method EmptyListNeverRedirects(conversationId: Option<string>) returns (nav: Option<string>, pane: Pane)
    ensures nav == None && pane == Placeholder
  {
    var page := new PageState([]);
    nav := page.OnRouteChange(conversationId);
    pane := page.View();
  }

  /** Landing on the bare path, following the redirect, and the second
      effect run select the first conversation (its id, a generated uuid,
      is not empty); its thread is shown and no further redirect follows. */
  method LandThenFollowRedirect(cs: seq<Conversation>) returns (second: Option<string>, pane: Pane)
    requires |cs| > 0 && cs[0].id != ""
    ensures second == None && pane == Thread(cs[0])
  {
    var page := new PageState(cs);
    var nav := page.OnRouteChange(None);
    assert nav == Some(ThreadPath(cs[0].id));
    RedirectIsFound(cs);
    second := page.OnRouteChange(Some(cs[0].id));
    pane := page.View();
  }
}
