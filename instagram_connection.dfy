/** The `useInstagramConnection` hook (src/hooks/useInstagramConnection.tsx):
    the state behind the settings screen's Instagram section and its four
    handlers. Each handler runs to completion before the next one starts;
    the account draw and the clock reading the simulated API needs are
    parameters. */
module InstagramConnection {
  import opened Results
  import opened MockData

  class ConnectionHook {
    var instagramAccount: Option<InstagramAccount>
    var isConnecting: bool
    var isSyncing: bool
    var loginDialogOpen: bool
    var username: string
    var password: string

    /** Between two handler runs no request is in flight: every handler
        that starts idle ends idle. */
    predicate Idle()
      reads this
    {
      !isConnecting && !isSyncing
    }

    /** The initial state of every `useState` in the hook. */
    constructor ()
      ensures instagramAccount == None && !isConnecting && !isSyncing && !loginDialogOpen
      ensures username == "" && password == ""
    {
      instagramAccount := None;
      isConnecting := false;
      isSyncing := false;
      loginDialogOpen := false;
      username := "";
      password := "";
    }

    /** `setUsername`, bound to the login dialog's user-name field. */
    method SetUsername(value: string)
      modifies this
      ensures username == value
      ensures instagramAccount == old(instagramAccount) && isConnecting == old(isConnecting)
      ensures isSyncing == old(isSyncing) && loginDialogOpen == old(loginDialogOpen) && password == old(password)
    {
      username := value;
    }

    /** `setPassword`, bound to the login dialog's password field. */
    method SetPassword(value: string)
      modifies this
      ensures password == value
      ensures instagramAccount == old(instagramAccount) && isConnecting == old(isConnecting)
      ensures isSyncing == old(isSyncing) && loginDialogOpen == old(loginDialogOpen) && username == old(username)
    {
      password := value;
    }

    /** `setLoginDialogOpen`, the dialog's open-change callback. */
    method SetLoginDialogOpen(open: bool)
      modifies this
      ensures loginDialogOpen == open
      ensures instagramAccount == old(instagramAccount) && isConnecting == old(isConnecting)
      ensures isSyncing == old(isSyncing) && username == old(username) && password == old(password)
    {
      loginDialogOpen := open;
    }

    /** `handleOpenConnectDialog`: opens the dialog and touches nothing else. */
    method HandleOpenConnectDialog()
      modifies this
      ensures loginDialogOpen
      ensures instagramAccount == old(instagramAccount) && isConnecting == old(isConnecting)
      ensures isSyncing == old(isSyncing) && username == old(username) && password == old(password)
    {
      loginDialogOpen := true;
    }

    /** `handleConnect`: with a credential missing nothing changes and the
        API is not called. Otherwise the API call cannot reject, because the
        guard is the API's own rejection condition: the account becomes a
        connected one under the entered user name, the dialog closes, the
        credentials are cleared and the in-progress flag ends false. */
    method HandleConnect(d: AccountDraw, now: int)
      requires ValidAccountDraw(d)
      modifies this
      ensures old(username) == "" || old(password) == "" ==>
                && instagramAccount == old(instagramAccount) && isConnecting == old(isConnecting)
                && isSyncing == old(isSyncing) && loginDialogOpen == old(loginDialogOpen)
                && username == old(username) && password == old(password)
      ensures old(username) != "" && old(password) != "" ==>
                && instagramAccount == Some(CreateMockInstagramAccount(d).(
                     username := old(username), isConnected := true, lastSynced := Some(now)))
                && !loginDialogOpen && username == "" && password == ""
                && !isConnecting && isSyncing == old(isSyncing)
      ensures old(Idle()) ==> Idle()
    {
      if username == "" || password == "" {
        return;
      }
      isConnecting := true;
      var result := ConnectAccount(username, password, d, now);
      if result.Ok? {
        instagramAccount := Some(result.value);
        loginDialogOpen := false;
        username := "";
        password := "";
      }
      isConnecting := false;
    }

    /** `handleDisconnect`: a no-op without an account; otherwise the
        account is dropped. */
    method HandleDisconnect()
      modifies this
      ensures instagramAccount == None
      ensures isConnecting == old(isConnecting) && isSyncing == old(isSyncing)
      ensures loginDialogOpen == old(loginDialogOpen) && username == old(username) && password == old(password)
      ensures old(Idle()) ==> Idle()
    {
      if instagramAccount.None? {
        return;
      }
      var outcome := DisconnectAccount(instagramAccount.value.id);
      if outcome.Ok? {
        instagramAccount := None;
      }
    }

    /** `handleSync`: a no-op without an account; otherwise only the
        account's `lastSynced` changes, to the current instant, and the
        in-progress flag ends false. */
    method HandleSync(now: int)
      modifies this
      ensures old(instagramAccount) == None ==> instagramAccount == None && isSyncing == old(isSyncing)
      ensures old(instagramAccount).Some? ==>
                instagramAccount == Some(old(instagramAccount).value.(lastSynced := Some(now))) && !isSyncing
      ensures isConnecting == old(isConnecting) && loginDialogOpen == old(loginDialogOpen)
      ensures username == old(username) && password == old(password)
      ensures old(Idle()) ==> Idle()
    {
      if instagramAccount.None? {
        return;
      }
      isSyncing := true;
      var outcome := SyncMessages(instagramAccount.value.id);
      if outcome.Ok? {
        instagramAccount := Some(instagramAccount.value.(lastSynced := Some(now)));
      }
      isSyncing := false;
    }
  }

  /** A full session: connect with credentials, sync, disconnect. The state
      is idle after every handler and the account goes through connected,
      synced and gone. */
  method ConnectSyncDisconnect(user: string, pass: string, d: AccountDraw, t0: int, t1: int)
    returns (connected: Option<InstagramAccount>, synced: Option<InstagramAccount>, after: Option<InstagramAccount>)
    requires ValidAccountDraw(d)
    requires user != "" && pass != ""
    ensures connected.Some? && connected.value.username == user && connected.value.isConnected
    ensures connected.value.lastSynced == Some(t0)
    ensures synced == Some(connected.value.(lastSynced := Some(t1)))
    ensures after == None
  {
    var hook := new ConnectionHook();
    hook.HandleOpenConnectDialog();
    hook.SetUsername(user);
    hook.SetPassword(pass);
    hook.HandleConnect(d, t0);
    assert hook.Idle() && !hook.loginDialogOpen;
    connected := hook.instagramAccount;
    hook.HandleSync(t1);
    assert hook.Idle();
    synced := hook.instagramAccount;
    hook.HandleDisconnect();
    after := hook.instagramAccount;
  }
}
