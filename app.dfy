/**
 * The application shell: sign-in state, which view is shown, the admin flag
 * (remembered on the device), the admin login modal and the open chat.
 * Handlers update these fields in place; the render is a pure choice of
 * screen from them.
 */
module App {
  import opened Wrappers
  import opened Vlogs

  /** The `view` string: the four views the shell knows, and whatever else a sidebar may pass. */
  datatype View = DashboardView | ChatView | ReelsView | AdminView | OtherView(name: string)

  /** The chat the chat area shows. */
  datatype ActiveChat = ActiveChat(
    id: string, name: string, role: string, vloggerName: string, vloggerRole: string, vloggerId: string)

  /** The chat document written (merged) before the chat opens; the server timestamp is not modelled. */
  datatype ChatDoc = ChatDoc(
    chatId: string, guestId: string, guestName: string, vloggerId: string, vloggerName: string, vloggerRole: string)

  /** What the shell renders. */
  datatype Content = DashboardPanel | AdminPanel | ChatLayout
  datatype Screen = Loading | AuthErrorScreen | Main(content: Content, reelsOverlay: bool, adminLogin: bool)

  /** The initial admin flag: the stored string is exactly "true". */
  function InitialAdmin(stored: Option<string>): (isAdmin: bool)
    ensures isAdmin <==> stored.Some? && stored.value == "true"
  {
    stored == Some("true")
  }

  /** One chat per (user, vlogger) pair: the user's uid, an underscore, the vlog's id. */
  function ChatId(uid: string, vlogId: string): (id: string)
    ensures |id| == |uid| + 1 + |vlogId|
    ensures id[..|uid|] == uid && id[|uid|] == '_' && id[|uid| + 1..] == vlogId
  {
    uid + "_" + vlogId
  }

  /** Position of the first underscore, when there is one. */
  function FirstUnderscore(s: string): (k: nat)
    requires '_' in s
    ensures k < |s| && s[k] == '_' && '_' !in s[..k]
  {
    if s[0] == '_' then 0 else 1 + FirstUnderscore(s[1..])
  }

  /**
   * Anonymous-auth uids contain no underscore, so the chat id determines the
   * pair: two different (user, vlogger) pairs never share a chat.
   */
  lemma ChatIdInjective(u1: string, v1: string, u2: string, v2: string)
    requires '_' !in u1 && '_' !in u2
    requires ChatId(u1, v1) == ChatId(u2, v2)
    ensures u1 == u2 && v1 == v2
  {
    var id := ChatId(u1, v1);
    assert id[..|u1|] == u1 && id[..|u2|] == u2;
    assert FirstUnderscore(id) == |u1| by {
      assert id == u1 + "_" + v1;
      FirstUnderscoreAfter(u1, v1);
    }
    assert FirstUnderscore(id) == |u2| by {
      assert id == u2 + "_" + v2;
      FirstUnderscoreAfter(u2, v2);
    }
  }

  lemma {:induction false} FirstUnderscoreAfter(u: string, v: string)
    requires '_' !in u
    ensures FirstUnderscore(u + "_" + v) == |u|
    decreases |u|
  {
    if |u| > 0 {
      assert (u + "_" + v)[1..] == u[1..] + "_" + v;
      FirstUnderscoreAfter(u[1..], v);
    }
  }

  /** The document merged for a user opening a chat about a vlog. */
  function ChatDocFor(uid: string, v: Vlog): (d: ChatDoc)
    ensures d.chatId == ChatId(uid, v.id) && d.guestId == uid && d.vloggerId == v.id
    ensures d.guestName == "Guest User" && d.vloggerName == v.username && d.vloggerRole == v.role
  {
    ChatDoc(ChatId(uid, v.id), uid, "Guest User", v.id, v.username, v.role)
  }

  /** The chat the shell opens once the document is written. */
  function ChatFor(d: ChatDoc): (c: ActiveChat)
    ensures c.id == d.chatId && c.vloggerId == d.vloggerId
    ensures c.name == d.vloggerName && c.vloggerName == d.vloggerName
    ensures c.role == d.vloggerRole && c.vloggerRole == d.vloggerRole
  {
    ActiveChat(d.chatId, d.vloggerName, d.vloggerRole, d.vloggerName, d.vloggerRole, d.vloggerId)
  }

  /**
   * `authError` as a condition: JavaScript treats a missing (`undefined` or
   * `null`) or empty message as false, so only a non-empty message counts.
   */
  predicate ShowsError(authError: Option<string>) {
    authError.Some? && authError.value != ""
  }

  /**
   * The render: a spinner while sign-in is pending, the error page if it
   * failed with a message or no user is known, otherwise the dashboard, the admin panel or
   * the chat layout, with the reels overlay on top of the chat layout.
   */
  function ScreenOf(authLoading: bool, authError: Option<string>, user: Option<string>,
                    view: View, isAdmin: bool, showAdminLogin: bool): (s: Screen)
    ensures s == Loading <==> authLoading
    ensures s == AuthErrorScreen <==> !authLoading && (ShowsError(authError) || user.None?)
    ensures s.Main? ==> (s.content == DashboardPanel <==> view == DashboardView)
    ensures s.Main? ==> (s.content == AdminPanel <==> view == AdminView && isAdmin)
    ensures s.Main? ==> (s.reelsOverlay <==> view == ReelsView)
    ensures s.Main? ==> s.adminLogin == showAdminLogin
  {
    if authLoading then Loading
    else if ShowsError(authError) || user.None? then AuthErrorScreen
    else
      var content :=
        if view == DashboardView then DashboardPanel
        else if view == AdminView && isAdmin then AdminPanel
        else ChatLayout;
      Main(content, content == ChatLayout && view == ReelsView, showAdminLogin)
  }

  /** The admin view without the admin flag shows the chat layout, not the admin panel. */
  lemma AdminViewNeedsFlag(authError: Option<string>, user: Option<string>, showAdminLogin: bool)
    requires !ShowsError(authError) && user.Some?
    ensures ScreenOf(false, authError, user, AdminView, false, showAdminLogin).content == ChatLayout
  {
  }

  class AppShell {
    var user: Option<string>          // the signed-in user's uid
    var authLoading: bool
    var authError: Option<string>
    var view: View
    var activeChat: Option<ActiveChat>
    var isAdmin: bool
    var showAdminLogin: bool
    var storedAdmin: Option<string>   // the device's remembered admin flag
    var pendingChats: seq<ChatDoc>    // chat documents being written

    ghost function Screen(): Screen
      reads this
    {
      ScreenOf(authLoading, authError, user, view, isAdmin, showAdminLogin)
    }

    /** Start-up: the dashboard, sign-in pending, the admin flag read from the device. */
    constructor (stored: Option<string>)
      ensures storedAdmin == stored && isAdmin == InitialAdmin(stored)
      ensures view == DashboardView && authLoading && authError.None? && user.None?
      ensures activeChat.None? && !showAdminLogin && pendingChats == []
      ensures Screen() == Loading
    {
      user := None;
      authLoading := true;
      authError := None;
      view := DashboardView;
      activeChat := None;
      isAdmin := stored == Some("true");
      showAdminLogin := false;
      storedAdmin := stored;
      pendingChats := [];
    }

    /** The auth listener: a user ends the loading; a signed-out notification changes nothing. */
    method AuthStateChanged(current: Option<string>)
      modifies this
      ensures current.Some? ==> user == current && !authLoading
      ensures current.None? ==> user == old(user) && authLoading == old(authLoading)
      ensures authError == old(authError) && view == old(view) && activeChat == old(activeChat)
      ensures isAdmin == old(isAdmin) && showAdminLogin == old(showAdminLogin)
      ensures storedAdmin == old(storedAdmin) && pendingChats == old(pendingChats)
    {
      if current.Some? {
        user := current;
        authLoading := false;
      }
    }

    /**
     * Anonymous sign-in threw: keep `error.message` (absent when the thrown
     * value has none), stop loading. The error page shows only if the message
     * is non-empty or no user has been reported.
     */
    method SignInFailed(message: Option<string>)
      modifies this
      ensures authError == message && !authLoading
      ensures Screen() == AuthErrorScreen <==> ShowsError(message) || user.None?
      ensures user == old(user) && view == old(view) && activeChat == old(activeChat)
      ensures isAdmin == old(isAdmin) && showAdminLogin == old(showAdminLogin)
      ensures storedAdmin == old(storedAdmin) && pendingChats == old(pendingChats)
    {
      authError := message;
      authLoading := false;
    }

    /**
     * Opening a chat about a vlog: nothing without a user; otherwise the chat
     * document is written and the shell waits for the write. The view and the
     * open chat do not change yet.
     */
    method StartChat(v: Vlog)
      modifies this
      ensures old(user).None? ==> pendingChats == old(pendingChats)
      ensures old(user).Some? ==> pendingChats == old(pendingChats) + [ChatDocFor(old(user).value, v)]
      ensures user == old(user) && authLoading == old(authLoading) && authError == old(authError)
      ensures view == old(view) && activeChat == old(activeChat)
      ensures isAdmin == old(isAdmin) && showAdminLogin == old(showAdminLogin) && storedAdmin == old(storedAdmin)
    {
      if user.None? {
        return;
      }
      pendingChats := pendingChats + [ChatDocFor(user.value, v)];
    }

    /**
     * The chat write at position `k` settles. Only a successful write opens
     * the chat and switches to the chat view; a failed one leaves both as
     * they were.
     */
    method ChatWriteSettled(k: nat, ok: bool)
      requires k < |pendingChats|
      modifies this
      ensures |pendingChats| == |old(pendingChats)| - 1
      ensures multiset(pendingChats) == multiset(old(pendingChats)) - multiset{old(pendingChats)[k]}
      ensures ok ==> activeChat == Some(ChatFor(old(pendingChats)[k])) && view == ChatView
      ensures !ok ==> activeChat == old(activeChat) && view == old(view)
      ensures user == old(user) && authLoading == old(authLoading) && authError == old(authError)
      ensures isAdmin == old(isAdmin) && showAdminLogin == old(showAdminLogin) && storedAdmin == old(storedAdmin)
    {
      var d := pendingChats[k];
      assert pendingChats == pendingChats[..k] + [d] + pendingChats[k + 1..];
      pendingChats := pendingChats[..k] + pendingChats[k + 1..];
      if ok {
        activeChat := Some(ChatFor(d));
        view := ChatView;
      }
    }

    /** The sidebar's admin button: an admin goes to the admin view, anyone else gets the login modal. */
    method AdminClick()
      modifies this
      ensures old(isAdmin) ==> view == AdminView && showAdminLogin == old(showAdminLogin)
      ensures !old(isAdmin) ==> showAdminLogin && view == old(view)
      ensures isAdmin == old(isAdmin) && storedAdmin == old(storedAdmin)
      ensures user == old(user) && authLoading == old(authLoading) && authError == old(authError)
      ensures activeChat == old(activeChat) && pendingChats == old(pendingChats)
    {
      if isAdmin {
        view := AdminView;
      } else {
        showAdminLogin := true;
      }
    }

    /** The login modal accepted the password: admin, remembered, modal closed, admin view. */
    method AdminLogin()
      modifies this
      ensures isAdmin && storedAdmin == Some("true") && !showAdminLogin && view == AdminView
      ensures InitialAdmin(storedAdmin)
      ensures user == old(user) && authLoading == old(authLoading) && authError == old(authError)
      ensures activeChat == old(activeChat) && pendingChats == old(pendingChats)
    {
      isAdmin := true;
      storedAdmin := Some("true");
      showAdminLogin := false;
      view := AdminView;
    }

    /** The login modal's cancel. */
    method AdminCancel()
      modifies this
      ensures !showAdminLogin
      ensures isAdmin == old(isAdmin) && storedAdmin == old(storedAdmin) && view == old(view)
      ensures user == old(user) && authLoading == old(authLoading) && authError == old(authError)
      ensures activeChat == old(activeChat) && pendingChats == old(pendingChats)
    {
      showAdminLogin := false;
    }

    /**
     * Logout: the admin flag is cleared and forgotten by the device, so the
     * page that reloads afterwards starts without admin rights. Signing out
     * and the reload itself are not part of this model.
     */
    method Logout()
      modifies this
      ensures !isAdmin && storedAdmin.None? && !InitialAdmin(storedAdmin)
      ensures view == old(view) && showAdminLogin == old(showAdminLogin)
      ensures user == old(user) && authLoading == old(authLoading) && authError == old(authError)
      ensures activeChat == old(activeChat) && pendingChats == old(pendingChats)
    {
      isAdmin := false;
      storedAdmin := None;
    }

    /** The sidebar, "view reels", the reels close button and the admin panel's back button all set the view. */
    method SetView(v: View)
      modifies this
      ensures view == v
      ensures isAdmin == old(isAdmin) && storedAdmin == old(storedAdmin) && showAdminLogin == old(showAdminLogin)
      ensures user == old(user) && authLoading == old(authLoading) && authError == old(authError)
      ensures activeChat == old(activeChat) && pendingChats == old(pendingChats)
    {
      view := v;
    }

    /** Picking a chat in the chat list. */
    method SelectChat(c: ActiveChat)
      modifies this
      ensures activeChat == Some(c)
      ensures view == old(view) && isAdmin == old(isAdmin) && storedAdmin == old(storedAdmin)
      ensures showAdminLogin == old(showAdminLogin) && pendingChats == old(pendingChats)
      ensures user == old(user) && authLoading == old(authLoading) && authError == old(authError)
    {
      activeChat := Some(c);
    }
  }
}
