/**
 * The HTML e-mail window controller of src/main/windows/html_email.ts
 * (`openHtmlEmailWindow`): the registry of open windows keyed by window id,
 * the initial network policy, the policy change `update_restrictions` with its
 * consent prompt, the "more" menu, resizing and closing.
 *
 * Electron objects are values here: a window is a `Window` record in the
 * registry, its sandboxed view a `View`, the context-menu listeners a set of
 * view tokens, and `Date.now()` (the session partition name) a counter.
 */
module HtmlEmail {
  import opened HtmlEmailView

  /** The two persisted `DesktopSettings` flags the controller reads and writes. */
  datatype Settings = Settings(alwaysLoadRemoteContent: bool, askForRemoteLoadingConfirmation: bool)

  /**
   * One open e-mail window: what it was opened with, the initial network flag
   * reported to its chrome, its current sandboxed view (`sandboxedView`), the
   * views the BrowserWindow shows, and the view `context_menu_handle` unbinds.
   */
  datatype Window = Window(
    isContactRequest: bool, subject: string, from: string, html: string,
    loadRemoteContentAtStart: bool,
    view: View, attached: set<nat>, menuHandle: nat)

  /** The reply to `html_email:get_info`. */
  datatype Info = Info(subject: string, from: string, toggleNetwork: bool)

  /** A window shows exactly its current view, whose menu the handle unbinds. */
  predicate WindowValid(w: Window)
  {
    w.attached == {w.view.token} && w.menuHandle == w.view.token && w.view.html == w.html
  }

  /** The views of all open windows. */
  function ViewTokens(m: map<string, Window>): set<nat>
  {
    set id | id in m :: m[id].view.token
  }

  /** No two open windows share a view. */
  predicate TokensDistinct(m: map<string, Window>)
  {
    forall i, j :: i in m && j in m && i != j ==> m[i].view.token != m[j].view.token
  }

  /**
   * The registry invariant: every open window shows exactly its own view,
   * which is not closed; every view was built before `next`; no two windows share a
   * view; and the views carrying a context-menu listener are exactly the
   * views of the open windows.
   */
  predicate RegistryValid(m: map<string, Window>, listeners: set<nat>, closed: set<nat>, next: nat)
  {
    && (forall id :: id in m ==>
          WindowValid(m[id]) && m[id].view.token < next && m[id].view.token !in closed)
    && (forall t :: t in closed ==> t < next)
    && TokensDistinct(m)
    && listeners == ViewTokens(m)
  }

  /** Registering a window with a fresh view and binding its menu keeps the invariant. */
  lemma {:induction false} InsertKeepsValid(
    m: map<string, Window>, listeners: set<nat>, closed: set<nat>, next: nat, id: string, w: Window)
    requires RegistryValid(m, listeners, closed, next)
    requires id !in m && WindowValid(w) && w.view.token == next
    ensures RegistryValid(m[id := w], listeners + {next}, closed, next + 1)
  {
    var m' := m[id := w];
    forall t | t in ViewTokens(m) + {next} ensures t in ViewTokens(m') {
      if t != next {
        var i :| i in m && m[i].view.token == t;
        assert m'[i] == m[i];
      } else {
        assert m'[id].view.token == t;
      }
    }
  }

  /** Replacing a window's view by a fresh one, closing and unbinding the old, keeps the invariant. */
  lemma {:induction false} ReplaceKeepsValid(
    m: map<string, Window>, listeners: set<nat>, closed: set<nat>, next: nat, id: string, w: Window)
    requires RegistryValid(m, listeners, closed, next)
    requires id in m && WindowValid(w) && w.view.token == next
    ensures RegistryValid(m[id := w], listeners - {m[id].view.token} + {next}, closed + {m[id].view.token}, next + 1)
  {
    var m' := m[id := w];
    var old_ := m[id].view.token;
    forall t | t in ViewTokens(m) - {old_} + {next} ensures t in ViewTokens(m') {
      if t != next {
        var i :| i in m && m[i].view.token == t;
        assert i != id;
        assert m'[i] == m[i];
      } else {
        assert m'[id].view.token == t;
      }
    }
    forall t | t in ViewTokens(m') ensures t in ViewTokens(m) - {old_} + {next} {
      var i :| i in m' && m'[i].view.token == t;
      if i != id {
        assert m[i].view.token == t;
      }
    }
  }

  /** Changing anything of a window but its view's token keeps the invariant. */
  lemma {:induction false} UpdateKeepsValid(
    m: map<string, Window>, listeners: set<nat>, closed: set<nat>, next: nat, id: string, w: Window)
    requires RegistryValid(m, listeners, closed, next)
    requires id in m && WindowValid(w) && w.view.token == m[id].view.token
    ensures RegistryValid(m[id := w], listeners, closed, next)
  {
    var m' := m[id := w];
    forall t | t in ViewTokens(m) ensures t in ViewTokens(m') {
      var i :| i in m && m[i].view.token == t;
      assert m'[i].view.token == t;
    }
  }

  /** Dropping a window and unbinding its menu keeps the invariant. */
  lemma {:induction false} RemoveKeepsValid(
    m: map<string, Window>, listeners: set<nat>, closed: set<nat>, next: nat, id: string)
    requires RegistryValid(m, listeners, closed, next) && id in m
    ensures RegistryValid(m - {id}, listeners - {m[id].view.token}, closed, next)
  {
    var m' := m - {id};
    forall t | t in ViewTokens(m) - {m[id].view.token} ensures t in ViewTokens(m') {
      var i :| i in m && m[i].view.token == t;
      assert i != id;
      assert i in m';
    }
  }

  /** `loadRemoteContentAtStart`: remote content starts allowed only for a non-contact-request with "always load" on. */
  function LoadRemoteContentAtStart(s: Settings, isContactRequest: bool): (load: bool)
    ensures isContactRequest ==> !load
    ensures !isContactRequest ==> load == s.alwaysLoadRemoteContent
  {
    s.alwaysLoadRemoteContent && !isContactRequest
  }

  /** Step 1 of `update_restrictions`: turning the toggle off by hand reverts "always load". */
  predicate ClearsAlwaysLoad(s: Settings, isContactRequest: bool, allowNetwork: bool, skipSideEffects: bool)
  {
    !skipSideEffects && !isContactRequest && !allowNetwork && s.alwaysLoadRemoteContent
  }

  /** Step 2 of `update_restrictions`: allowing the network asks first when the warning is on. */
  predicate AsksUser(s: Settings, allowNetwork: bool, skipSideEffects: bool)
  {
    !skipSideEffects && allowNetwork && s.askForRemoteLoadingConfirmation
  }

  /** Clearing the setting and asking the user never happen in the same call. */
  lemma ClearOrAskExclusive(s: Settings, isContactRequest: bool, allowNetwork: bool, skipSideEffects: bool)
    ensures !(ClearsAlwaysLoad(s, isContactRequest, allowNetwork, skipSideEffects)
              && AsksUser(s, allowNetwork, skipSideEffects))
    ensures skipSideEffects ==>
      !ClearsAlwaysLoad(s, isContactRequest, allowNetwork, skipSideEffects) && !AsksUser(s, allowNetwork, skipSideEffects)
  {
  }

  /** The buttons of the consent dialog, in order: index 0 is "no" (also the default and cancel id). */
  datatype Button = No | Yes
  const ConfirmButtons: seq<Button> := [No, Yes]

  /**
   * `buttons[result.response].action()` returns normally: "no" throws, and an
   * index past the end throws too (there is no action to call).
   */
  predicate DialogApproves(response: nat)
  {
    response < |ConfirmButtons| && ConfirmButtons[response] == Yes
  }

  lemma DialogApprovesOnlyYes(response: nat)
    ensures DialogApproves(response) <==> response == 1
  {
  }

  datatype MoreItemId = AlwaysShow | ShowWarning

  /** A checkbox of the "more" menu and whether it is ticked. */
  datatype MoreItem = MoreItem(id: MoreItemId, checked: bool)

  predicate InMenu(items: seq<MoreItem>, id: MoreItemId)
  {
    exists i :: 0 <= i < |items| && items[i].id == id
  }

  /**
   * The "more" menu (`html-view:more-menu`): for a contact request only the
   * warning checkbox; otherwise "always show" then the warning checkbox, each
   * ticked as its setting is.
   */
  function MoreMenu(isContactRequest: bool, s: Settings): (items: seq<MoreItem>)
    ensures |items| == if isContactRequest then 1 else 2
    ensures items[|items| - 1] == MoreItem(ShowWarning, s.askForRemoteLoadingConfirmation)
    ensures InMenu(items, AlwaysShow) <==> !isContactRequest
    ensures forall i :: 0 <= i < |items| && items[i].id == AlwaysShow ==>
      i == 0 && items[i].checked == s.alwaysLoadRemoteContent
  {
    var dontAsk := MoreItem(ShowWarning, s.askForRemoteLoadingConfirmation);
    if isContactRequest then [dontAsk]
    else
      var items := [MoreItem(AlwaysShow, s.alwaysLoadRemoteContent), dontAsk];
      assert items[0].id == AlwaysShow;
      items
  }

  /** The new view `update_restrictions` installs: built under the requested policy with the old HTML, at the old bounds. */
  function RebuiltView(w: Window, allowNetwork: bool, token: nat): (v: View)
    ensures v.token == token && v.html == w.html && v.bounds == w.view.bounds
    ensures v.policy == PolicyFor(allowNetwork) && !v.prefs.javascript
  {
    MakeBrowserView(allowNetwork, w.html, token).(bounds := w.view.bounds)
  }

  /** The window after `update_restrictions` swapped its view. */
  function RebuiltWindow(w: Window, allowNetwork: bool, token: nat): (w': Window)
    ensures WindowValid(w') && w'.view == RebuiltView(w, allowNetwork, token)
    ensures w'.isContactRequest == w.isContactRequest && w'.html == w.html
  {
    var v := RebuiltView(w, allowNetwork, token);
    w.(view := v, attached := {v.token}, menuHandle := v.token)
  }

  /** The window `openHtmlEmailWindow` registers: its view follows the initial policy and has a fresh partition. */
  function OpenedWindow(s: Settings, isContactRequest: bool, subject: string, from: string, html: string, token: nat)
    : (w: Window)
    ensures WindowValid(w) && w.view.token == token
    ensures w.loadRemoteContentAtStart == LoadRemoteContentAtStart(s, isContactRequest)
    ensures w.view == MakeBrowserView(w.loadRemoteContentAtStart, html, token)
    ensures w.isContactRequest == isContactRequest && w.subject == subject && w.from == from && w.html == html
  {
    var load := LoadRemoteContentAtStart(s, isContactRequest);
    var v := MakeBrowserView(load, html, token);
    Window(isContactRequest, subject, from, html, load, v, {v.token}, v.token)
  }

  /**
   * The module-level `open_windows` registry together with the process-wide
   * state the windows share: the settings, the writes made to them, the views
   * carrying a context-menu listener, the views whose contents were closed,
   * the next fresh partition, and the focus requests made.
   */
  class HtmlEmailWindows {
    var openWindows: map<string, Window>
    var settings: Settings
    var settingsWrites: seq<Settings>
    var menuListeners: set<nat>
    var closedViews: set<nat>
    var nextToken: nat
    var focusRequests: seq<string>

    /**
     * Every open window shows exactly its own live view, the handle it would
     * unbind is that view's, and the views carrying a context menu are exactly
     * the views of the open windows.
     */
    ghost predicate Valid()
      reads this
    {
      RegistryValid(openWindows, menuListeners, closedViews, nextToken)
    }

    constructor (initial: Settings)
      ensures Valid()
      ensures openWindows == map[] && settings == initial && settingsWrites == []
      ensures menuListeners == {} && closedViews == {} && focusRequests == []
    {
      openWindows := map[];
      settings := initial;
      settingsWrites := [];
      menuListeners := {};
      closedViews := {};
      nextToken := 0;
      focusRequests := [];
    }

    /**
     * `openHtmlEmailWindow`. An id already open is only focused; otherwise a
     * new window is registered under it with a view built under the initial
     * policy, and its context menu is bound.
     */
    method Open(windowId: string, isContactRequest: bool, subject: string, from: string, html: string)
      requires Valid()
      modifies this`openWindows, this`menuListeners, this`nextToken, this`focusRequests
      ensures Valid()
      ensures windowId in old(openWindows) ==>
        && openWindows == old(openWindows)
        && menuListeners == old(menuListeners) && nextToken == old(nextToken)
        && focusRequests == old(focusRequests) + [windowId]
      ensures windowId !in old(openWindows) ==>
        && openWindows == old(openWindows)[windowId := OpenedWindow(settings, isContactRequest, subject, from, html, old(nextToken))]
        && menuListeners == old(menuListeners) + {old(nextToken)}
        && nextToken == old(nextToken) + 1
        && focusRequests == old(focusRequests)
    {
      if windowId in openWindows {
        focusRequests := focusRequests + [windowId];
        return;
      }
      var w := OpenedWindow(settings, isContactRequest, subject, from, html, nextToken);
      Register(windowId, w);
    }

    /** Registers a window with a fresh view under an id not yet open, and binds its context menu. */
    method Register(windowId: string, w: Window)
      requires Valid() && windowId !in openWindows && WindowValid(w) && w.view.token == nextToken
      modifies this`openWindows, this`menuListeners, this`nextToken
      ensures Valid()
      ensures openWindows == old(openWindows)[windowId := w]
      ensures menuListeners == old(menuListeners) + {old(nextToken)} && nextToken == old(nextToken) + 1
    {
      InsertKeepsValid(openWindows, menuListeners, closedViews, nextToken, windowId, w);
      openWindows := openWindows[windowId := w];
      menuListeners := menuListeners + {nextToken};
      nextToken := nextToken + 1;
    }

    /** `html_email:get_info`: the subject, the sender and the initial network flag. */
    method GetInfo(windowId: string) returns (info: Info)
      requires windowId in openWindows
      ensures info.subject == openWindows[windowId].subject && info.from == openWindows[windowId].from
      ensures info.toggleNetwork == openWindows[windowId].loadRemoteContentAtStart
    {
      var w := openWindows[windowId];
      info := Info(w.subject, w.from, w.loadRemoteContentAtStart);
    }

    /** The window's `close` handler: unbind its current context menu, then drop exactly its entry. */
    method Close(windowId: string)
      requires Valid() && windowId in openWindows
      modifies this
      ensures Valid()
      ensures openWindows == old(openWindows) - {windowId}
      ensures menuListeners == old(menuListeners) - {old(openWindows)[windowId].view.token}
      ensures settings == old(settings) && settingsWrites == old(settingsWrites)
      ensures closedViews == old(closedViews) && nextToken == old(nextToken)
      ensures focusRequests == old(focusRequests)
    {
      var w := openWindows[windowId];
      RemoveKeepsValid(openWindows, menuListeners, closedViews, nextToken, windowId);
      menuListeners := Unbind(menuListeners, w.menuHandle, false);
      openWindows := openWindows - {windowId};
    }

    /**
     * `update_restrictions(_, allowNetwork, skipSideEffects)` for one window,
     * with the user's answer to the consent dialog as `response`. A denial
     * (or an answer that is not "yes") leaves everything as it was; otherwise
     * the old view is detached, unbound and closed, and a view built under the
     * new policy takes its place at the old bounds, with its menu bound.
     */
    method UpdateRestrictions(windowId: string, allowNetwork: bool, skipSideEffects: bool, response: nat)
      returns (prompted: bool, denied: bool)
      requires Valid() && windowId in openWindows
      modifies this
      ensures Valid()
      ensures prompted == AsksUser(old(settings), allowNetwork, skipSideEffects)
      ensures denied == (prompted && !DialogApproves(response))
      ensures var w := old(openWindows)[windowId];
        if ClearsAlwaysLoad(old(settings), w.isContactRequest, allowNetwork, skipSideEffects) then
          settings == old(settings).(alwaysLoadRemoteContent := false)
          && settingsWrites == old(settingsWrites) + [settings]
        else
          settings == old(settings) && settingsWrites == old(settingsWrites)
      ensures denied ==>
        && openWindows == old(openWindows) && menuListeners == old(menuListeners)
        && closedViews == old(closedViews) && nextToken == old(nextToken)
      ensures !denied ==>
        var w := old(openWindows)[windowId];
        && openWindows == old(openWindows)[windowId := RebuiltWindow(w, allowNetwork, old(nextToken))]
        && menuListeners == old(menuListeners) - {w.view.token} + {old(nextToken)}
        && closedViews == old(closedViews) + {w.view.token}
        && nextToken == old(nextToken) + 1
      ensures focusRequests == old(focusRequests)
    {
      var w := openWindows[windowId];
      if ClearsAlwaysLoad(settings, w.isContactRequest, allowNetwork, skipSideEffects) {
        settings := settings.(alwaysLoadRemoteContent := false);
        settingsWrites := settingsWrites + [settings];
      }
      prompted := AsksUser(settings, allowNetwork, skipSideEffects);
      denied := prompted && !DialogApproves(response);
      if denied {
        return;
      }
      ReplaceView(windowId, allowNetwork);
    }

    /**
     * The teardown and rebuild at the end of `update_restrictions`, in its
     * order: remember the bounds, detach the view, call the menu handle, close
     * the view's contents, build and attach a view under the new policy, bind
     * its menu, and give it the remembered bounds.
     */
    method ReplaceView(windowId: string, allowNetwork: bool)
      requires Valid() && windowId in openWindows
      modifies this`openWindows, this`menuListeners, this`closedViews, this`nextToken
      ensures Valid()
      ensures var w := old(openWindows)[windowId];
        && openWindows == old(openWindows)[windowId := RebuiltWindow(w, allowNetwork, old(nextToken))]
        && menuListeners == old(menuListeners) - {w.view.token} + {old(nextToken)}
        && closedViews == old(closedViews) + {w.view.token}
        && nextToken == old(nextToken) + 1
    {
      var w := openWindows[windowId];
      SwapView(windowId, RebuiltWindow(w, allowNetwork, nextToken));
    }

    /**
     * Puts a window with a fresh view in place of the open window `windowId`:
     * the old view's context menu is unbound and its contents closed, then
     * the new view's menu is bound.
     */
    method SwapView(windowId: string, w: Window)
      requires Valid() && windowId in openWindows && WindowValid(w) && w.view.token == nextToken
      modifies this`openWindows, this`menuListeners, this`closedViews, this`nextToken
      ensures Valid()
      ensures var old_ := old(openWindows)[windowId].view.token;
        && openWindows == old(openWindows)[windowId := w]
        && menuListeners == old(menuListeners) - {old_} + {old(nextToken)}
        && closedViews == old(closedViews) + {old_}
        && nextToken == old(nextToken) + 1
    {
      var previous := openWindows[windowId];
      ReplaceKeepsValid(openWindows, menuListeners, closedViews, nextToken, windowId, w);
      // context_menu_handle()
      menuListeners := Unbind(menuListeners, previous.menuHandle, false);
      // sandboxedView.webContents.close()
      closedViews := closedViews + {previous.view.token};
      // context_menu_handle = createContextMenu(window, sandboxedView.webContents)
      menuListeners := menuListeners + {w.view.token};
      openWindows := openWindows[windowId := w];
      nextToken := nextToken + 1;
    }

    /** `html-view:resize-content`: the view takes the given bounds, moved down to the bottom of the window. */
    method ResizeContent(windowId: string, bounds: Rect, windowHeight: int)
      requires Valid() && windowId in openWindows
      modifies this
      ensures Valid()
      ensures var w := old(openWindows)[windowId];
        openWindows == old(openWindows)[windowId := w.(view := w.view.(bounds := bounds.(y := windowHeight - bounds.height)))]
      ensures settings == old(settings) && settingsWrites == old(settingsWrites)
      ensures menuListeners == old(menuListeners) && closedViews == old(closedViews)
      ensures nextToken == old(nextToken) && focusRequests == old(focusRequests)
    {
      var w := openWindows[windowId];
      var newY := windowHeight - bounds.height;
      w := w.(view := w.view.(bounds := bounds.(y := newY)));
      UpdateKeepsValid(openWindows, menuListeners, closedViews, nextToken, windowId, w);
      openWindows := openWindows[windowId := w];
    }

    /**
     * Clicking an entry of the window's "more" menu. "Always show" flips the
     * setting and rebuilds the view under the new value without prompting or
     * clearing anything; the warning checkbox flips the other setting. An
     * entry the menu does not hold (always-show on a contact request) cannot
     * be clicked and changes nothing.
     */
    method SelectMoreMenuItem(windowId: string, item: MoreItemId)
      requires Valid() && windowId in openWindows
      modifies this
      ensures Valid()
      ensures var w := old(openWindows)[windowId];
        !InMenu(MoreMenu(w.isContactRequest, old(settings)), item) ==>
          && settings == old(settings) && settingsWrites == old(settingsWrites)
          && openWindows == old(openWindows) && menuListeners == old(menuListeners)
          && closedViews == old(closedViews) && nextToken == old(nextToken)
      ensures item == ShowWarning ==>
        var s := old(settings).(askForRemoteLoadingConfirmation := !old(settings).askForRemoteLoadingConfirmation);
        && settings == s && settingsWrites == old(settingsWrites) + [s]
        && openWindows == old(openWindows) && menuListeners == old(menuListeners)
        && closedViews == old(closedViews) && nextToken == old(nextToken)
      ensures var w := old(openWindows)[windowId];
        item == AlwaysShow && !w.isContactRequest ==>
          var s := old(settings).(alwaysLoadRemoteContent := !old(settings).alwaysLoadRemoteContent);
          && settings == s && settingsWrites == old(settingsWrites) + [s]
          && openWindows == old(openWindows)[windowId := RebuiltWindow(w, s.alwaysLoadRemoteContent, old(nextToken))]
          && menuListeners == old(menuListeners) - {w.view.token} + {old(nextToken)}
          && closedViews == old(closedViews) + {w.view.token}
          && nextToken == old(nextToken) + 1
      ensures focusRequests == old(focusRequests)
    {
      var w := openWindows[windowId];
      var menu := MoreMenu(w.isContactRequest, settings);
      if !InMenu(menu, item) {
        return;
      }
      match item
      case AlwaysShow =>
        var newValue := !settings.alwaysLoadRemoteContent;
        settings := settings.(alwaysLoadRemoteContent := newValue);
        settingsWrites := settingsWrites + [settings];
        var prompted, denied := UpdateRestrictions(windowId, newValue, true, 0);
      case ShowWarning =>
        settings := settings.(askForRemoteLoadingConfirmation := !settings.askForRemoteLoadingConfirmation);
        settingsWrites := settingsWrites + [settings];
    }
  }

  /** A new e-mail window with remote content off gets a scriptless view whose page is served under `CSP_DENY`. */
  method OpenScenario()
  {
    var windows := new HtmlEmailWindows(Settings(false, true));
    windows.Open("7", false, "s", "f", "h");
    var w := windows.openWindows["7"];
    assert w.view.policy == RemoteBlocked && !w.view.prefs.javascript;
    ViewRequests(false, "h", w.view.token, "email");
    assert HandleRequest(w.view.session, "email").csp == CspFor(RemoteBlocked);
  }

  /**
   * The scenario of a blocked e-mail whose user is asked before loading
   * remote content: "no" keeps the blocked view, "yes" swaps in an allowing
   * view at the same bounds.
   */
  method ConsentScenario()
  {
    var windows := new HtmlEmailWindows(Settings(false, true));
    windows.Open("7", false, "s", "f", "h");
    var w := windows.openWindows["7"];
    assert w.view.policy == RemoteBlocked && !w.view.prefs.javascript;
    windows.ResizeContent("7", Rect(0, 40, 800, 500), 621);
    var before := windows.openWindows["7"];
    var prompted, denied := windows.UpdateRestrictions("7", true, false, 0);
    assert prompted && denied && windows.openWindows["7"] == before;
    prompted, denied := windows.UpdateRestrictions("7", true, false, 1);
    var after := windows.openWindows["7"];
    assert prompted && !denied;
    assert after.view.policy == RemoteAllowed && after.view.bounds == before.view.bounds;
    assert after.attached == {after.view.token} && after.view.token in windows.menuListeners;
    assert before.view.token !in windows.menuListeners && before.view.token in windows.closedViews;
    assert windows.settings == Settings(false, true);
  }
}
