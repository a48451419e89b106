# Delta Chat Desktop: HTML e-mail windows, new-chat dialog, chat menu and build configuration

This project is a Dafny model of four parts of Delta Chat Desktop, with proofs of what they promise.

- **The HTML e-mail window controller** (`src/main/windows/html_email.ts`).
  - The registry of open e-mail windows, keyed by window id.
  - The sandboxed view that renders the e-mail, under one of two network policies:
    - remote content blocked: a dead proxy, 404 for http and https, and a strict CSP;
    - remote content allowed.
  - The policy change `update_restrictions`, with its "always load" revert and the consent dialog. It tears down and rebuilds the view.
  - The "more" menu, resizing, navigation handling, the context menu and closing.
- **The new-chat dialog** (`src/renderer/components/dialogs/CreateChat/index.tsx`).
  - The member list of a group or broadcast list being built (`useGroupMembers`).
  - The items of the main list.
  - The add-member dialog's selection, row states and cancel clean-up.
  - The backend calls that create a group or a broadcast list.
- **The chat header's three-dot menu** (`src/renderer/components/ThreeDotMenu.tsx`): which entries a chat gets.
- **The electron-builder configuration generator** (`build/gen-electron-builder-config.js`).
  - The packaged file list built from the ignore file.
  - Per-platform filters.
  - The `NO_ASAR` switch.
  - The appx language guard.

## How the model is organised

- Shared helpers:
  - `JsStrings`: `trim`, `startsWith`, ASCII `toLowerCase`, and `split`/`join` on one character. It proves both round trips.
  - `JsArrays`: `Array.prototype.filter` and its algebra.
  - `Wrappers`: `Option` and `Result`.
- `HtmlEmailView` holds the pure part of `html_email.ts`: the view, its session, the CSPs, navigation and the context menu.
- `HtmlEmail` holds the stateful part as the class `HtmlEmailWindows`.
  - The module-level `open_windows` object, the settings and the listener bookkeeping are its fields.
  - Every method keeps the registry invariant `Valid()`:
    - each window shows exactly its own live view;
    - no two windows share a view;
    - the views carrying a context-menu listener are exactly the views of the open windows.
  - `Date.now()`, the session partition name, is the counter `nextToken`. In the model every view therefore gets a partition of its own; see "## Left out" for where the source differs.
  - `OpenScenario` and `ConsentScenario` are worked examples. They open a blocked e-mail, check the CSP it is served with, then refuse and grant the consent dialog.
- `CreateChat` has a function or lemma for each piece of pure logic.
  - The state hooks become classes whose methods reassign a `seq` field: `GroupMembers` and `AddMemberSelection`.
  - Loops over members become methods with loop invariants: `AddMembersToChat`, `AddChosenMembers` and `OnCancel`.
- `ThreeDotMenu` keeps each `false` entry of the source's array as a `Hidden` slot.
- `BuildConfig` takes three parameters: the ignore file's text, `NO_ASAR`, and the store's language predicate.

## Model

| member | source | states |
|---|---|---|
| HtmlEmailView.PolicyFor | src/main/windows/html_email.ts:277 | The blocking policy is chosen exactly when remote content is not allowed. What blocking does to requests is `ViewRequests`. |
| HtmlEmailView.CspDenyLinesHaveNoBreak | src/main/windows/html_email.ts:255-262 | No line of `CSP_DENY` holds a line break. |
| HtmlEmailView.CspAllowLinesHaveNoBreak | src/main/windows/html_email.ts:263-273 | No line of `CSP_ALLOW` holds a line break. |
| HtmlEmailView.CspDirectives | src/main/windows/html_email.ts:255-272 | Both CSPs split into exactly their directive lines. Each forbids scripts, form actions, frames and any unlisted source. The allowing CSP starts and ends with a blank line. |
| HtmlEmailView.MakeBrowserView | src/main/windows/html_email.ts:274-313 | A new view: JS, dialogs and WebGL off, sandbox and context isolation on. It has its own cache-less partition, follows the requested policy and loads `email://index.html`. |
| HtmlEmailView.ViewRequests | src/main/windows/html_email.ts:275-298 | The e-mail is served from `email:` with status 200, `text/html` and the policy's CSP. Blocked: http and https get 404, and no request of any scheme goes straight to the network. Allowed: http and https go out directly. |
| HtmlEmailView.OnViewWillNavigate | src/main/windows/html_email.ts:315-328 | Navigation in the view is always cancelled. The URL goes to the mailto handler exactly when it starts with `mailto:`, otherwise to the external opener. |
| HtmlEmailView.OnWindowWillNavigate | src/main/windows/html_email.ts:95-99 | Navigation of the outer window is cancelled and goes nowhere. |
| HtmlEmailView.ContextMenuTemplate | src/main/windows/html_email.ts:388-394 | The menu is copy, separator, copy image, separator, copy link. It never offers paste. |
| HtmlEmailView.ContextMenuPredicates | src/main/windows/html_email.ts:338-386 | Copy is enabled iff copying is allowed and the selection has a non-whitespace character. Copy is shown iff the target is editable or has such a selection. Copy link is shown iff there is a link that is not media. Copy image is shown iff the target is an image. |
| HtmlEmailView.Click | src/main/windows/html_email.ts:350-384 | Copy link writes the link text and URL as a bookmark. Copy image copies at the click position. |
| HtmlEmailView.Unbind | src/main/windows/html_email.ts:398-403 | The unbind handle removes exactly the view's listener. It does nothing once the window is destroyed. |
| HtmlEmail.InsertKeepsValid | src/main/windows/html_email.ts:40-62 | Registering a window with a fresh view and binding its menu keeps the registry invariant. |
| HtmlEmail.ReplaceKeepsValid | src/main/windows/html_email.ts:236-243 | Swapping a window's view for a fresh one keeps the registry invariant. The old view is unbound and closed, the new one bound. |
| HtmlEmail.UpdateKeepsValid | src/main/windows/html_email.ts:170-180 | Changing a window without changing its view's identity keeps the registry invariant. |
| HtmlEmail.RemoveKeepsValid | src/main/windows/html_email.ts:108-111 | Dropping a window and unbinding its view keeps the registry invariant. |
| HtmlEmail.LoadRemoteContentAtStart | src/main/windows/html_email.ts:65-66 | A contact request never starts with remote content. Any other e-mail starts as the "always load" setting says. |
| HtmlEmail.ClearOrAskExclusive | src/main/windows/html_email.ts:187-203 | One call never both reverts "always load" and asks the user. With side effects skipped it does neither. |
| HtmlEmail.DialogApprovesOnlyYes | src/main/windows/html_email.ts:204-233 | The consent dialog approves exactly for answer index 1 ("yes"). "No" throws, and so does an index with no button. |
| HtmlEmail.MoreMenu | src/main/windows/html_email.ts:120-168 | A contact request gets only the warning checkbox. Other e-mails get "always show" first, then the warning checkbox. Each box is ticked as its setting is. |
| HtmlEmail.RebuiltView | src/main/windows/html_email.ts:236-243 | The replacement view is built from the same HTML under the requested policy and a fresh partition. It sits at the old view's bounds. |
| HtmlEmail.RebuiltWindow | src/main/windows/html_email.ts:236-243 | After the swap the window shows only the new view, and its menu handle points to it. |
| HtmlEmail.OpenedWindow | src/main/windows/html_email.ts:40-118 | The new window shows only its view, built under the initial policy with a fresh partition, and records what it was opened with. |
| HtmlEmail.HtmlEmailWindows.constructor | src/main/windows/html_email.ts:19 | The registry starts empty and valid. |
| HtmlEmail.HtmlEmailWindows.Open | src/main/windows/html_email.ts:28-118 | An id already open is only focused. Otherwise it registers a window whose view follows the initial policy and binds one listener. The invariant is kept. |
| HtmlEmail.HtmlEmailWindows.Register | src/main/windows/html_email.ts:40-118 | The window is added under its id and its view's listener is bound. Nothing else in the registry changes. The invariant is kept. |
| HtmlEmail.HtmlEmailWindows.GetInfo | src/main/windows/html_email.ts:68-73 | It answers with the subject, the sender and the initial network flag. |
| HtmlEmail.HtmlEmailWindows.Close | src/main/windows/html_email.ts:108-111 | Closing unbinds the window's current view and removes exactly that window's entry. |
| HtmlEmail.HtmlEmailWindows.UpdateRestrictions | src/main/windows/html_email.ts:182-247 | "Always load" is reverted iff it is on and the user blocks a non-contact-request without skipping side effects. The user is asked iff the network is being allowed, the warning is on and side effects are not skipped. A denial changes nothing else. Otherwise the view is rebuilt as in `RebuiltWindow`, the old one unbound and closed. |
| HtmlEmail.HtmlEmailWindows.ReplaceView | src/main/windows/html_email.ts:236-243 | The window gets the rebuilt view at the old bounds. The old view is unbound and closed, the new one bound. The invariant is kept. |
| HtmlEmail.HtmlEmailWindows.SwapView | src/main/windows/html_email.ts:237-242 | In the source's order: the old view's menu is unbound and its contents closed, then the new view's menu is bound. Exactly that entry and those listeners change. The invariant is kept. |
| HtmlEmail.HtmlEmailWindows.ResizeContent | src/main/windows/html_email.ts:170-180 | The view takes the given bounds, with y moved to window height minus content height. Nothing else changes. |
| HtmlEmail.HtmlEmailWindows.SelectMoreMenuItem | src/main/windows/html_email.ts:125-156 | "Always show" flips and stores its setting, then rebuilds the view under the new value without prompting: the old view is closed and one fresh partition is used. The warning box flips and stores its setting, and no view changes. An item not in the menu changes nothing. |
| CreateChat.Without | src/renderer/components/dialogs/CreateChat/index.tsx:998-1000 | Filtering out an id never lengthens the list. |
| CreateChat.WithoutCount | src/renderer/components/dialogs/CreateChat/index.tsx:998-1000 | Every occurrence of the id goes. Every other id stays as often as it occurred. |
| CreateChat.WithoutAppend | src/renderer/components/dialogs/CreateChat/index.tsx:998-1000 | The remaining ids keep their relative order. |
| CreateChat.WithoutAbsent | src/renderer/components/dialogs/CreateChat/index.tsx:998-1000 | Removing an id that is not present changes nothing. |
| CreateChat.GroupMembers.constructor | src/renderer/components/dialogs/CreateChat/index.tsx:995-996 | The list starts as the given initial members. |
| CreateChat.GroupMembers.RemoveGroupMember | src/renderer/components/dialogs/CreateChat/index.tsx:998-1000 | SELF is never removed. Any other id is removed everywhere it occurs. |
| CreateChat.GroupMembers.AddGroupMember | src/renderer/components/dialogs/CreateChat/index.tsx:1002-1003 | The id is appended at the end. |
| CreateChat.ToggledMembers | src/renderer/components/dialogs/CreateChat/index.tsx:998-1009 | A present id other than SELF is gone afterwards and the list is shorter. SELF stays. An absent id is appended. No other id changes how often it occurs. |
| CreateChat.GroupMembers.AddRemoveGroupMember | src/renderer/components/dialogs/CreateChat/index.tsx:1005-1009 | The members become `ToggledMembers` of the old members and the id. |
| CreateChat.GroupMembers.AddGroupMembers | src/renderer/components/dialogs/CreateChat/index.tsx:1011-1015 | All ids are appended in order. |
| CreateChat.SelfStaysMember | src/renderer/components/dialogs/CreateChat/index.tsx:299-301 | Once SELF is a member, no removal takes it out. |
| CreateChat.AddChosenMembers | src/renderer/components/dialogs/CreateChat/index.tsx:322-326 | Adding the chosen ids one by one appends all of them, in order. |
| CreateChat.AddRemoveTwiceRestores | src/renderer/components/dialogs/CreateChat/index.tsx:998-1009 | Toggling an absent id twice gives back the original list, except for SELF: it is added and then cannot be removed. |
| CreateChat.ToggleTwice | src/renderer/components/dialogs/CreateChat/index.tsx:1005-1009 | Two `addRemoveGroupMember` calls with an absent id other than SELF leave the members as they were. |
| CreateChat.ContactsAndExtraItemsContacts | src/renderer/components/dialogs/CreateChat/index.tsx:132-138 | For any query, the contacts appear in the list exactly once each, in order. |
| CreateChat.ContactItemsHoldNoExtras | src/renderer/components/dialogs/CreateChat/index.tsx:132-138 | The contact entries hold none of the extra items. |
| CreateChat.ExtrasWithoutQuery | src/renderer/components/dialogs/CreateChat/index.tsx:116-138 | Empty query: the list is QR scan, new group, then "new broadcast list" iff that setting is on (at index 2), then exactly the contact items. "Add contact" is never offered. |
| CreateChat.ExtrasWithQuery | src/renderer/components/dialogs/CreateChat/index.tsx:116-138 | Non-empty query: none of the leading extras. "Add contact" is offered, as the last entry, unless the single hit already has the typed address (case-insensitive, query trimmed). The list is exactly the contact items followed by that at most one entry. |
| CreateChat.RowStates | src/renderer/components/dialogs/CreateChat/index.tsx:597-599 | For a search result, checked iff selected or already a member. Disabled iff already a member or SELF. |
| CreateChat.AddMemberRows | src/renderer/components/dialogs/CreateChat/index.tsx:792-794 | One row per search result, in order. An "add contact" row is added exactly when the query is non-empty and nothing was found. |
| CreateChat.AddMemberSelection.constructor | src/renderer/components/dialogs/CreateChat/index.tsx:601 | Nothing is selected and nothing is pending deletion. |
| CreateChat.AddMemberSelection.AddMember | src/renderer/components/dialogs/CreateChat/index.tsx:627-637 | When verification is required, an unverified contact only opens the warning dialog. Otherwise the contact is appended. |
| CreateChat.AddMemberSelection.RemoveMember | src/renderer/components/dialogs/CreateChat/index.tsx:639-644 | Every selected entry with the contact's id is removed. |
| CreateChat.Toggled | src/renderer/components/dialogs/CreateChat/index.tsx:627-655 | A selected id is removed and none of it remains. An unselected contact is appended, unless verification is required and it is unverified, when the selection stays. Whether a contact with another id is selected does not change. |
| CreateChat.ToggleTwiceRestores | src/renderer/components/dialogs/CreateChat/index.tsx:627-655 | Toggling an unselected contact twice gives back the selection. |
| CreateChat.AddMemberSelection.ToggleMember | src/renderer/components/dialogs/CreateChat/index.tsx:646-655 | The selection becomes `Toggled`. The warning dialog opens once exactly when an unselected, unverified contact is refused. Otherwise the dialog count stays. |
| CreateChat.AddMemberSelection.CreateNewContact | src/renderer/components/dialogs/CreateChat/index.tsx:657-671 | An invalid address changes nothing. A valid one makes the selection `Toggled` with the new contact, with the same dialog count as `ToggleMember`. It records the contact for deletion on cancel and clears the query. |
| CreateChat.AddMemberSelection.OnOk | src/renderer/components/dialogs/CreateChat/index.tsx:673-679 | It does nothing on an empty selection. Otherwise it passes the selected ids in selection order. |
| CreateChat.AddMemberSelection.OnCancel | src/renderer/components/dialogs/CreateChat/index.tsx:681-686 | It deletes each contact created in the dialog, in creation order. |
| CreateChat.AddMembersToChat | src/renderer/components/dialogs/CreateChat/index.tsx:893-897 | One add call per member other than SELF, in list order. |
| CreateChat.AddedMembers | src/renderer/components/dialogs/CreateChat/index.tsx:924-928 | SELF is never added. Any other contact is added iff it is a member. |
| CreateChat.FinishCreateGroup | src/renderer/components/dialogs/CreateChat/index.tsx:871-911 | An empty name does nothing. Otherwise: create the group, set a non-empty image, add the other members, close, select the chat. |
| CreateChat.CreateGroupButton | src/renderer/components/dialogs/CreateChat/index.tsx:375-382 | An empty name only raises the error flag, with no call made. Otherwise the whole group flow runs: create the group, set a non-empty image, add every member other than SELF, close the dialog, select the new chat. |
| CreateChat.FinishCreateBroadcast | src/renderer/components/dialogs/CreateChat/index.tsx:913-940 | Create the list, add the recipients other than SELF, set the name, close, select the chat. |
| CreateChat.CreateBroadcastButton | src/renderer/components/dialogs/CreateChat/index.tsx:487-494 | An empty name only raises the error flag, with no call made. Otherwise the whole broadcast flow runs: create the list, add every recipient other than SELF, set the name, close the dialog, select the new list. |
| ThreeDotMenu.Menu | src/renderer/components/ThreeDotMenu.tsx:37-108 | No chat (or chat 0): a single hidden slot. Otherwise seven slots, the last always "delete chat". |
| ThreeDotMenu.NoChatNoEntries | src/renderer/components/ThreeDotMenu.tsx:37-38 | Without a selected chat nothing is offered. |
| ThreeDotMenu.MenuStateEntries | src/renderer/components/ThreeDotMenu.tsx:74-103 | Delete is always offered. Exactly one of mute/unmute and of archive/unarchive, following the chat's state. |
| ThreeDotMenu.MenuChatEntries | src/renderer/components/ThreeDotMenu.tsx:64-99 | Disappearing messages iff the user can send. Audit log iff not saved messages, not the device chat, and the setting is on. Block iff the chat is not a group (any other chat type) and is neither saved messages nor the device chat. Leave iff a group the user is in. Never both block and leave. |
| ThreeDotMenu.MenuEntriesDistinct | src/renderer/components/ThreeDotMenu.tsx:64-107 | No entry is offered twice. |
| BuildConfig.ExcludeListByLines | build/gen-electron-builder-config.js:10-17 | The exclude list is built line by line: text joined at a line break gives the first part's entries, then the second's. |
| BuildConfig.ExcludeListOfLine | build/gen-electron-builder-config.js:10-17 | A single line contributes `!` plus its trimmed text when that is a pattern, and nothing otherwise. |
| BuildConfig.ExcludeListEntryShape | build/gen-electron-builder-config.js:10-17 | Every entry is `!` followed by a non-empty, non-comment pattern without surrounding whitespace. |
| BuildConfig.ExcludeListMembership | build/gen-electron-builder-config.js:10-17 | `!p` is an entry iff `p` is a pattern and some line trims to it. |
| BuildConfig.NegatedPatterns | build/gen-electron-builder-config.js:15-17 | Filtering and negating the lines gives exactly `!` plus each kept pattern. |
| BuildConfig.Files | build/gen-electron-builder-config.js:18-22 | The file list is the include-everything glob followed by exactly the exclude list. |
| BuildConfig.FilesMembership | build/gen-electron-builder-config.js:10-22 | `!p` is in the file list iff `p` is a pattern some line trims to. Every entry after the first is `!` followed by a pattern. |
| BuildConfig.PlatformFilesFilters | build/gen-electron-builder-config.js:65-69 | Each platform lists the common files followed by exactly the other two platforms' RPC-server filters, never its own. |
| BuildConfig.AsarOption | build/gen-electron-builder-config.js:59-61 | asar is switched off iff `NO_ASAR` is set to anything but `false`. Otherwise the key is absent. |
| BuildConfig.LanguagesLowerCase | build/gen-electron-builder-config.js:128-172 | The 39 listed codes, each lower-cased, in list order (`pt-BR` becomes `pt-br`). |
| BuildConfig.UnsupportedLanguagesExactly | build/gen-electron-builder-config.js:174-176 | The unsupported list is non-empty iff some listed code is not accepted. A code is in it iff it is listed and not accepted. |
| BuildConfig.GenerateFailure | build/gen-electron-builder-config.js:174-181 | Generation fails iff some language is not accepted by the store. The error lists exactly those languages, in order. |
| BuildConfig.GenerateSuccess | build/gen-electron-builder-config.js:183-189 | On success the appx languages are the list and all are accepted. The appx id is the app id, and the platform file lists are built from the common files. |
| JsStrings.TrimEmptyIff | src/main/windows/html_email.ts:339 | A string trims to empty iff every character is whitespace. |
| JsStrings.SplitConcat | build/gen-electron-builder-config.js:14 | Splitting at a separator splits the two sides apart. |
| JsStrings.JoinSplit | build/gen-electron-builder-config.js:14 | Joining the pieces of a split gives the text back. |
| JsStrings.SplitJoin | src/main/windows/html_email.ts:255-272 | Splitting a join of separator-free pieces gives the pieces back. |
| JsStrings.ToLowerNormalises | build/gen-electron-builder-config.js:172 | Lower-cased text has no upper-case letter, and lower-casing it again changes nothing. |
| JsArrays.FilterMembership | build/gen-electron-builder-config.js:174-176 | An element survives a filter iff it was present and is kept. |
| JsArrays.FilterCount | src/renderer/components/dialogs/CreateChat/index.tsx:1000 | A kept value survives as often as it occurred. Any other value is gone. |
| JsArrays.FilterAppend | src/renderer/components/dialogs/CreateChat/index.tsx:641 | Filtering keeps relative order: it distributes over concatenation. |

## Left out

- Electron itself is not modelled. This covers window creation options, zoom, themes and `nativeTheme`, `loadFile`, `ready-to-show`/`focus`, menus popping up, the clipboard and `shell`. It also covers `executeJavaScript` in the "always show" click, which updates the toggle in the window's page. Only the state these calls change is kept: the registry, views, listeners and closed views.
- `truncateText` in the window title, and `tx` translations, are not modelled.
- Partition names: the source names each view's session by `Date.now()`. Two views made in the same millisecond would share one session and its protocol handlers. The model draws names from a counter, so the fresh-partition facts of `OpenedWindow`, `RebuiltView` and the registry invariant hold by that counter, not by the source.
- HtmlEmailView.HandleRequest: this is the model's own account of how an Electron session routes a request. The 404 interceptors come before the proxy, and the proxy comes before the network. `ViewRequests`' "nothing goes straight to the network" holds under that account; Electron's routing itself is not modelled.
- `update_restrictions` is asynchronous. Two overlapping calls could interleave at the dialog's `await`. The model runs each call to completion, with the dialog answer as a parameter.
- HtmlEmail.HtmlEmailWindows.ResizeContent: it does not model `Math.floor`. Bounds are integers here.
- The `html_email:get_info` handler also returns a translated button label. It is left out.
- JsStrings.ToLower: only ASCII letters are lower-cased. JavaScript's `toLowerCase` also maps non-ASCII letters, so a non-ASCII address comparison may differ from the source.
- CreateChat: React rendering, focus and CSS tricks, and the contact search hooks are not modelled.
  - `searchContacts` is a `Map` from id to contact. It is modelled as a sequence of contacts in iteration order.
  - `chooseContact`, `openQRScan`, the contact context menu and other RPC-backed callbacks outside the two creation flows are not modelled.
  - Backend answers (the new contact, the chat id, whether all members are verified) are parameters.
  - CreateChat.FinishCreateGroup: the `areAllContactsVerified` query that yields `allVerified` is not listed in `outcome.calls`; the calls list only the requests that change the backend.
  - Failures of backend calls are not modelled.
- CreateChat.GroupMembers.AddRemoveGroupMember, CreateChat.ToggleTwice, CreateChat.ToggleTwiceRestores, CreateChat.AddMemberSelection.AddMember, CreateChat.AddMemberSelection.RemoveMember, CreateChat.AddMemberSelection.ToggleMember, CreateChat.AddMemberSelection.CreateNewContact: each call sees the state the previous call left. The source's callbacks read the value of the last render instead: `addRemoveGroupMember` tests the rendered `groupMembers` (index.tsx:1005-1006), and `addMember`, `removeMember` and `toggleMember` read the rendered `contactIdsToAdd` (index.tsx:634, 641, 648). Two calls within one render, or across the awaits of `createNewContact` (index.tsx:657-671), can therefore act differently from the model. `ToggleTwice` and `ToggleTwiceRestores` describe two toggles with a re-render between them.
- ThreeDotMenu: the positioning of the popup from the button's geometry is not modelled. Neither are the dialogs the entries open.
- BuildConfig:
  - The static keys of the configuration (mac entitlements, dmg layout, linux desktop entry, nsis options and the like) are constants with no logic and are not modelled.
  - Reading `packageignore_list` and writing `electron-builder.json5` (the JSON text and its header) are not modelled.
  - The store's language table (`isAppxSupportedLanguage`, in `appx_languages.js`) is a parameter; `appx_languages.js` is not part of this model.
- Constants are taken from `deltachat-node` as `DC_CONTACT_ID_SELF = 1` and `DC_CHAT_TYPE_GROUP = 120`.
