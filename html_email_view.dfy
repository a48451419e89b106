/**
 * The sandboxed view that renders one HTML e-mail (src/main/windows/html_email.ts,
 * `makeBrowserView` and `createContextMenu`): what the view is configured with,
 * how its private session answers requests under each network policy, where
 * navigations go, and which context-menu entries it offers.
 */
module HtmlEmailView {
  import opened JsStrings

  /** Whether the sandboxed view may reach the network. */
  datatype Policy = RemoteAllowed | RemoteBlocked

  function PolicyFor(allowRemoteContent: bool): (p: Policy)
    ensures p == RemoteAllowed <==> allowRemoteContent
  {
    if allowRemoteContent then RemoteAllowed else RemoteBlocked
  }

  /** On-screen rectangle of a view (`Electron.Rectangle`). */
  datatype Rect = Rect(x: int, y: int, width: int, height: int)

  /** A view that was never given bounds sits at the empty rectangle. */
  const EmptyRect := Rect(0, 0, 0, 0)

  // ---------------------------------------------------------------------------
  // Content security policies
  // ---------------------------------------------------------------------------

  /** The directive lines of `CSP_DENY`. */
  const CspDenyLines: seq<string> := [
    "default-src 'none';",
    "font-src 'self' data:;",
    "frame-src 'none';",
    "img-src 'self' data:;",
    "media-src 'self' data:;",
    "style-src 'self' data: 'unsafe-inline';",
    "form-action 'none';",
    "script-src 'none';"
  ]

  /** The lines of `CSP_ALLOW`, which starts and ends with a line break. */
  const CspAllowLines: seq<string> := [
    "",
    "default-src 'none';",
    "font-src 'self' data: http: https:;",
    "frame-src 'none';",
    "img-src 'self' blob: data: https: http:;",
    "media-src 'self' data: http: https:;",
    "style-src 'self' 'unsafe-inline';",
    "form-action 'none';",
    "script-src 'none';",
    ""
  ]

  const CspDeny: string := Join(CspDenyLines, '\n')
  const CspAllow: string := Join(CspAllowLines, '\n')

  /** The `Content-Security-Policy` header served with the e-mail under a policy. */
  function CspFor(p: Policy): string
  {
    if p == RemoteAllowed then CspAllow else CspDeny
  }

  /**
   * Both policies forbid scripts, form submission and every source not listed;
   * only the allowing one lets images, fonts and media come over http and https.
   */
  lemma CspDirectives(p: Policy)
    ensures "script-src 'none';" in Split(CspFor(p), '\n')
    ensures "form-action 'none';" in Split(CspFor(p), '\n')
    ensures "default-src 'none';" in Split(CspFor(p), '\n')
    ensures "frame-src 'none';" in Split(CspFor(p), '\n')
    ensures p == RemoteBlocked ==> Split(CspFor(p), '\n') == CspDenyLines
    ensures p == RemoteAllowed ==> Split(CspFor(p), '\n') == CspAllowLines
  {
    if p == RemoteAllowed {
      CspAllowLinesHaveNoBreak();
      SplitJoin(CspAllowLines, '\n');
    } else {
      CspDenyLinesHaveNoBreak();
      SplitJoin(CspDenyLines, '\n');
    }
  }

  /** No line of either policy holds a line break, so splitting the header gives its lines back. */
  predicate NoBreak(s: string)
  {
    forall i :: 0 <= i < |s| ==> s[i] != '\n'
  }

  lemma CspDenyLinesHaveNoBreak()
    ensures forall i :: 0 <= i < |CspDenyLines| ==> '\n' !in CspDenyLines[i]
  {
    CspDenyHead();
    CspDenyTail();
  }

  lemma CspDenyHead()
    ensures forall i :: 0 <= i < 4 ==> NoBreak(CspDenyLines[i])
  {
    assert NoBreak("default-src 'none';");
    assert NoBreak("font-src 'self' data:;");
    assert NoBreak("frame-src 'none';");
    assert NoBreak("img-src 'self' data:;");
  }

  lemma CspDenyTail()
    ensures forall i :: 4 <= i < |CspDenyLines| ==> NoBreak(CspDenyLines[i])
  {
    assert NoBreak("media-src 'self' data:;");
    assert NoBreak("style-src 'self' data: 'unsafe-inline';");
    assert NoBreak("form-action 'none';");
    assert NoBreak("script-src 'none';");
  }

  lemma CspAllowLinesHaveNoBreak()
    ensures forall i :: 0 <= i < |CspAllowLines| ==> '\n' !in CspAllowLines[i]
  {
    CspAllowHead();
    CspAllowImages();
    CspAllowTail();
  }

  lemma CspAllowHead()
    ensures forall i :: 0 <= i < 4 ==> NoBreak(CspAllowLines[i])
  {
    assert NoBreak("default-src 'none';");
    assert NoBreak("font-src 'self' data: http: https:;");
    assert NoBreak("frame-src 'none';");
  }

  lemma CspAllowImages()
    ensures NoBreak(CspAllowLines[4])
  {
    assert NoBreak("img-src 'self' blob: data: https: http:;");
  }

  lemma CspAllowTail()
    ensures forall i :: 5 <= i < |CspAllowLines| ==> NoBreak(CspAllowLines[i])
  {
    assert NoBreak("media-src 'self' data: http: https:;");
    assert NoBreak("style-src 'self' 'unsafe-inline';");
    assert NoBreak("form-action 'none';");
    assert NoBreak("script-src 'none';");
  }

  // ---------------------------------------------------------------------------
  // The view and its private session
  // ---------------------------------------------------------------------------

  /** The `webPreferences` a sandboxed view is created with. */
  datatype WebPreferences = WebPreferences(
    javascript: bool, sandbox: bool, disableDialogs: bool,
    contextIsolation: bool, webgl: bool, spellcheck: bool)

  /**
   * The view's own session: partition `partition`, no cache, the proxy rule
   * set on it, whether http/https are intercepted, and what the `email:`
   * protocol serves.
   */
  datatype Session = Session(
    partition: nat, cache: bool, proxyRules: string,
    interceptsHttp: bool, interceptsHttps: bool,
    emailBody: string, emailCsp: string)

  /** A sandboxed view: its token (the partition name), policy, preferences, session, loaded URL and bounds. */
  datatype View = View(
    token: nat, policy: Policy, html: string, prefs: WebPreferences,
    session: Session, url: string, bounds: Rect)

  /** What the session does with a request of a given URL scheme. */
  datatype Response =
    | Content(status: int, body: string, mimeType: string, csp: string)
    | NotFound                      // status 404 with an empty body
    | ViaProxy(rules: string)       // sent to the configured proxy
    | Direct                        // sent to the network

  const BlockingProxy := "not-existing-proxy:80"

  function HandleRequest(s: Session, scheme: string): Response
  {
    if scheme == "email" then Content(200, s.emailBody, "text/html", s.emailCsp)
    else if (scheme == "http" && s.interceptsHttp) || (scheme == "https" && s.interceptsHttps) then NotFound
    else if s.proxyRules != "" then ViaProxy(s.proxyRules)
    else Direct
  }

  /** The page every sandboxed view loads. */
  const EmailIndexUrl := "email://index.html"

  /**
   * `makeBrowserView(allow_remote_content, html_content)` with the fresh
   * partition `token`. Scripts, dialogs and WebGL are off and the sandbox is on
   * under both policies; the view gets its own cache-less session and loads
   * the e-mail page. How that session answers requests is `ViewRequests`.
   */
  function MakeBrowserView(allowRemoteContent: bool, html: string, token: nat): (v: View)
    ensures v.token == token && v.html == html && v.policy == PolicyFor(allowRemoteContent)
    ensures !v.prefs.javascript && v.prefs.sandbox && v.prefs.disableDialogs
    ensures v.prefs.contextIsolation && !v.prefs.webgl
    ensures v.session.partition == token && !v.session.cache
    ensures v.url == EmailIndexUrl && v.bounds == EmptyRect
  {
    var policy := PolicyFor(allowRemoteContent);
    var session := Session(
      token, false,
      if allowRemoteContent then "" else BlockingProxy,
      !allowRemoteContent, !allowRemoteContent,
      html, CspFor(policy));
    View(token, policy, html, WebPreferences(false, true, true, true, false, false),
         session, EmailIndexUrl, EmptyRect)
  }

  /**
   * How a new view's session answers: the e-mail itself is served from
   * `email:` with the CSP of the policy; a blocking view answers http and
   * https with 404 and sends every other scheme to a proxy that does not
   * exist, so no request goes straight to the network; an allowing view lets
   * http and https through.
   */
  lemma ViewRequests(allowRemoteContent: bool, html: string, token: nat, scheme: string)
    ensures var v := MakeBrowserView(allowRemoteContent, html, token);
      && HandleRequest(v.session, "email") == Content(200, html, "text/html", CspFor(v.policy))
      && (!allowRemoteContent ==>
            && HandleRequest(v.session, "http") == NotFound
            && HandleRequest(v.session, "https") == NotFound
            && HandleRequest(v.session, scheme) != Direct)
      && (allowRemoteContent ==>
            HandleRequest(v.session, "http") == Direct && HandleRequest(v.session, "https") == Direct)
  {
  }

  // ---------------------------------------------------------------------------
  // Navigation
  // ---------------------------------------------------------------------------

  datatype NavAction = OpenMailto(url: string) | OpenExternal(url: string) | NoAction

  /** The outcome of a `will-navigate` event: whether it was cancelled, and where the URL was sent. */
  datatype Navigation = Navigation(prevented: bool, action: NavAction)

  /**
   * `will-navigate` inside the sandboxed view: always cancelled; `mailto:`
   * links go to `open_url`, every other URL to the system's external handler.
   */
  function OnViewWillNavigate(url: string): (n: Navigation)
    ensures n.prevented && !n.action.NoAction? && n.action.url == url
    ensures n.action.OpenMailto? <==> StartsWith(url, "mailto:")
  {
    Navigation(true, if StartsWith(url, "mailto:") then OpenMailto(url) else OpenExternal(url))
  }

  /** `will-navigate` in the outer window: cancelled, the URL goes nowhere. */
  function OnWindowWillNavigate(url: string): (n: Navigation)
    ensures n.prevented && n.action == NoAction
  {
    Navigation(true, NoAction)
  }

  // ---------------------------------------------------------------------------
  // Context menu
  // ---------------------------------------------------------------------------

  datatype MediaType = MediaNone | MediaImage | MediaAudio | MediaVideo | MediaCanvas | MediaFile | MediaPlugin

  /** The parts of `Electron.ContextMenuParams` the menu reads. */
  datatype ContextMenuParams = ContextMenuParams(
    selectionText: string, isEditable: bool, canCopy: bool, canPaste: bool,
    linkURL: string, linkText: string, mediaType: MediaType, x: int, y: int)

  datatype ActionId = Copy | Paste | CopyLink | CopyImage

  /** A menu template entry; an entry without an `enabled` key is enabled. */
  datatype MenuItem = Action(id: ActionId, enabled: bool, visible: bool) | Separator

  /** `hasText`: the selection is not blank. */
  predicate HasText(p: ContextMenuParams)
  {
    |Trim(p.selectionText)| > 0
  }

  function CopyItem(p: ContextMenuParams): MenuItem
  {
    Action(Copy, p.canCopy && HasText(p), p.isEditable || HasText(p))
  }

  function PasteItem(p: ContextMenuParams): MenuItem
  {
    Action(Paste, p.canPaste, p.isEditable)
  }

  function CopyLinkItem(p: ContextMenuParams): MenuItem
  {
    Action(CopyLink, true, |p.linkURL| != 0 && p.mediaType == MediaNone)
  }

  function CopyImageItem(p: ContextMenuParams): MenuItem
  {
    Action(CopyImage, true, p.mediaType == MediaImage)
  }

  /**
   * The template built on every right-click: copy, a separator, copy image,
   * a separator, copy link. The paste entry is defined but never shown.
   */
  function ContextMenuTemplate(p: ContextMenuParams): (menu: seq<MenuItem>)
    ensures |menu| == 5 && menu[1] == Separator && menu[3] == Separator
    ensures forall i :: 0 <= i < |menu| && menu[i].Action? ==> menu[i].id != Paste
    ensures menu[0].Action? && menu[2].Action? && menu[4].Action?
    ensures menu[0].id == Copy && menu[2].id == CopyImage && menu[4].id == CopyLink
  {
    [CopyItem(p), Separator, CopyImageItem(p), Separator, CopyLinkItem(p)]
  }

  /**
   * The menu's predicates in terms of the event: copy is enabled exactly when
   * copying is allowed and the selection holds a non-whitespace character, and
   * shown when the target is editable or there is such a selection; copy link
   * is shown over a link that is not media; copy image over an image.
   */
  lemma ContextMenuPredicates(p: ContextMenuParams)
    ensures var menu := ContextMenuTemplate(p);
      var selected := exists i :: 0 <= i < |p.selectionText| && !IsWhitespace(p.selectionText[i]);
      && (menu[0].enabled <==> p.canCopy && selected)
      && (menu[0].visible <==> p.isEditable || selected)
      && (menu[4].visible <==> p.linkURL != "" && p.mediaType == MediaNone)
      && (menu[2].visible <==> p.mediaType == MediaImage)
  {
    TrimEmptyIff(p.selectionText);
  }

  /** What clicking an entry does. */
  datatype ClickEffect =
    | CopySelection
    | PasteClipboard
    | WriteBookmark(title: string, url: string)
    | CopyImageAt(x: int, y: int)

  function Click(id: ActionId, p: ContextMenuParams): (e: ClickEffect)
    ensures id == CopyLink ==> e == WriteBookmark(p.linkText, p.linkURL)
    ensures id == CopyImage ==> e == CopyImageAt(p.x, p.y)
  {
    match id
    case Copy => CopySelection
    case Paste => PasteClipboard
    case CopyLink => WriteBookmark(p.linkText, p.linkURL)
    case CopyImage => CopyImageAt(p.x, p.y)
  }

  /**
   * The function `createContextMenu` returns: it removes the listener from the
   * view's contents, unless the window is already destroyed, when it does nothing.
   */
  function Unbind(listeners: set<nat>, view: nat, windowDestroyed: bool): (r: set<nat>)
    ensures windowDestroyed ==> r == listeners
    ensures !windowDestroyed ==> view !in r && r + {view} >= listeners && r <= listeners
  {
    if windowDestroyed then listeners else listeners - {view}
  }
}
