/**
 * The browser's decision rules and its HTML-to-text renderer: the ad blocker's
 * substring test, the safe-site whitelist in front of the security scan, the
 * line-by-line tag extractor, and the order in which `navigate` consults them.
 *
 * The security engine's URL scan is a parameter. Windows are values kept in
 * the browser's vector, as in the source, so a window operation is a function
 * from the old window to the new one.
 */
module Browser {
  import opened Common
  import opened Text

  // ---------------------------------------------------------------------------
  // Ad blocker
  // ---------------------------------------------------------------------------

  /** The domains `load_default_filters` installs, in order. */
  function DefaultBlockedDomains(): seq<string> {
    ["doubleclick.net", "googleads.com", "adservice.google.com", "facebook.com/ads", "twitter.com/ads",
     "tracking.", "analytics.", "advertise.", "banner.", "popup."]
  }

  /** The filter-list entries `load_default_filters` installs; no operation reads them. */
  function DefaultFilters(): seq<string> {
    ["||ads.example.com^", "||tracking.example.com^"]
  }

  /** `AdBlocker`: `load_default_filters` extends both lists. */
  class AdBlocker {
    var blockedDomains: seq<string>
    var filters: seq<string>
    var isEnabled: bool

    /** `AdBlocker::new`: enabled, holding exactly the default domains and filters. */
    constructor ()
      ensures isEnabled
      ensures blockedDomains == DefaultBlockedDomains() && filters == DefaultFilters()
    {
      blockedDomains := [];
      filters := [];
      isEnabled := true;
      new;
      LoadDefaultFilters();
    }

    /** `load_default_filters`: appends the default domains and the default filters. */
    method LoadDefaultFilters()
      modifies this`blockedDomains, this`filters
      ensures blockedDomains == old(blockedDomains) + DefaultBlockedDomains()
      ensures filters == old(filters) + DefaultFilters()
    {
      blockedDomains := blockedDomains + DefaultBlockedDomains();
      filters := filters + [DefaultFilters()[0]];
      filters := filters + [DefaultFilters()[1]];
    }

    /** `should_block`: never while disabled; otherwise exactly when some blocked domain occurs in the URL. */
    function ShouldBlock(url: string): (blocked: bool)
      reads this
      ensures !isEnabled ==> !blocked
      ensures isEnabled ==> (blocked <==> exists i :: 0 <= i < |blockedDomains| && Contains(url, blockedDomains[i]))
    {
      isEnabled && Position(blockedDomains, (domain: string) => Contains(url, domain)).Some?
    }
  }

  /** A URL that holds a blocked URL is blocked too: the rule cannot be evaded by adding text around an ad address. */
  lemma BlockedWithin(blocker: AdBlocker, url: string, bigger: string)
    requires Contains(bigger, url)
    requires blocker.ShouldBlock(url)
    ensures blocker.ShouldBlock(bigger)
  {
    var i :| 0 <= i < |blocker.blockedDomains| && Contains(url, blocker.blockedDomains[i]);
    ContainsTransitive(bigger, url, blocker.blockedDomains[i]);
  }

  // ---------------------------------------------------------------------------
  // URL security
  // ---------------------------------------------------------------------------

  /** The safe sites `check_url_security` lets through without a scan. */
  function SafeSites(): seq<string> {
    ["quran.com", "sunnah.com", "islamweb.net", "islamway.net", "islamhouse.com"]
  }

  /** The URL mentions one of the safe sites. */
  predicate IsWhitelisted(url: string) {
    exists i :: 0 <= i < |SafeSites()| && Contains(url, SafeSites()[i])
  }

  /** `check_url_security`: a whitelisted URL is secure without a scan; any other URL is what the scan says. */
  function CheckUrlSecurity(url: string, scanUrl: string -> bool): (secure: bool)
    ensures IsWhitelisted(url) ==> secure
    ensures !IsWhitelisted(url) ==> secure == scanUrl(url)
  {
    match Position(SafeSites(), (site: string) => Contains(url, site))
    case Some(_) => true
    case None => scanUrl(url)
  }

  /** A URL that holds a whitelisted URL is whitelisted too, whatever else it holds. */
  lemma WhitelistedWithin(url: string, bigger: string)
    requires Contains(bigger, url)
    requires IsWhitelisted(url)
    ensures IsWhitelisted(bigger)
  {
    var i :| 0 <= i < |SafeSites()| && Contains(url, SafeSites()[i]);
    ContainsTransitive(bigger, url, SafeSites()[i]);
  }

  // ---------------------------------------------------------------------------
  // render_html
  // ---------------------------------------------------------------------------

  /** A tag `render_html` recognises, and what it puts around the text it extracts. */
  datatype Tag = Tag(open: string, close: string, prefix: string, suffix: string)

  /** The recognised tags, in the order a line is tested for them. */
  function Tags(): seq<Tag> {
    [Tag("<title>", "</title>", "", "\n"),
     Tag("<h1>", "</h1>", "📌 ", "\n"),
     Tag("<p>", "</p>", "  ", "\n"),
     Tag("<li>", "</li>", "  • ", "\n")]
  }

  /** `<p>`: a paragraph, indented by two spaces. */
  function ParagraphTag(): Tag {
    Tags()[2]
  }

  /** The index in `Tags()` of the tag that decides a line: the first whose opening tag the line contains. */
  function LineTag(line: string): (r: Option<nat>)
    ensures r.Some? ==> r.value < |Tags()| && Contains(line, Tags()[r.value].open)
    ensures r.Some? ==> forall j :: 0 <= j < r.value ==> !Contains(line, Tags()[j].open)
    ensures r.None? <==> forall j :: 0 <= j < |Tags()| ==> !Contains(line, Tags()[j].open)
  {
    Position(Tags(), (tag: Tag) => Contains(line, tag.open))
  }

  /** The index just past the first opening tag of the line. */
  function TextStart(line: string, tag: Tag): (k: nat)
    requires Contains(line, tag.open)
    ensures k <= |line|
  {
    Find(line, tag.open).value + |tag.open|
  }

  /**
   * The text between the first opening tag and the first closing tag after it,
   * if there is a closing tag after it.
   */
  function Between(line: string, tag: Tag): (t: Option<string>)
    requires Contains(line, tag.open)
    ensures t.Some? ==> var k := TextStart(line, tag);
      k + |t.value| <= |line| && line[k..k + |t.value|] == t.value && OccursAt(line, tag.close, k + |t.value|)
    ensures t.Some? ==> forall j: nat :: TextStart(line, tag) <= j < TextStart(line, tag) + |t.value| ==> !OccursAt(line, tag.close, j)
    ensures t.None? <==> forall j: nat :: TextStart(line, tag) <= j ==> !OccursAt(line, tag.close, j)
  {
    var k := TextStart(line, tag);
    var rest := line[k..];
    match Find(rest, tag.close)
    case None =>
      NoneInSuffix(line, tag.close, k);
      None
    case Some(e) =>
      FirstInSuffix(line, tag.close, k, e);
      assert rest[..e] == line[k..k + e];
      Some(rest[..e])
  }

  /** What a line contributes for the tag that decides it: the extracted text framed by the tag's prefix and suffix, or nothing. */
  function Extract(line: string, tag: Tag): string
    requires Contains(line, tag.open)
  {
    match Between(line, tag)
    case None => ""
    case Some(t) => tag.prefix + t + tag.suffix
  }

  /** What one line contributes to the rendering: decided by its first recognised tag; a line with none contributes nothing. */
  function LineText(line: string): string {
    match LineTag(line)
    case None => ""
    case Some(i) => Extract(line, Tags()[i])
  }

  /** The text `render_html` produces for a page, with the closing tag searched after the opening tag. */
  function Render(html: string): string {
    ConcatMap(SplitLines(html), LineText)
  }

  /** A page joined at a newline renders as its two halves rendered one after the other. */
  lemma RenderConcat(first: string, second: string)
    ensures Render(first + "\n" + second) == Render(first) + Render(second)
  {
    SplitLinesConcat(first, second);
    ConcatMapAppend(SplitLines(first), SplitLines(second), LineText);
  }

  /** `render_html`: one pass over the lines of the page, appending each line's contribution. */
  method RenderHtml(html: string) returns (text: string)
    ensures text == Render(html)
  {
    var lines := SplitLines(html);
    text := "";
    var i := 0;
    while i < |lines|
      invariant 0 <= i <= |lines|
      invariant text == ConcatMap(lines[..i], LineText)
    {
      ConcatMapSnoc(lines, i, LineText);
      text := text + LineText(lines[i]);
      i := i + 1;
    }
    assert lines[..|lines|] == lines;
  }

  /**
   * One line as the source slices it: the closing tag is searched from the
   * start of the line, and a slice whose end lies before its start makes the
   * whole call panic, shown as `None`.
   */
  function ExtractAsWritten(line: string, tag: Tag): (r: Option<string>)
    requires Contains(line, tag.open)
    ensures r.None? <==> Find(line, tag.close).Some? && Find(line, tag.close).value < TextStart(line, tag)
  {
    var k := TextStart(line, tag);
    match Find(line, tag.close)
    case None => Some("")
    case Some(end) =>
      if k <= end then Some(tag.prefix + line[k..end] + tag.suffix) else None
  }

  /** One line's contribution as the source computes it, `None` when it panics. */
  function LineTextAsWritten(line: string): Option<string> {
    match LineTag(line)
    case None => Some("")
    case Some(i) => ExtractAsWritten(line, Tags()[i])
  }

  /** The page as the source renders it: `None` as soon as one line panics. */
  function RenderLinesAsWritten(lines: seq<string>): Option<string> {
    if |lines| == 0 then Some("")
    else
      match RenderLinesAsWritten(lines[..|lines| - 1])
      case None => None
      case Some(front) =>
        match LineTextAsWritten(lines[|lines| - 1])
        case None => None
        case Some(last) => Some(front + last)
  }

  /** Where the source does not panic on a line, it extracts what the corrected search extracts. */
  lemma ExtractAgrees(line: string, tag: Tag)
    requires Contains(line, tag.open)
    requires ExtractAsWritten(line, tag).Some?
    ensures ExtractAsWritten(line, tag).value == Extract(line, tag)
  {
    var k := TextStart(line, tag);
    var first := Find(line, tag.close);
    if first.None? {
      forall j: nat | k <= j
        ensures !OccursAt(line, tag.close, j)
      {
      }
    } else {
      var end := first.value;
      assert AbsentBefore(line, tag.close, k) by {
        forall j: nat | j < k
          ensures !OccursAt(line, tag.close, j)
        {
        }
      }
      FindInSuffix(line, tag.close, k);
      assert line[k..][..end - k] == line[k..end];
    }
  }

  /** Wherever the source's rendering does not panic, it equals the corrected rendering. */
  lemma {:induction false} RenderLinesAgrees(lines: seq<string>)
    requires RenderLinesAsWritten(lines).Some?
    ensures RenderLinesAsWritten(lines).value == ConcatMap(lines, LineText)
  {
    if |lines| > 0 {
      var line := lines[|lines| - 1];
      RenderLinesAgrees(lines[..|lines| - 1]);
      match LineTag(line)
      case None =>
      case Some(i) => ExtractAgrees(line, Tags()[i]);
    }
  }

  /** A line whose closing tag also appears before its opening tag: `</p><p>x</p>`. */
  function ClosingFirstLine(): string {
    "</p><p>x</p>"
  }

  /** That line is decided by `<p>`: it holds no `<title>` and no `<h1>`. */
  lemma ClosingFirstTag()
    ensures LineTag(ClosingFirstLine()) == Some(2)
  {
    var line := ClosingFirstLine();
    MissingCharacter(line, Tags()[0].open, 't');
    MissingCharacter(line, Tags()[1].open, 'h');
    assert OccursAt(line, "<p>", 4);
  }

  /** In that line `<p>` opens at index 4. */
  lemma ClosingFirstOpens()
    ensures Find(ClosingFirstLine(), "<p>") == Some(4)
  {
    var line := ClosingFirstLine();
    assert OccursAt(line, "<p>", 4);
    assert line[0..3][1] == '/' && line[1..4][0] == '/' && line[2..5][0] == 'p' && line[3..6][0] == '>';
  }

  /** In that line `</p>` occurs first at index 0, before the opening tag. */
  lemma ClosingFirstCloses()
    ensures Find(ClosingFirstLine(), "</p>") == Some(0)
  {
    assert OccursAt(ClosingFirstLine(), "</p>", 0);
  }

  /** After the opening tag, `</p>` follows the single character `x`. */
  lemma ClosingFirstRest()
    ensures Find(ClosingFirstLine()[7..], "</p>") == Some(1)
  {
    var rest := ClosingFirstLine()[7..];
    assert rest == "x</p>";
    assert OccursAt(rest, "</p>", 1);
    assert rest[0..4][0] == 'x';
  }

  /** The source's slicing panics on that line: the slice would run from index 7 back to index 0. */
  lemma ClosingFirstPanics()
    ensures RenderLinesAsWritten([ClosingFirstLine()]).None?
  {
    var lines: seq<string> := [ClosingFirstLine()];
    ClosingFirstTag();
    ClosingFirstOpens();
    ClosingFirstCloses();
    assert lines[..0] == [];
  }

  /** In that line the text between `<p>` and the `</p>` after it is `x`. */
  lemma ClosingFirstBetween()
    ensures Contains(ClosingFirstLine(), ParagraphTag().open)
    ensures Between(ClosingFirstLine(), ParagraphTag()) == Some("x")
  {
    var line := ClosingFirstLine();
    ClosingFirstOpens();
    assert TextStart(line, ParagraphTag()) == 7;
    ClosingFirstRest();
    assert line[7..][..1] == "x";
  }

  /** That line's contribution is decided by the paragraph tag. */
  lemma ClosingFirstByParagraph()
    ensures Contains(ClosingFirstLine(), ParagraphTag().open)
    ensures LineText(ClosingFirstLine()) == Extract(ClosingFirstLine(), ParagraphTag())
  {
    ClosingFirstTag();
  }

  /** The paragraph tag frames the text `x` of that line. */
  lemma ClosingFirstExtract()
    ensures Contains(ClosingFirstLine(), ParagraphTag().open)
    ensures Extract(ClosingFirstLine(), ParagraphTag()) == "  x\n"
  {
    ClosingFirstBetween();
  }

  /** The corrected search gives that line the paragraph `x`. */
  lemma ClosingFirstLineText()
    ensures LineText(ClosingFirstLine()) == "  x\n"
  {
    ClosingFirstByParagraph();
    ClosingFirstExtract();
  }

  /** The corrected search renders that line as the paragraph `x`. */
  lemma ClosingFirstRendered()
    ensures Render(ClosingFirstLine()) == "  x\n"
  {
    var line := ClosingFirstLine();
    var lines: seq<string> := [line];
    calc {
      Render(line);
    == { assert '\n' !in line; SplitLinesSingle(line); }
      ConcatMap(lines, LineText);
    == { ConcatMapSnoc(lines, 0, LineText); assert lines[..1] == lines; }
      ConcatMap(lines[..0], LineText) + LineText(line);
    == { ClosingFirstLineText(); }
      "  x\n";
    }
  }

  // ---------------------------------------------------------------------------
  // Windows and navigation
  // ---------------------------------------------------------------------------

  /** `SecurityIndicator`. */
  datatype SecurityIndicator = Secure | Insecure | Warning | Unknown

  /** `Tab`. */
  datatype Tab = Tab(id: nat, title: string, url: string, favicon: string, history: seq<string>)

  /** `BrowserWindow`: a value held in the browser's vector of windows. */
  datatype BrowserWindow = BrowserWindow(
    title: string,
    url: string,
    content: string,
    x: nat,
    y: nat,
    width: nat,
    height: nat,
    tabs: seq<Tab>,
    activeTab: nat,
    securityIndicator: SecurityIndicator)

  /** `BrowserWindow::new`: the given title and geometry, no page, no tabs, a secure indicator. */
  function NewBrowserWindow(title: string, x: nat, y: nat, width: nat, height: nat): (w: BrowserWindow)
    ensures w.title == title && w.x == x && w.y == y && w.width == width && w.height == height
    ensures w.url == "" && w.content == "" && w.tabs == [] && w.activeTab == 0 && w.securityIndicator == Secure
  {
    BrowserWindow(title, "", "", x, y, width, height, [], 0, Secure)
  }

  /** The message `navigate` shows for a URL that fails the security check. */
  const InsecureUrlMessage: string := "عنوان غير آمن!"

  /** The page `show_warning` displays around its message, with the support contacts. */
  function WarningText(message: string): string {
    "🚨 تحذير أمني!\n\n" + message + "\n\n🔒 هذا الموقع قد يكون غير آمن.\n\n" +
    "👨💻 للمساعدة: islamrenewaltech@gmail.com\n📞 الهاتف: +201556328989"
  }

  /** `show_warning`: the warning page replaces the content and the indicator turns Insecure; nothing else changes. */
  function ShowWarning(w: BrowserWindow, message: string): (r: BrowserWindow)
    ensures r.content == WarningText(message) && r.securityIndicator == Insecure
    ensures r.(content := w.content, securityIndicator := w.securityIndicator) == w
  {
    w.(content := WarningText(message), securityIndicator := Insecure)
  }

  /** The page `simulate_loading` renders once loading is over, showing the URL in its heading. */
  function LoadedPage(url: string): string {
    JoinLines([
      "",
      "            <html>",
      "            <body style=\"background: #000; color: #8A2BE2;\">",
      "                <h1>🌍 " + url + "</h1>",
      "                <p>تم تحميل الصفحة بنجاح بواسطة متصفح إسلام</p>",
      "                <p>👨💻 المطور: إسلام بن الحسن</p>",
      "                <p>📞 للدعم: +201556328989</p>",
      "            </body>",
      "            </html>",
      "        "])
  }

  /**
   * `BrowserWindow::navigate`: the URL is kept and the content ends as the
   * rendering of the loaded page; title, geometry, tabs and indicator stay.
   */
  function Navigated(w: BrowserWindow, url: string): (r: BrowserWindow)
    ensures r.url == url && r.content == Render(LoadedPage(url))
    ensures r.(url := w.url, content := w.content) == w
  {
    w.(url := url, content := Render(LoadedPage(url)))
  }

  /** A history record: the URL and the window title passed to `add_to_history`. */
  datatype Visit = Visit(url: string, title: string)

  /**
   * What `Browser::navigate` leaves behind. Without an active window that
   * exists nothing happens. The security check comes first: an insecure URL
   * puts the warning in the active window and stops. A URL the ad blocker
   * matches is dropped. Otherwise the active window goes to the URL and one
   * visit is recorded under its title. No other window ever changes.
   */
  function Navigation(windows: seq<BrowserWindow>, history: seq<Visit>, active: Option<nat>,
                      secure: bool, blocked: bool, url: string): (seq<BrowserWindow>, seq<Visit>)
  {
    if active.None? || active.value >= |windows| then (windows, history)
    else
      var i := active.value;
      if !secure then (windows[i := ShowWarning(windows[i], InsecureUrlMessage)], history)
      else if blocked then (windows, history)
      else (windows[i := Navigated(windows[i], url)], history + [Visit(url, windows[i].title)])
  }

  /** Navigating never adds or removes a window, and no window but the active one changes. */
  lemma NavigationKeepsOtherWindows(windows: seq<BrowserWindow>, history: seq<Visit>, active: Option<nat>,
                                    secure: bool, blocked: bool, url: string)
    ensures var r := Navigation(windows, history, active, secure, blocked, url);
      |r.0| == |windows| && forall j :: 0 <= j < |windows| && active != Some(j) ==> r.0[j] == windows[j]
  {
  }

  /** The history either stays, or grows by exactly the visit of a secure, unblocked URL in an existing active window. */
  lemma NavigationRecordsOnlyVisits(windows: seq<BrowserWindow>, history: seq<Visit>, active: Option<nat>,
                                    secure: bool, blocked: bool, url: string)
    ensures var r := Navigation(windows, history, active, secure, blocked, url);
      r.1 == history ||
      (active.Some? && active.value < |windows| && secure && !blocked &&
       r.1 == history + [Visit(url, windows[active.value].title)])
  {
  }

  /** Without an existing active window, and for a blocked secure URL, nothing changes. */
  lemma NavigationIgnored(windows: seq<BrowserWindow>, history: seq<Visit>, active: Option<nat>,
                          secure: bool, blocked: bool, url: string)
    requires active.None? || active.value >= |windows| || (secure && blocked)
    ensures Navigation(windows, history, active, secure, blocked, url) == (windows, history)
  {
  }

  /** An insecure URL puts the warning page in the active window, marks it insecure, and records nothing. */
  lemma NavigationWarns(windows: seq<BrowserWindow>, history: seq<Visit>, active: Option<nat>,
                        blocked: bool, url: string)
    requires active.Some? && active.value < |windows|
    ensures var r := Navigation(windows, history, active, false, blocked, url);
      r.0[active.value].content == WarningText(InsecureUrlMessage) &&
      r.0[active.value].securityIndicator == Insecure &&
      r.0[active.value].url == windows[active.value].url &&
      r.1 == history
  {
  }

  /**
   * A secure, unblocked URL is loaded in the active window, whose title, tabs and
   * indicator stay, and the visit is recorded with that title.
   */
  lemma NavigationLoads(windows: seq<BrowserWindow>, history: seq<Visit>, active: Option<nat>, url: string)
    requires active.Some? && active.value < |windows|
    ensures var r := Navigation(windows, history, active, true, false, url);
      var w := windows[active.value];
      r.0[active.value].url == url &&
      r.0[active.value].content == Render(LoadedPage(url)) &&
      r.0[active.value].(url := w.url, content := w.content) == w &&
      r.1 == history + [Visit(url, w.title)]
  {
  }

  /** `Browser`: the window vector, the active window and the history change. */
  class Browser {
    var windows: seq<BrowserWindow>
    var activeWindow: Option<nat>
    var history: seq<Visit>
    const adBlocker: AdBlocker

    /** `Browser::new`: no windows, none active, no history, a default ad blocker. */
    constructor ()
      ensures windows == [] && activeWindow == None && history == []
      ensures fresh(adBlocker) && adBlocker.isEnabled
      ensures adBlocker.blockedDomains == DefaultBlockedDomains() && adBlocker.filters == DefaultFilters()
    {
      windows := [];
      activeWindow := None;
      history := [];
      adBlocker := new AdBlocker();
    }

    /**
     * `Browser::navigate`: the windows and the history become what
     * `Navigation` says for the active window, the verdict of the security
     * check and the verdict of the ad blocker.
     */
    method Navigate(url: string, scanUrl: string -> bool)
      modifies this`windows, this`history
      ensures (windows, history) ==
        Navigation(old(windows), old(history), activeWindow, CheckUrlSecurity(url, scanUrl), adBlocker.ShouldBlock(url), url)
    {
      if activeWindow.None? || activeWindow.value >= |windows| {
        return;
      }
      var index := activeWindow.value;
      if !CheckUrlSecurity(url, scanUrl) {
        WarnWindow(index);
        return;
      }
      if adBlocker.ShouldBlock(url) {
        return;
      }
      NavigateWindow(index, url);
    }

    /** `window.show_warning` on one window of the vector: only that window changes. */
    method WarnWindow(index: nat)
      requires index < |windows|
      modifies this`windows
      ensures windows == old(windows)[index := ShowWarning(old(windows)[index], InsecureUrlMessage)]
    {
      windows := windows[index := ShowWarning(windows[index], InsecureUrlMessage)];
    }

    /**
     * `window.navigate` on one window of the vector, then `add_to_history`
     * with the URL and that window's title: only that window changes, and one
     * visit is appended.
     */
    method NavigateWindow(index: nat, url: string)
      requires index < |windows|
      modifies this`windows, this`history
      ensures windows == old(windows)[index := Navigated(old(windows)[index], url)]
      ensures history == old(history) + [Visit(url, old(windows)[index].title)]
    {
      var window := Navigated(windows[index], url);
      windows := windows[index := window];
      history := history + [Visit(url, window.title)];
    }
  }
}
