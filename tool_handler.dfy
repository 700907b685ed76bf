/** The tool router (src/toolHandler.ts): a flat dispatch from tool name to
    handler, a table of open previews with a counter that numbers them, and
    the handlers that act on the registry's current page. */
module ToolHandling {
  import opened Common
  import opened Text
  import opened OrderedMaps
  import opened Annotations
  import opened Driver
  import opened BrowserManagement
  import opened Screenshots

  /** The arguments of a tool call; an argument the caller left out is `None`.
      `kind` is the argument named `type`. */
  datatype Args = Args(
    url: Option<string>,
    mode: Option<string>,
    autoRefresh: Option<bool>,
    viewport: Option<Viewport>,
    browserType: Option<string>,
    previewId: Option<string>,
    waitUntil: Option<string>,
    timeout: Option<int>,
    hardReload: Option<bool>,
    selector: Option<string>,
    button: Option<string>,
    clickCount: Option<int>,
    position: Option<Position>,
    text: Option<string>,
    delay: Option<int>,
    clear: Option<bool>,
    duration: Option<int>,
    value: Option<Value>,
    direction: Option<string>,
    amount: Option<int>,
    kind: Option<string>,
    state: Option<string>,
    expression: Option<string>,
    name: Option<string>,
    format: Option<string>,
    quality: Option<int>,
    annotations: Option<seq<Annotation>>)

  /** The empty argument object. */
  const NoArgs := Args(None, None, None, None, None, None, None, None, None, None, None, None, None, None,
                       None, None, None, None, None, None, None, None, None, None, None, None, None)

  /** The driver call at index `at` of a handler's calls throws `message`. */
  datatype Fault = Fault(at: nat, message: string)

  /** Everything the outside world answers during one tool call: the registry's
      driver for the three steps of opening a preview and its navigation, the
      fault (if any) among a handler's page calls, the serialised result of an
      evaluation, and the answers during a screenshot capture. */
  datatype Replies = Replies(
    launched: Result<BrowserHandle>,
    made: Result<ContextHandle>,
    created: Result<PageHandle>,
    navigated: Result<()>,
    fault: Option<Fault>,
    evaluated: string,
    capture: CaptureReplies)

  /** One row of the preview table. */
  datatype PreviewInfo = PreviewInfo(browserId: string, contextId: string, pageId: string, url: Option<string>, mode: string)

  /** What a page handler does: its driver calls in order and its reply text. */
  datatype Plan = Plan(calls: seq<Event>, text: string)

  datatype WaitKind = ForSelector | ForTimeout | ForFunction

  const NoActivePage := "No active page. Please open a preview first."
  const DefaultViewport := Viewport(1280, 720)
  const DefaultScroll := 300
  const DefaultTimeout := 30000

  /** The tools the router dispatches; every other name is unknown to it. */
  const RoutedTools := {
    "preview_open", "preview_close", "preview_list", "preview_refresh",
    "navigate_to", "navigate_back", "navigate_forward", "navigate_reload",
    "interact_click", "interact_type", "interact_hover", "interact_select", "interact_scroll", "interact_wait",
    "capture_screenshot", "debug_console", "debug_evaluate"}

  /** The routed tools that do not need a current page. */
  const PagelessTools := {"preview_open", "preview_close", "preview_list", "preview_refresh", "debug_console"}

  /** The page tools whose work is a plan of page calls. */
  const PlannedTools := RoutedTools - PagelessTools - {"capture_screenshot"}

  predicate NeedsPage(name: string) {
    name in RoutedTools && name !in PagelessTools
  }

  /** The preview id the counter value `n` names. */
  function PreviewId(n: nat): string {
    "preview_" + NatToString(n)
  }

  lemma PreviewIdInjective(m: nat, n: nat)
    requires PreviewId(m) == PreviewId(n)
    ensures m == n
  {
    assert NatToString(m) == PreviewId(m)[8..];
    NatToStringInjective(m, n);
  }

  /** The registry ids of a preview's browser, context and page. */
  function InfoFor(id: string, args: Args): (info: PreviewInfo)
    ensures info.browserId == "browser_" + id && info.contextId == "context_" + id && info.pageId == "page_" + id
    ensures info.url == args.url && info.mode == args.mode.GetOr("local")
  {
    PreviewInfo("browser_" + id, "context_" + id, "page_" + id, args.url, args.mode.GetOr("local"))
  }

  /** The scroll offset for a direction: `up` and `down` move vertically,
      `left` and `right` horizontally, by `amount`; any other direction has
      no entry. */
  function ScrollDelta(direction: Option<string>, amount: int): (d: Option<Delta>)
    ensures d.Some? <==> direction in {Some("up"), Some("down"), Some("left"), Some("right")}
    ensures d.Some? ==> (d.value.dx == 0 <==> direction in {Some("up"), Some("down")} || amount == 0)
    ensures d.Some? ==> (d.value.dy == 0 <==> direction in {Some("left"), Some("right")} || amount == 0)
    ensures d.Some? ==> d.value.dx + d.value.dy == amount || d.value.dx + d.value.dy == -amount
    ensures d.Some? ==> (d.value.dx + d.value.dy == amount <==> direction in {Some("down"), Some("right")} || amount == 0)
  {
    match direction
    case Some("up") => Some(Delta(0, -amount))
    case Some("down") => Some(Delta(0, amount))
    case Some("left") => Some(Delta(-amount, 0))
    case Some("right") => Some(Delta(amount, 0))
    case _ => None
  }

  /** Scrolling one way and then the opposite way by the same amount returns
      to the start. */
  lemma ScrollOpposite(amount: int)
    ensures ScrollDelta(Some("up"), amount).value.dy + ScrollDelta(Some("down"), amount).value.dy == 0
    ensures ScrollDelta(Some("left"), amount).value.dx + ScrollDelta(Some("right"), amount).value.dx == 0
  {
  }

  /** The three kinds of wait; every other kind is an error naming it. */
  function WaitKindOf(kind: Option<string>): (r: Result<WaitKind>)
    ensures r.Ok? <==> kind in {Some("selector"), Some("timeout"), Some("function")}
    ensures r == Ok(ForSelector) <==> kind == Some("selector")
    ensures r == Ok(ForTimeout) <==> kind == Some("timeout")
    ensures r == Ok(ForFunction) <==> kind == Some("function")
    ensures r.Err? ==> r.message == "Unknown wait type: " + Show(kind)
  {
    match kind
    case Some("selector") => Ok(ForSelector)
    case Some("timeout") => Ok(ForTimeout)
    case Some("function") => Ok(ForFunction)
    case _ => Err("Unknown wait type: " + Show(kind))
  }

  /** A value as a template string shows it: a list is joined with commas. */
  function ShowValue(v: Option<Value>): string {
    match v
    case None => "undefined"
    case Some(Str(t)) => t
    case Some(Strs(items)) => Join(items, ",")
  }

  /** The value as the select handler's reply shows it: a list is joined
      with a comma and a space. */
  function ShowSelected(v: Option<Value>): string {
    match v
    case Some(Strs(items)) => Join(items, ", ")
    case _ => ShowValue(v)
  }

  const NavigationTools := {"navigate_to", "navigate_back", "navigate_forward", "navigate_reload"}
  const InteractionTools := {"interact_click", "interact_type", "interact_hover", "interact_select", "interact_scroll"}

  /** The navigation handlers: one call each on the page; a navigation waits
      for `load` within 30000 ms unless told otherwise. */
  function NavigationPlan(tool: string, args: Args, page: PageHandle): (p: Plan)
    requires tool in NavigationTools
    ensures |p.calls| == 1 && TargetPage(p.calls[0]) == Some(page)
    ensures tool == "navigate_to" ==>
              p == Plan([Goto(page, args.url, Some(NavOptions(args.waitUntil.GetOr("load"), args.timeout.GetOr(30000))))],
                        "Navigated to: " + Show(args.url))
    ensures tool == "navigate_back" ==> p == Plan([GoBack(page)], "Navigated back")
    ensures tool == "navigate_forward" ==> p == Plan([GoForward(page)], "Navigated forward")
    ensures tool == "navigate_reload" ==>
              p.calls == [Reload(page, Some("load"))] &&
              p.text == (if args.hardReload == Some(true) then "Page hard reloaded" else "Page reloaded")
  {
    if tool == "navigate_to" then
      Plan([Goto(page, args.url, Some(NavOptions(args.waitUntil.GetOr("load"), args.timeout.GetOr(DefaultTimeout))))],
           "Navigated to: " + Show(args.url))
    else if tool == "navigate_back" then
      Plan([GoBack(page)], "Navigated back")
    else if tool == "navigate_forward" then
      Plan([GoForward(page)], "Navigated forward")
    else
      Plan([Reload(page, Some("load"))], if args.hardReload.GetOr(false) then "Page hard reloaded" else "Page reloaded")
  }

  /** The interaction handlers: a left single click, typing without delay
      and scrolling by 300 unless told otherwise; only a hover with a
      positive duration makes a second call, the pause. */
  function InteractionPlan(tool: string, args: Args, page: PageHandle): (p: Plan)
    requires tool in InteractionTools
    ensures 1 <= |p.calls| <= 2 && (|p.calls| == 2 <==> tool == "interact_hover" && args.duration.GetOr(0) > 0)
    ensures forall e :: e in p.calls ==> TargetPage(e) == Some(page)
    ensures tool == "interact_click" ==>
              p == Plan([Click(page, args.selector, args.button.GetOr("left"), args.clickCount.GetOr(1), args.position)],
                        "Clicked on: " + Show(args.selector))
    ensures tool == "interact_type" ==>
              p.text == "Typed \"" + Show(args.text) + "\" into: " + Show(args.selector) &&
              p.calls == [if args.clear == Some(true) then Fill(page, args.selector, args.text)
                          else Type(page, args.selector, args.text, args.delay.GetOr(0))]
    ensures tool == "interact_hover" ==>
              p.calls[0] == Hover(page, args.selector) && p.text == "Hovered over: " + Show(args.selector) &&
              (|p.calls| == 2 ==> p.calls[1] == WaitForTimeout(page, args.duration))
    ensures tool == "interact_select" ==>
              p == Plan([SelectOption(page, args.selector, args.value)],
                        "Selected \"" + ShowSelected(args.value) + "\" in: " + Show(args.selector))
    ensures tool == "interact_scroll" ==>
              p.calls == [ScrollBy(page, if Truthy(args.selector) then args.selector else None,
                                   ScrollDelta(args.direction, args.amount.GetOr(300)))] &&
              p.text == "Scrolled " + Show(args.direction) + " by " + IntToString(args.amount.GetOr(300)) + "px" +
                        (if Truthy(args.selector) then " in " + args.selector.value else "")
  {
    if tool == "interact_click" then
      Plan([Click(page, args.selector, args.button.GetOr("left"), args.clickCount.GetOr(1), args.position)],
           "Clicked on: " + Show(args.selector))
    else if tool == "interact_type" then
      Plan([if args.clear.GetOr(false) then Fill(page, args.selector, args.text)
            else Type(page, args.selector, args.text, args.delay.GetOr(0))],
           "Typed \"" + Show(args.text) + "\" into: " + Show(args.selector))
    else if tool == "interact_hover" then
      var duration := args.duration.GetOr(0);
      Plan([Hover(page, args.selector)] + (if duration > 0 then [WaitForTimeout(page, Some(duration))] else []),
           "Hovered over: " + Show(args.selector))
    else if tool == "interact_select" then
      Plan([SelectOption(page, args.selector, args.value)],
           "Selected \"" + ShowSelected(args.value) + "\" in: " + Show(args.selector))
    else
      var amount := args.amount.GetOr(DefaultScroll);
      var within := Truthy(args.selector);
      Plan([ScrollBy(page, if within then args.selector else None, ScrollDelta(args.direction, amount))],
           "Scrolled " + Show(args.direction) + " by " + IntToString(amount) + "px" +
           (if within then " in " + args.selector.value else ""))
  }

  /** The wait handler: for a visible selector or a function within 30000 ms
      unless told otherwise, or for the number of milliseconds the value
      parses to; any other kind of wait fails before any call. */
  function WaitPlan(args: Args, page: PageHandle): (r: Result<Plan>)
    ensures r.Err? <==> WaitKindOf(args.kind).Err?
    ensures r.Err? ==> r.message == "Unknown wait type: " + Show(args.kind)
    ensures r.Ok? ==> |r.value.calls| == 1 && TargetPage(r.value.calls[0]) == Some(page)
    ensures args.kind == Some("selector") ==>
              r == Ok(Plan([WaitForSelector(page, args.value, args.state.GetOr("visible"), args.timeout.GetOr(30000))],
                           "Waited for selector \"" + ShowValue(args.value) + "\" to be " + args.state.GetOr("visible")))
    ensures args.kind == Some("timeout") ==>
              r == Ok(Plan([WaitForTimeout(page, ParseInt(ShowValue(args.value)))], "Waited for " + ShowValue(args.value) + "ms"))
    ensures args.kind == Some("function") ==>
              r == Ok(Plan([WaitForFunction(page, args.value, args.timeout.GetOr(30000))], "Waited for function to return true"))
  {
    var timeout := args.timeout.GetOr(DefaultTimeout);
    match WaitKindOf(args.kind)
    case Err(e) => Err(e)
    case Ok(ForSelector) =>
      var state := args.state.GetOr("visible");
      Ok(Plan([WaitForSelector(page, args.value, state, timeout)],
              "Waited for selector \"" + ShowValue(args.value) + "\" to be " + state))
    case Ok(ForTimeout) =>
      Ok(Plan([WaitForTimeout(page, ParseInt(ShowValue(args.value)))], "Waited for " + ShowValue(args.value) + "ms"))
    case Ok(ForFunction) =>
      Ok(Plan([WaitForFunction(page, args.value, timeout)], "Waited for function to return true"))
  }

  /** The calls and reply text of a handler that works on the current page
      `page`, or the error it raises before calling anything. Every call acts
      on `page`; only the hover handler can make two (the hover and a pause of
      a positive duration). `evaluated` is the serialised evaluation result. */
  function PagePlan(tool: string, args: Args, page: PageHandle, evaluated: string): (r: Result<Plan>)
    requires tool in PlannedTools
    ensures r.Err? <==> tool == "interact_wait" && WaitKindOf(args.kind).Err?
    ensures r.Err? ==> r.message == "Unknown wait type: " + Show(args.kind)
    ensures r.Ok? ==> forall e :: e in r.value.calls ==> TargetPage(e) == Some(page)
    ensures r.Ok? ==> 1 <= |r.value.calls| <= 2
    ensures r.Ok? ==> (|r.value.calls| == 2 <==> tool == "interact_hover" && args.duration.GetOr(0) > 0)
    ensures tool in NavigationTools ==> r == Ok(NavigationPlan(tool, args, page))
    ensures tool in InteractionTools ==> r == Ok(InteractionPlan(tool, args, page))
    ensures tool == "interact_wait" ==> r == WaitPlan(args, page)
    ensures tool == "debug_evaluate" ==> r == Ok(Plan([Evaluate(page, args.expression)], "Evaluation result:\n" + evaluated))
  {
    if tool in NavigationTools then Ok(NavigationPlan(tool, args, page))
    else if tool in InteractionTools then Ok(InteractionPlan(tool, args, page))
    else if tool == "interact_wait" then WaitPlan(args, page)
    else Ok(Plan([Evaluate(page, args.expression)], "Evaluation result:\n" + evaluated))
  }

  /** The calls that are made when `fault` strikes: all of them up to and
      including the one that throws. */
  function Performed(calls: seq<Event>, fault: Option<Fault>): (p: seq<Event>)
    ensures p <= calls
    ensures |p| < |calls| ==> fault.Some? && |p| == fault.value.at + 1
    ensures fault.None? || fault.value.at >= |calls| ==> p == calls
  {
    if fault.Some? && fault.value.at < |calls| then calls[..fault.value.at + 1] else calls
  }

  /** The reply of a handler whose calls meet `fault`: the thrown message if a
      call throws, the handler's text otherwise. */
  function Outcome(calls: seq<Event>, fault: Option<Fault>, text: string): (r: Result<string>)
    ensures r.Err? <==> fault.Some? && fault.value.at < |calls|
    ensures r.Ok? ==> r.value == text && Performed(calls, fault) == calls
    ensures r.Err? ==> r.message == fault.value.message
  {
    if fault.Some? && fault.value.at < |calls| then Err(fault.value.message) else Ok(text)
  }

  /** Makes `calls` on the driver one after the other, stopping at the one
      that throws. */
  method Perform(driver: Driver, calls: seq<Event>, fault: Option<Fault>, text: string) returns (r: Result<string>)
    modifies driver
    ensures driver.trace == old(driver.trace) + Performed(calls, fault)
    ensures r == Outcome(calls, fault, text)
  {
    var i := 0;
    while i < |calls|
      invariant 0 <= i <= |calls|
      invariant driver.trace == old(driver.trace) + calls[..i]
      invariant fault.Some? ==> i <= fault.value.at
    {
      driver.Record(calls[i]);
      assert calls[..i + 1] == calls[..i] + [calls[i]];
      if fault.Some? && fault.value.at == i {
        return Err(fault.value.message);
      }
      i := i + 1;
    }
    assert calls[..i] == calls;
    return Ok(text);
  }

  /** The reply line `preview_list` prints for one preview. */
  function PreviewLine(id: string, info: PreviewInfo): string {
    "- " + id + ": " + Show(info.url) + " (" + info.mode + ")"
  }

  /** One line per preview, in the order the previews were opened. */
  function PreviewLines(m: OrderedMap<PreviewInfo>): (lines: seq<string>)
    requires m.Valid()
    ensures |lines| == |m.keys|
    ensures forall k :: 0 <= k < |m.keys| ==> lines[k] == PreviewLine(m.keys[k], m.entries[m.keys[k]])
  {
    seq(|m.keys|, k requires 0 <= k < |m.keys| => PreviewLine(m.keys[k], m.entries[m.keys[k]]))
  }

  const ListingHeader := "Active previews:\n\n"

  /** `preview_list`'s reply: a fixed sentence for an empty table, otherwise
      a header and the preview lines. */
  function PreviewListing(m: OrderedMap<PreviewInfo>): (text: string)
    requires m.Valid()
    ensures text == "No active previews" <==> m.keys == []
    ensures m.keys != [] ==> text == ListingHeader + Join(PreviewLines(m), "\n")
    ensures m.keys != [] ==> forall k :: 0 <= k < |m.keys| ==> Contains(text, PreviewLine(m.keys[k], m.entries[m.keys[k]]))
  {
    if m.keys == [] then "No active previews"
    else
      var body := Join(PreviewLines(m), "\n");
      var text := ListingHeader + body;
      assert text[0] == 'A';
      assert forall k :: 0 <= k < |m.keys| ==> Contains(text, PreviewLine(m.keys[k], m.entries[m.keys[k]])) by {
        forall k | 0 <= k < |m.keys|
          ensures Contains(text, PreviewLine(m.keys[k], m.entries[m.keys[k]]))
        {
          JoinContainsParts(PreviewLines(m), "\n", k);
          ContainsAfterPrefix(ListingHeader, body, PreviewLines(m)[k]);
        }
      }
      text
  }

  /** The options a screenshot capture reads from the tool's arguments. */
  function CaptureOptions(args: Args): ScreenshotOptions {
    ScreenshotOptions(args.mode, args.selector, args.format, args.quality, args.annotations)
  }

  /** The first failure among the steps of opening a preview, if any. */
  function OpenFailure(replies: Replies): (f: Option<string>)
    ensures f.None? <==> replies.launched.Ok? && replies.made.Ok? && replies.created.Ok? && replies.navigated.Ok?
  {
    if replies.launched.Err? then Some(replies.launched.message)
    else if replies.made.Err? then Some(replies.made.message)
    else if replies.created.Err? then Some(replies.created.message)
    else if replies.navigated.Err? then Some(replies.navigated.message)
    else None
  }

  function OpenedText(id: string, args: Args): string {
    "Preview opened successfully!\n\nPreview ID: " + id + "\nURL: " + Show(args.url) +
    "\nMode: " + args.mode.GetOr("local") + "\nPublic URL: " + Show(args.url) +
    "\nBrowser: " + args.browserType.GetOr("chromium") + "\nAuto-refresh: " + BoolToString(args.autoRefresh.GetOr(true))
  }

  /** The registry options a preview's browser is launched with and its
      context is created with. */
  function LaunchOptions(args: Args): BrowserOptions {
    BrowserOptions(Some(false), Some(args.viewport.GetOr(DefaultViewport)), None, None, None)
  }

  function ContextOptions(args: Args): BrowserOptions {
    BrowserOptions(None, Some(args.viewport.GetOr(DefaultViewport)), None, None, None)
  }

  /** The driver calls of a preview opening that succeeds. */
  function OpenCalls(args: Args, replies: Replies): seq<Event>
    requires OpenFailure(replies).None?
  {
    [Launch(EngineFor(args.browserType.GetOr("chromium")), false),
     NewContext(replies.launched.value, SettingsFor(ContextOptions(args))),
     NewPage(replies.made.value),
     Goto(replies.created.value, args.url, None)]
  }

  /** The driver calls of a preview opening, up to and including the first
      step that fails: a launch, then a context once the launch succeeded,
      then a page once the context was made, then the navigation once the
      page was created. */
  function OpenAttempt(args: Args, replies: Replies): (calls: seq<Event>)
    ensures OpenFailure(replies).None? ==> calls == OpenCalls(args, replies)
    ensures |calls| == (if replies.launched.Err? then 1 else if replies.made.Err? then 2
                        else if replies.created.Err? then 3 else 4)
  {
    [Launch(EngineFor(args.browserType.GetOr("chromium")), false)] +
    (if replies.launched.Err? then []
     else [NewContext(replies.launched.value, SettingsFor(ContextOptions(args)))] +
          (if replies.made.Err? then []
           else [NewPage(replies.made.value)] +
                (if replies.created.Err? then [] else [Goto(replies.created.value, args.url, None)])))
  }

  class ToolRouter {
    const registry: BrowserManager
    const screenshots: ScreenshotManager
    const driver: Driver
    var previews: OrderedMap<PreviewInfo>
    var previewCounter: nat

    /** The tables are well formed, the components share one driver, and every
        preview id was issued by the counter. */
    ghost predicate Valid()
      reads this, registry, screenshots
    {
      previews.Valid() && registry.Valid() && screenshots.Valid() &&
      registry.driver == driver && screenshots.driver == driver &&
      forall id :: id in previews.entries ==> exists k :: 1 <= k <= previewCounter && id == PreviewId(k)
    }

    constructor (registry: BrowserManager, screenshots: ScreenshotManager)
      requires registry.Valid() && screenshots.Valid() && registry.driver == screenshots.driver
      ensures Valid()
      ensures this.registry == registry && this.screenshots == screenshots && driver == registry.driver
      ensures previews == Empty() && previewCounter == 0
    {
      this.registry := registry;
      this.screenshots := screenshots;
      driver := registry.driver;
      previews := Empty();
      previewCounter := 0;
    }

    /** `handleToolCall`: an unknown name fails and changes nothing; a tool
        that needs a page fails and changes nothing when there is no current
        page, before any argument is examined; a planned page tool makes its
        calls on the current page. Only `preview_open` moves the counter, only
        the preview tools touch the preview table and the registry, and only
        `capture_screenshot` touches the screenshot cache. */
    method HandleToolCall(name: string, args: Args, replies: Replies) returns (r: Result<string>)
      requires Valid()
      modifies this, registry, screenshots, driver
      ensures Valid()
      ensures name !in RoutedTools ==>
                r == Err("Unknown tool: " + name) && unchanged(this, registry, screenshots, driver)
      ensures NeedsPage(name) && old(registry.CurrentPage()).None? ==>
                r == Err(NoActivePage) && unchanged(this, registry, screenshots, driver)
      ensures name in PlannedTools && old(registry.CurrentPage()).Some? ==>
                var plan := PagePlan(name, args, old(registry.CurrentPage()).value, replies.evaluated);
                (plan.Err? ==> r == Err(plan.message) && driver.trace == old(driver.trace)) &&
                (plan.Ok? ==> r == Outcome(plan.value.calls, replies.fault, plan.value.text) &&
                              driver.trace == old(driver.trace) + Performed(plan.value.calls, replies.fault))
      ensures name in {"preview_list", "debug_console"} ==> unchanged(this, registry, screenshots, driver)
      ensures name == "preview_list" ==> r == Ok(PreviewListing(previews))
      ensures name == "debug_console" ==> r == Ok("Console log collection not yet implemented")
      ensures previewCounter == old(previewCounter) + (if name == "preview_open" then 1 else 0)
      ensures name !in {"preview_open", "preview_close"} ==> previews == old(previews)
      ensures name !in {"preview_open", "preview_close", "preview_refresh"} ==> unchanged(registry)
      ensures name != "capture_screenshot" ==> unchanged(screenshots)
    {
      if name !in RoutedTools {
        return Err("Unknown tool: " + name);
      }
      if name in PagelessTools {
        r := PreviewTool(name, args, replies);
      } else {
        r := PageTool(name, args, replies);
      }
    }

    /** The preview tools and the console tool, which need no current page. */
    method PreviewTool(name: string, args: Args, replies: Replies) returns (r: Result<string>)
      requires Valid() && name in PagelessTools
      modifies this, registry, driver
      ensures Valid()
      ensures name in {"preview_list", "debug_console"} ==> unchanged(this, registry, driver)
      ensures name == "preview_list" ==> r == Ok(PreviewListing(previews))
      ensures name == "debug_console" ==> r == Ok("Console log collection not yet implemented")
      ensures previewCounter == old(previewCounter) + (if name == "preview_open" then 1 else 0)
      ensures name !in {"preview_open", "preview_close"} ==> previews == old(previews)
      ensures name !in {"preview_open", "preview_close", "preview_refresh"} ==> unchanged(registry)
      ensures name == "preview_open" ==>
                var id := PreviewId(previewCounter);
                if OpenFailure(replies).Some?
                then r == Err("Failed to open preview: " + OpenFailure(replies).value) && previews == old(previews)
                else r == Ok(OpenedText(id, args)) && id !in old(previews.entries) &&
                     previews == old(previews).Set(id, InfoFor(id, args)) &&
                     registry.CurrentPage() == Some(replies.created.value)
      ensures name == "preview_close" ==>
                if args.previewId.Some? && args.previewId.value in old(previews.entries)
                then r == Ok("Preview " + args.previewId.value + " closed successfully") &&
                     previews == old(previews).Delete(args.previewId.value)
                else r == Err("Preview " + Show(args.previewId) + " not found") && unchanged(this, registry, driver)
      ensures name == "preview_refresh" ==>
                previews == old(previews) &&
                (!(args.previewId.Some? && args.previewId.value in previews.entries) ==>
                   r == Err("Preview " + Show(args.previewId) + " not found") && driver.trace == old(driver.trace))
    {
      if name == "preview_open" {
        r := PreviewOpen(args, replies);
      } else if name == "preview_close" {
        r := PreviewClose(args);
      } else if name == "preview_list" {
        r := Ok(PreviewListing(previews));
      } else if name == "preview_refresh" {
        r := PreviewRefresh(args, replies);
      } else {
        r := Ok("Console log collection not yet implemented");
      }
    }

    /** The tools that act on the current page: none of them runs without
        one; `capture_screenshot` goes to the screenshot pipeline, every other
        one makes its plan's calls. */
    method PageTool(name: string, args: Args, replies: Replies) returns (r: Result<string>)
      requires Valid() && NeedsPage(name)
      modifies screenshots, driver
      ensures Valid()
      ensures old(registry.CurrentPage()).None? ==>
                r == Err(NoActivePage) && unchanged(screenshots, driver)
      ensures name in PlannedTools && old(registry.CurrentPage()).Some? ==>
                var plan := PagePlan(name, args, old(registry.CurrentPage()).value, replies.evaluated);
                (plan.Err? ==> r == Err(plan.message) && driver.trace == old(driver.trace)) &&
                (plan.Ok? ==> r == Outcome(plan.value.calls, replies.fault, plan.value.text) &&
                              driver.trace == old(driver.trace) + Performed(plan.value.calls, replies.fault))
      ensures name != "capture_screenshot" ==> unchanged(screenshots)
      ensures name == "capture_screenshot" && old(registry.CurrentPage()).Some? ==>
                var options, capture := CaptureOptions(args), replies.capture;
                var call := CaptureCall(old(registry.CurrentPage()).value, options);
                (call.Err? ==>
                   r == Err(call.message) &&
                   screenshots.screenshots == old(screenshots.screenshots) && driver.trace == old(driver.trace)) &&
                (call.Ok? && StoredImage(options, capture).Err? ==>
                   r == Err(StoredImage(options, capture).message) &&
                   screenshots.screenshots == old(screenshots.screenshots) &&
                   driver.trace == old(driver.trace) + [call.value] + CompositeCalls(options, capture))
      ensures name == "capture_screenshot" && old(registry.CurrentPage()).Some? ==>
                var options, capture := CaptureOptions(args), replies.capture;
                var call := CaptureCall(old(registry.CurrentPage()).value, options);
                var path := PathFor(screenshots.screenshotDir, Show(args.name), FormatOf(options));
                call.Ok? && StoredImage(options, capture).Ok? ==>
                  var img := StoredImage(options, capture).value;
                  screenshots.screenshots == old(screenshots.screenshots).Set(Show(args.name), img) &&
                  driver.trace == old(driver.trace) + [call.value] + CompositeCalls(options, capture) + [WriteFile(path, img)] &&
                  r == (if capture.written.Err? then Err(capture.written.message)
                        else Ok("Screenshot saved: " + Show(args.name) + "\nFile: " + path))
    {
      var page := registry.CurrentPage();
      if page.None? {
        return Err(NoActivePage);
      }
      if name == "capture_screenshot" {
        r := CaptureScreenshot(page.value, args, replies.capture);
      } else {
        var plan := PagePlan(name, args, page.value, replies.evaluated);
        if plan.Err? {
          return Err(plan.message);
        }
        r := Perform(driver, plan.value.calls, replies.fault, plan.value.text);
      }
    }

    /** `preview_open`: takes the next counter value first, then opens the
        preview's session; only when that succeeds is the preview added,
        under an id never used before. A failure is reported as a failure to
        open the preview. */
    method PreviewOpen(args: Args, replies: Replies) returns (r: Result<string>)
      requires Valid()
      modifies this, registry, driver
      ensures Valid()
      ensures previewCounter == old(previewCounter) + 1
      ensures OpenFailure(replies).Some? ==>
                r == Err("Failed to open preview: " + OpenFailure(replies).value) && previews == old(previews)
      ensures OpenFailure(replies).None? ==>
                var id := PreviewId(previewCounter);
                id !in old(previews.entries) &&
                previews.keys == old(previews.keys) + [id] &&
                previews.entries == old(previews.entries)[id := InfoFor(id, args)] &&
                r == Ok(OpenedText(id, args)) &&
                registry.CurrentPage() == Some(replies.created.value) &&
                driver.trace == old(driver.trace) + old(registry.BrowserCloseFor(InfoFor(id, args).browserId)) +
                                OpenCalls(args, replies)
      ensures var id := PreviewId(previewCounter);
              driver.trace == old(driver.trace) + old(registry.BrowserCloseFor(InfoFor(id, args).browserId)) +
                              OpenAttempt(args, replies)
      ensures var info := InfoFor(PreviewId(previewCounter), args);
              var launched, made, created := replies.launched.Ok?, replies.launched.Ok? && replies.made.Ok?,
                                             replies.launched.Ok? && replies.made.Ok? && replies.created.Ok?;
              registry.browsers == (if launched then old(registry.browsers).Delete(info.browserId).Set(info.browserId, replies.launched.value)
                                    else old(registry.browsers).Delete(info.browserId)) &&
              registry.contexts == (if made then old(registry.contexts).Set(info.contextId, replies.made.value)
                                    else old(registry.contexts)) &&
              registry.pages == (if created then old(registry.pages).Set(info.pageId, replies.created.value)
                                 else old(registry.pages)) &&
              registry.currentPageId == (if created then Some(info.pageId) else old(registry.currentPageId))
    {
      previewCounter := previewCounter + 1;
      var id := PreviewId(previewCounter);
      assert id !in previews.entries by {
        if id in previews.entries {
          var k :| 1 <= k <= previewCounter - 1 && id == PreviewId(k);
          PreviewIdInjective(k, previewCounter);
          assert false;
        }
      }
      var info := InfoFor(id, args);
      var failure := OpenSession(id, args, replies);
      if failure.Some? {
        return Err("Failed to open preview: " + failure.value);
      }
      previews := previews.Set(id, info);
      assert forall x :: x in previews.entries ==> x == id || x in old(previews.entries);
      r := Ok(OpenedText(id, args));
    }

    /** The registry work of `preview_open`: a headed browser, a context and a
        page under the preview's ids, then the navigation; the first failure
        stops it. */
    method OpenSession(id: string, args: Args, replies: Replies) returns (failure: Option<string>)
      requires registry.Valid() && registry.driver == driver
      modifies registry, driver
      ensures registry.Valid()
      ensures failure == OpenFailure(replies)
      ensures failure.None? ==> registry.CurrentPage() == Some(replies.created.value)
      ensures driver.trace == old(driver.trace) + old(registry.BrowserCloseFor(InfoFor(id, args).browserId)) +
                              OpenAttempt(args, replies)
      ensures var info := InfoFor(id, args);
              var launched, made, created := replies.launched.Ok?, replies.launched.Ok? && replies.made.Ok?,
                                             replies.launched.Ok? && replies.made.Ok? && replies.created.Ok?;
              registry.browsers == (if launched then old(registry.browsers).Delete(info.browserId).Set(info.browserId, replies.launched.value)
                                    else old(registry.browsers).Delete(info.browserId)) &&
              registry.contexts == (if made then old(registry.contexts).Set(info.contextId, replies.made.value)
                                    else old(registry.contexts)) &&
              registry.pages == (if created then old(registry.pages).Set(info.pageId, replies.created.value)
                                 else old(registry.pages)) &&
              registry.currentPageId == (if created then Some(info.pageId) else old(registry.currentPageId))
    {
      var info := InfoFor(id, args);
      ghost var before := driver.trace + registry.BrowserCloseFor(info.browserId);
      ghost var attempt := OpenAttempt(args, replies);
      var launched := registry.LaunchBrowser(info.browserId, args.browserType.GetOr("chromium"), LaunchOptions(args), replies.launched);
      assert driver.trace == before + attempt[..1];
      if launched.Err? {
        return Some(launched.message);
      }
      var made := registry.CreateContext(info.browserId, info.contextId, ContextOptions(args), replies.made);
      assert driver.trace == before + attempt[..2];
      if made.Err? {
        return Some(made.message);
      }
      var created := registry.CreatePage(info.contextId, info.pageId, replies.created);
      assert driver.trace == before + attempt[..3];
      if created.Err? {
        return Some(created.message);
      }
      assert info.pageId[..5] == "page_";
      driver.Record(Goto(created.value, args.url, None));
      assert driver.trace == before + attempt;
      if replies.navigated.Err? {
        return Some(replies.navigated.message);
      }
      return None;
    }

    /** `preview_close`: an unknown id fails and changes nothing; otherwise
        the preview's page, context and browser are closed in that order and
        only that preview is removed. */
    method PreviewClose(args: Args) returns (r: Result<string>)
      requires Valid()
      modifies this, registry, driver
      ensures Valid()
      ensures previewCounter == old(previewCounter)
      ensures !(args.previewId.Some? && args.previewId.value in old(previews.entries)) ==>
                r == Err("Preview " + Show(args.previewId) + " not found") &&
                unchanged(this, registry, driver)
      ensures args.previewId.Some? && args.previewId.value in old(previews.entries) ==>
                var id := args.previewId.value;
                var info := old(previews.entries)[id];
                r == Ok("Preview " + id + " closed successfully") &&
                previews == old(previews).Delete(id) &&
                registry.pages == old(registry.pages).Delete(info.pageId) &&
                registry.contexts == old(registry.contexts).Delete(info.contextId) &&
                registry.browsers == old(registry.browsers).Delete(info.browserId) &&
                registry.currentPageId == (if old(registry.currentPageId) == Some(info.pageId) then None
                                           else old(registry.currentPageId)) &&
                driver.trace == old(driver.trace) + old(registry.PageCloseFor(info.pageId)) +
                                old(registry.ContextCloseFor(info.contextId)) + old(registry.BrowserCloseFor(info.browserId))
    {
      var found := if args.previewId.Some? then previews.Get(args.previewId.value) else None;
      if found.None? {
        return Err("Preview " + Show(args.previewId) + " not found");
      }
      var id, info := args.previewId.value, found.value;
      ghost var contextCloses, browserCloses := registry.ContextCloseFor(info.contextId), registry.BrowserCloseFor(info.browserId);
      registry.ClosePage(info.pageId);
      assert registry.ContextCloseFor(info.contextId) == contextCloses;
      registry.CloseContext(info.contextId);
      assert registry.BrowserCloseFor(info.browserId) == browserCloses;
      registry.CloseBrowser(info.browserId);
      previews := previews.Delete(id);
      r := Ok("Preview " + id + " closed successfully");
    }

    /** `preview_refresh`: an unknown id fails, and so does a preview whose
        page the registry no longer holds; otherwise that page is reloaded. */
    method PreviewRefresh(args: Args, replies: Replies) returns (r: Result<string>)
      requires Valid()
      modifies driver
      ensures Valid()
      ensures !(args.previewId.Some? && args.previewId.value in previews.entries) ==>
                r == Err("Preview " + Show(args.previewId) + " not found") && driver.trace == old(driver.trace)
      ensures args.previewId.Some? && args.previewId.value in previews.entries ==>
                var id := args.previewId.value;
                match registry.GetPage(previews.entries[id].pageId)
                case None =>
                  r == Err("Page for preview " + id + " not found") && driver.trace == old(driver.trace)
                case Some(page) =>
                  r == Outcome([Reload(page, None)], replies.fault, "Preview " + id + " refreshed") &&
                  driver.trace == old(driver.trace) + Performed([Reload(page, None)], replies.fault)
    {
      var found := if args.previewId.Some? then previews.Get(args.previewId.value) else None;
      if found.None? {
        return Err("Preview " + Show(args.previewId) + " not found");
      }
      var id := args.previewId.value;
      var page := registry.GetPage(found.value.pageId);
      if page.None? {
        return Err("Page for preview " + id + " not found");
      }
      r := Perform(driver, [Reload(page.value, None)], replies.fault, "Preview " + id + " refreshed");
    }

    /** `capture_screenshot` on the current page: the capture is cached under
        the given name and the reply names the file it was written to. */
    method CaptureScreenshot(page: PageHandle, args: Args, capture: CaptureReplies) returns (r: Result<string>)
      requires Valid()
      modifies screenshots, driver
      ensures Valid()
      ensures CaptureCall(page, CaptureOptions(args)).Err? ==>
                r == Err(CaptureCall(page, CaptureOptions(args)).message) &&
                screenshots.screenshots == old(screenshots.screenshots) && driver.trace == old(driver.trace)
      ensures var options := CaptureOptions(args);
              CaptureCall(page, options).Ok? && StoredImage(options, capture).Err? ==>
                r == Err(StoredImage(options, capture).message) &&
                screenshots.screenshots == old(screenshots.screenshots) &&
                driver.trace == old(driver.trace) + [CaptureCall(page, options).value] + CompositeCalls(options, capture)
      ensures var options := CaptureOptions(args);
              var path := PathFor(screenshots.screenshotDir, Show(args.name), FormatOf(options));
              CaptureCall(page, options).Ok? && StoredImage(options, capture).Ok? ==>
                var img := StoredImage(options, capture).value;
                screenshots.screenshots == old(screenshots.screenshots).Set(Show(args.name), img) &&
                driver.trace == old(driver.trace) + [CaptureCall(page, options).value] +
                                CompositeCalls(options, capture) + [WriteFile(path, img)] &&
                r == (if capture.written.Err? then Err(capture.written.message)
                      else Ok("Screenshot saved: " + Show(args.name) + "\nFile: " + path))
    {
      var name := Show(args.name);
      var saved := screenshots.CaptureScreenshot(page, name, CaptureOptions(args), capture);
      if saved.Err? {
        return Err(saved.message);
      }
      r := Ok("Screenshot saved: " + name + "\nFile: " + saved.value);
    }
  }
}
