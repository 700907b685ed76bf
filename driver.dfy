/** The browser-control driver, the image library and the file system, seen
    from the core: opaque handles, and a trace of the calls the core makes on
    them. What a call answers is an input of the operation that makes it. */
module Driver {
  import opened Common
  import opened Annotations

  datatype BrowserHandle = BrowserHandle(serial: nat)
  datatype ContextHandle = ContextHandle(serial: nat)
  datatype PageHandle = PageHandle(serial: nat)

  datatype Engine = Chromium | Firefox | Webkit

  datatype Viewport = Viewport(width: int, height: int)

  datatype Position = Position(x: int, y: int)

  /** The options a context is created with; `None` leaves the driver's default. */
  datatype ContextSettings = ContextSettings(
    viewport: Option<Viewport>,
    userAgent: Option<string>,
    locale: Option<string>,
    timezoneId: Option<string>)

  /** A screenshot: its pixel dimensions (0 when the decoder reports none) and
      its raw samples. */
  datatype Image = Image(width: nat, height: nat, data: seq<byte>)

  /** What a screenshot covers. */
  datatype Scope = WholePage | VisibleArea | FirstMatch(selector: string)

  datatype NavOptions = NavOptions(waitUntil: string, timeout: int)

  /** A tool argument that is a string or a list of strings. */
  datatype Value = Str(text: string) | Strs(items: seq<string>)

  /** A signed scroll offset. */
  datatype Delta = Delta(dx: int, dy: int)

  datatype Event =
    | Launch(engine: Engine, headless: bool)
    | NewContext(browser: BrowserHandle, settings: ContextSettings)
    | NewPage(context: ContextHandle)
    | ClosePage(page: PageHandle)
    | CloseContext(context: ContextHandle)
    | CloseBrowser(browser: BrowserHandle)
    | Goto(page: PageHandle, url: Option<string>, options: Option<NavOptions>)
    | GoBack(page: PageHandle)
    | GoForward(page: PageHandle)
    | Reload(page: PageHandle, waitUntil: Option<string>)
    | Click(page: PageHandle, selector: Option<string>, button: string, clickCount: int, position: Option<Position>)
    | Fill(page: PageHandle, selector: Option<string>, text: Option<string>)
    | Type(page: PageHandle, selector: Option<string>, text: Option<string>, delay: int)
    | Hover(page: PageHandle, selector: Option<string>)
    | SelectOption(page: PageHandle, selector: Option<string>, value: Option<Value>)
    | ScrollBy(page: PageHandle, element: Option<string>, delta: Option<Delta>)
    | WaitForSelector(page: PageHandle, target: Option<Value>, state: string, timeout: int)
    | WaitForTimeout(page: PageHandle, millis: Option<int>)
    | WaitForFunction(page: PageHandle, condition: Option<Value>, timeout: int)
    | Evaluate(page: PageHandle, expression: Option<string>)
    | Screenshot(page: PageHandle, scope: Scope, format: string, quality: Option<int>)
    | Composite(base: Image, overlay: Overlay)
    | WriteFile(path: string, content: Image)

  /** The page a call acts on, if it acts on one. */
  function TargetPage(e: Event): Option<PageHandle> {
    match e
    case Launch(_, _) => None
    case NewContext(_, _) => None
    case NewPage(_) => None
    case CloseContext(_) => None
    case CloseBrowser(_) => None
    case Composite(_, _) => None
    case WriteFile(_, _) => None
    case _ => Some(e.page)
  }

  /** The calls made so far, in order. */
  class Driver {
    var trace: seq<Event>

    constructor ()
      ensures trace == []
    {
      trace := [];
    }

    method Record(e: Event)
      modifies this
      ensures trace == old(trace) + [e]
    {
      trace := trace + [e];
    }
  }
}
