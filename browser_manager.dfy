/** The session registry (src/browser-manager.ts): browsers, contexts and
    pages by caller-chosen id, and the id of the current page. */
module BrowserManagement {
  import opened Common
  import opened Text
  import opened OrderedMaps
  import opened Driver

  datatype BrowserOptions = BrowserOptions(
    headless: Option<bool>,
    viewport: Option<Viewport>,
    userAgent: Option<string>,
    locale: Option<string>,
    timezoneId: Option<string>)

  /** The engine a browser type selects: Firefox and WebKit by name, Chromium
      for every other value. */
  function EngineFor(browserType: string): (e: Engine)
    ensures e == Firefox <==> browserType == "firefox"
    ensures e == Webkit <==> browserType == "webkit"
    ensures e == Chromium <==> browserType != "firefox" && browserType != "webkit"
  {
    if browserType == "firefox" then Firefox
    else if browserType == "webkit" then Webkit
    else Chromium
  }

  /** The options forwarded to a new context: each one present and truthy,
      unchanged; the others left to the driver. */
  function SettingsFor(o: BrowserOptions): (s: ContextSettings)
    ensures s.viewport == o.viewport
    ensures s.userAgent.Some? <==> Truthy(o.userAgent)
    ensures s.locale.Some? <==> Truthy(o.locale)
    ensures s.timezoneId.Some? <==> Truthy(o.timezoneId)
    ensures s.userAgent.Some? ==> s.userAgent == o.userAgent
    ensures s.locale.Some? ==> s.locale == o.locale
    ensures s.timezoneId.Some? ==> s.timezoneId == o.timezoneId
  {
    ContextSettings(
      o.viewport,
      if Truthy(o.userAgent) then o.userAgent else None,
      if Truthy(o.locale) then o.locale else None,
      if Truthy(o.timezoneId) then o.timezoneId else None)
  }

  /** Closing each of the handles, in order. */
  function PageCloses(hs: seq<PageHandle>): (es: seq<Event>)
    ensures |es| == |hs| && forall i :: 0 <= i < |hs| ==> es[i] == ClosePage(hs[i])
  {
    seq(|hs|, i requires 0 <= i < |hs| => ClosePage(hs[i]))
  }

  function ContextCloses(hs: seq<ContextHandle>): (es: seq<Event>)
    ensures |es| == |hs| && forall i :: 0 <= i < |hs| ==> es[i] == CloseContext(hs[i])
  {
    seq(|hs|, i requires 0 <= i < |hs| => CloseContext(hs[i]))
  }

  function BrowserCloses(hs: seq<BrowserHandle>): (es: seq<Event>)
    ensures |es| == |hs| && forall i :: 0 <= i < |hs| ==> es[i] == CloseBrowser(hs[i])
  {
    seq(|hs|, i requires 0 <= i < |hs| => CloseBrowser(hs[i]))
  }

  class BrowserManager {
    const driver: Driver
    var browsers: OrderedMap<BrowserHandle>
    var contexts: OrderedMap<ContextHandle>
    var pages: OrderedMap<PageHandle>
    var currentPageId: Option<string>

    /** The current page id, when set, names a registered page. */
    ghost predicate Valid()
      reads this
    {
      browsers.Valid() && contexts.Valid() && pages.Valid() &&
      (currentPageId.Some? ==> currentPageId.value in pages.entries)
    }

    constructor (driver: Driver)
      ensures Valid() && this.driver == driver
      ensures browsers == Empty() && contexts == Empty() && pages == Empty() && currentPageId == None
    {
      this.driver := driver;
      browsers, contexts, pages := Empty(), Empty(), Empty();
      currentPageId := None;
    }

    /** The close call the registry makes for the browser `id`, if it holds one. */
    function BrowserCloseFor(id: string): seq<Event>
      reads this
    {
      if id in browsers.entries then [Event.CloseBrowser(browsers.entries[id])] else []
    }

    function ContextCloseFor(id: string): seq<Event>
      reads this
    {
      if id in contexts.entries then [Event.CloseContext(contexts.entries[id])] else []
    }

    function PageCloseFor(id: string): seq<Event>
      reads this
    {
      if id in pages.entries then [Event.ClosePage(pages.entries[id])] else []
    }

    /** `launchBrowser`: a browser already held under `id` is closed (that
        browser alone) and dropped first; the new one is then registered under
        `id` if the driver starts it. */
    method LaunchBrowser(id: string, browserType: string, options: BrowserOptions, launched: Result<BrowserHandle>)
      returns (r: Result<BrowserHandle>)
      requires Valid()
      modifies this, driver
      ensures Valid()
      ensures r == launched
      ensures driver.trace == old(driver.trace) + old(BrowserCloseFor(id)) +
                              [Launch(EngineFor(browserType), options.headless.GetOr(false))]
      ensures launched.Ok? ==> browsers == old(browsers).Delete(id).Set(id, launched.value)
      ensures launched.Err? ==> browsers == old(browsers).Delete(id)
      ensures contexts == old(contexts) && pages == old(pages) && currentPageId == old(currentPageId)
    {
      if browsers.Has(id) {
        CloseBrowser(id);
      }
      driver.Record(Launch(EngineFor(browserType), options.headless.GetOr(false)));
      r := launched;
      if launched.Ok? {
        browsers := browsers.Set(id, launched.value);
      }
    }

    /** `createContext`: fails when `browserId` is unknown; otherwise asks that
        browser for a context and registers it under `contextId`, replacing
        (without closing) any context held there. */
    method CreateContext(browserId: string, contextId: string, options: BrowserOptions, made: Result<ContextHandle>)
      returns (r: Result<ContextHandle>)
      requires Valid()
      modifies this, driver
      ensures Valid()
      ensures browserId !in browsers.entries ==>
                r == Err("Browser " + browserId + " not found") && driver.trace == old(driver.trace)
      ensures browserId in browsers.entries ==>
                r == made &&
                driver.trace == old(driver.trace) + [NewContext(browsers.entries[browserId], SettingsFor(options))]
      ensures contexts == if browserId in browsers.entries && made.Ok?
                          then old(contexts).Set(contextId, made.value) else old(contexts)
      ensures browsers == old(browsers) && pages == old(pages) && currentPageId == old(currentPageId)
    {
      match browsers.Get(browserId)
      case None =>
        r := Err("Browser " + browserId + " not found");
      case Some(browser) =>
        driver.Record(NewContext(browser, SettingsFor(options)));
        r := made;
        if made.Ok? {
          contexts := contexts.Set(contextId, made.value);
        }
    }

    /** `createPage`: fails when `contextId` is unknown; otherwise opens a page
        in that context, registers it under `pageId` and makes it current. */
    method CreatePage(contextId: string, pageId: string, created: Result<PageHandle>)
      returns (r: Result<PageHandle>)
      requires Valid()
      modifies this, driver
      ensures Valid()
      ensures contextId !in contexts.entries ==>
                r == Err("Context " + contextId + " not found") && driver.trace == old(driver.trace)
      ensures contextId in contexts.entries ==>
                r == created && driver.trace == old(driver.trace) + [NewPage(contexts.entries[contextId])]
      ensures if contextId in contexts.entries && created.Ok?
              then pages == old(pages).Set(pageId, created.value) && currentPageId == Some(pageId)
              else pages == old(pages) && currentPageId == old(currentPageId)
      ensures browsers == old(browsers) && contexts == old(contexts)
    {
      match contexts.Get(contextId)
      case None =>
        r := Err("Context " + contextId + " not found");
      case Some(context) =>
        driver.Record(NewPage(context));
        r := created;
        if created.Ok? {
          pages := pages.Set(pageId, created.value);
          currentPageId := Some(pageId);
        }
    }

    /** `getCurrentPage`: absent when the current id is unset or empty (a falsy
        id), otherwise the page it names. */
    function CurrentPage(): (p: Option<PageHandle>)
      reads this
      requires Valid()
      ensures p.None? <==> currentPageId.None? || currentPageId.value == ""
      ensures p.Some? ==> p.value == pages.entries[currentPageId.value]
    {
      match currentPageId
      case None => None
      case Some(id) => if id == "" then None else pages.Get(id)
    }

    /** `getPage`. */
    function GetPage(pageId: string): (p: Option<PageHandle>)
      reads this
      ensures p.Some? <==> pageId in pages.entries
      ensures p.Some? ==> p.value == pages.entries[pageId]
    {
      pages.Get(pageId)
    }

    /** `getAllPages`: the page table as a value, so no caller can change the
        registry through it. */
    function AllPages(): (copy: OrderedMap<PageHandle>)
      reads this
      requires Valid()
      ensures copy.Valid() && copy.keys == pages.keys && copy.entries == pages.entries
    {
      pages
    }

    /** `closePage`: closes and drops a registered page, clearing the current
        id if it named that page; an unknown id changes nothing. */
    method ClosePage(pageId: string)
      requires Valid()
      modifies this, driver
      ensures Valid()
      ensures driver.trace == old(driver.trace) + old(PageCloseFor(pageId))
      ensures pages == old(pages).Delete(pageId)
      ensures currentPageId == if old(currentPageId) == Some(pageId) then None else old(currentPageId)
      ensures browsers == old(browsers) && contexts == old(contexts)
    {
      match pages.Get(pageId)
      case None =>
      case Some(page) =>
        driver.Record(Event.ClosePage(page));
        pages := pages.Delete(pageId);
        if currentPageId == Some(pageId) {
          currentPageId := None;
        }
    }

    /** `closeContext`: closes and drops a registered context; its pages stay
        registered. An unknown id changes nothing. */
    method CloseContext(contextId: string)
      requires Valid()
      modifies this, driver
      ensures Valid()
      ensures driver.trace == old(driver.trace) + old(ContextCloseFor(contextId))
      ensures contexts == old(contexts).Delete(contextId)
      ensures browsers == old(browsers) && pages == old(pages) && currentPageId == old(currentPageId)
    {
      match contexts.Get(contextId)
      case None =>
      case Some(context) =>
        driver.Record(Event.CloseContext(context));
        contexts := contexts.Delete(contextId);
    }

    /** `closeBrowser`: closes and drops a registered browser; its contexts and
        pages stay registered. An unknown id changes nothing. */
    method CloseBrowser(browserId: string)
      requires Valid()
      modifies this, driver
      ensures Valid()
      ensures driver.trace == old(driver.trace) + old(BrowserCloseFor(browserId))
      ensures browsers == old(browsers).Delete(browserId)
      ensures contexts == old(contexts) && pages == old(pages) && currentPageId == old(currentPageId)
    {
      match browsers.Get(browserId)
      case None =>
      case Some(browser) =>
        driver.Record(Event.CloseBrowser(browser));
        browsers := browsers.Delete(browserId);
    }

    /** `closeAll`: closes every page, then every context, then every browser,
        each table in insertion order, leaving the registry empty. */
    method CloseAll()
      requires Valid()
      modifies this, driver
      ensures Valid()
      ensures pages == Empty() && contexts == Empty() && browsers == Empty() && currentPageId == None
      ensures driver.trace == old(driver.trace) + PageCloses(old(pages).Values()) +
                              ContextCloses(old(contexts).Values()) + BrowserCloses(old(browsers).Values())
    {
      CloseEveryPage();
      CloseEveryContext();
      CloseEveryBrowser();
    }

    /** The first loop of `closeAll`. */
    method CloseEveryPage()
      requires Valid()
      modifies this, driver
      ensures Valid()
      ensures pages == Empty() && currentPageId == None
      ensures contexts == old(contexts) && browsers == old(browsers)
      ensures driver.trace == old(driver.trace) + PageCloses(old(pages).Values())
    {
      ghost var t0, p0 := driver.trace, pages;
      var pageIds := pages.keys;
      for i := 0 to |pageIds|
        invariant Valid()
        invariant pages.keys == pageIds[i..]
        invariant forall k :: k in pages.entries ==> pages.entries[k] == p0.entries[k]
        invariant contexts == old(contexts) && browsers == old(browsers)
        invariant driver.trace == t0 + PageCloses(p0.Values()[..i])
      {
        ghost var before := driver.trace;
        assert pages.entries[pageIds[i]] == p0.Values()[i];
        WithoutHead(pages.keys);
        ClosePage(pageIds[i]);
        assert driver.trace == before + [Event.ClosePage(p0.Values()[i])];
        PageClosesSnoc(p0.Values(), i);
      }
      MapIsEmpty(pages);
      assert p0.Values()[..|pageIds|] == p0.Values();
    }

    /** The second loop of `closeAll`. */
    method CloseEveryContext()
      requires Valid()
      modifies this, driver
      ensures Valid()
      ensures contexts == Empty()
      ensures pages == old(pages) && currentPageId == old(currentPageId) && browsers == old(browsers)
      ensures driver.trace == old(driver.trace) + ContextCloses(old(contexts).Values())
    {
      ghost var t0, c0 := driver.trace, contexts;
      var contextIds := contexts.keys;
      for i := 0 to |contextIds|
        invariant Valid()
        invariant contexts.keys == contextIds[i..]
        invariant forall k :: k in contexts.entries ==> contexts.entries[k] == c0.entries[k]
        invariant pages == old(pages) && currentPageId == old(currentPageId) && browsers == old(browsers)
        invariant driver.trace == t0 + ContextCloses(c0.Values()[..i])
      {
        ghost var before := driver.trace;
        assert contexts.entries[contextIds[i]] == c0.Values()[i];
        WithoutHead(contexts.keys);
        CloseContext(contextIds[i]);
        assert driver.trace == before + [Event.CloseContext(c0.Values()[i])];
        ContextClosesSnoc(c0.Values(), i);
      }
      MapIsEmpty(contexts);
      assert c0.Values()[..|contextIds|] == c0.Values();
    }

    /** The third loop of `closeAll`. */
    method CloseEveryBrowser()
      requires Valid()
      modifies this, driver
      ensures Valid()
      ensures browsers == Empty()
      ensures pages == old(pages) && currentPageId == old(currentPageId) && contexts == old(contexts)
      ensures driver.trace == old(driver.trace) + BrowserCloses(old(browsers).Values())
    {
      ghost var t0, b0 := driver.trace, browsers;
      var browserIds := browsers.keys;
      for i := 0 to |browserIds|
        invariant Valid()
        invariant browsers.keys == browserIds[i..]
        invariant forall k :: k in browsers.entries ==> browsers.entries[k] == b0.entries[k]
        invariant pages == old(pages) && currentPageId == old(currentPageId) && contexts == old(contexts)
        invariant driver.trace == t0 + BrowserCloses(b0.Values()[..i])
      {
        ghost var before := driver.trace;
        assert browsers.entries[browserIds[i]] == b0.Values()[i];
        WithoutHead(browsers.keys);
        CloseBrowser(browserIds[i]);
        assert driver.trace == before + [Event.CloseBrowser(b0.Values()[i])];
        BrowserClosesSnoc(b0.Values(), i);
      }
      MapIsEmpty(browsers);
      assert b0.Values()[..|browserIds|] == b0.Values();
    }
  }

  lemma PageClosesSnoc(hs: seq<PageHandle>, i: nat)
    requires i < |hs|
    ensures PageCloses(hs[..i + 1]) == PageCloses(hs[..i]) + [ClosePage(hs[i])]
  {
  }

  lemma ContextClosesSnoc(hs: seq<ContextHandle>, i: nat)
    requires i < |hs|
    ensures ContextCloses(hs[..i + 1]) == ContextCloses(hs[..i]) + [CloseContext(hs[i])]
  {
  }

  lemma BrowserClosesSnoc(hs: seq<BrowserHandle>, i: nat)
    requires i < |hs|
    ensures BrowserCloses(hs[..i + 1]) == BrowserCloses(hs[..i]) + [CloseBrowser(hs[i])]
  {
  }

  lemma MapIsEmpty<V>(m: OrderedMap<V>)
    requires m.Valid() && m.keys == []
    ensures m == Empty()
  {
    assert m.entries.Keys == {};
  }
}
