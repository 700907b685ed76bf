# web-preview-mcp core, modelled in Dafny

This project models the bookkeeping at the heart of the web-preview MCP server.

- **Session registry.** Browsers, contexts and pages are kept under caller-chosen ids, with one id marking the current page.
- **Screenshot pipeline.** It selects the capture mode and format, draws annotation overlays, caches images by name and computes a normalised difference score.
- **Tool router.** It dispatches tool names to handlers. It keeps a table of open previews and a counter that numbers them. Most of its handlers act on the registry's current page.
- **Resource handlers.** They list cached screenshots as `screenshot://` resources and read them back.
- **Accessibility utilities.** They normalise a raw snapshot tree, run a filtered pre-order search and run a pre-order issue check.
- **Public-URL builder.** It builds the proxy URLs.

The browser driver, the image library and the file system are seen only from the outside:
- Browsers, contexts and pages are opaque handles.
- Every call the core makes on them is appended to a trace (`Driver.Driver.trace`).
- Whatever such a call answers (a handle, an image, an error it throws) is an input of the operation that makes the call.
- Close ordering and "nothing else changes" are therefore postconditions on the trace and on the tables.

JavaScript `Map`s keep insertion order, and that order shows in `closeAll`, the resource listing and `preview_list`. So every map is an `OrderedMaps.OrderedMap`: the keys in insertion order plus the entries. Setting a present key keeps its place; setting a new key appends it. Being a value, a copy returned by `getAllPages` or `getAllScreenshots` can never alias the registry's own table.

The router dispatches 17 tool names. Every other name is refused, including names the tool catalogue declares but the router does not route, such as `capture_compare`.

Files:
- `common.dfy` — `Option`, `Result`, bytes.
- `text.dfy` — number rendering, `parseInt`, `split`, `join`, `includes`.
- `ordered_map.dfy` — insertion-ordered maps.
- `driver.dfy` — handles, images, driver calls.
- `annotations.dfy` — overlay geometry.
- `browser_manager.dfy` — the session registry.
- `screenshot_manager.dfy` — the screenshot pipeline.
- `tool_handler.dfy` — the tool router.
- `request_handler.dfy` — the resource and tool-call handlers.
- `accessibility.dfy` — the accessibility utilities.
- `proxy_integration.dfy` — the public-URL builder.

## Model

| member | source | states |
|---|---|---|
| OrderedMaps.OrderedMap.Set | src/browser-manager.ts:43 | `Map.set`: the entry is replaced or added; a present key keeps its position, a new key goes last; keys stay distinct and match the entries |
| OrderedMaps.OrderedMap.Delete | src/browser-manager.ts:114 | `Map.delete`: exactly that key leaves, the other keys keep their order; deleting an absent key changes nothing |
| OrderedMaps.OrderedMap.DeleteShrinks | src/browser-manager.ts:114 | deleting a present key shrinks the map by exactly one |
| Text.ParseIntOfIntToString | src/toolHandler.ts:394 | `parseInt` reads back every integer that a template string renders |
| Text.SecondSegment | src/requestHandler.ts:45 | `split("://")[1]`: undefined exactly when the separator is absent. Otherwise it is the text after the first occurrence, up to the next occurrence or the end, and holds no separator |
| BrowserManagement.EngineFor | src/browser-manager.ts:32-41 | `firefox` and `webkit` select those engines, every other browser type selects Chromium |
| BrowserManagement.SettingsFor | src/browser-manager.ts:57-69 | a context option is forwarded exactly when it is present and truthy, and then unchanged |
| BrowserManagement.BrowserManager.constructor | src/browser-manager.ts:13-17 | the registry starts with three empty tables and no current page |
| BrowserManagement.BrowserManager.LaunchBrowser | src/browser-manager.ts:19-45 | a browser already held under the id is closed (that one alone) and dropped first; the new browser is launched with `headless` defaulting to false and registered under the id; contexts, pages and the current page are untouched; the invariant "current page id is unset or a key of the page table" is kept |
| BrowserManagement.BrowserManager.CreateContext | src/browser-manager.ts:47-74 | unknown browser: fails with "Browser X not found" and makes no call; otherwise one context call with the truthy options, then the context is stored under its id, replacing any earlier one without closing it |
| BrowserManagement.BrowserManager.CreatePage | src/browser-manager.ts:76-85 | unknown context: fails with "Context X not found" and makes no call; otherwise the page is stored under its id and becomes the current page |
| BrowserManagement.BrowserManager.CurrentPage | src/browser-manager.ts:101-104 | absent exactly when the current id is unset or empty; otherwise the page that the id names |
| BrowserManagement.BrowserManager.GetPage | src/browser-manager.ts:106-108 | the page held under the id, if there is one |
| BrowserManagement.BrowserManager.AllPages | src/browser-manager.ts:154-156 | a copy of the page table, with the same keys, order and entries |
| BrowserManagement.BrowserManager.ClosePage | src/browser-manager.ts:110-119 | a held page is closed and dropped, and the current id is cleared only if it named that page; an unknown id changes nothing; contexts and browsers are untouched |
| BrowserManagement.BrowserManager.CloseContext | src/browser-manager.ts:121-127 | a held context is closed and dropped; its pages stay (no cascade); an unknown id changes nothing |
| BrowserManagement.BrowserManager.CloseBrowser | src/browser-manager.ts:129-135 | a held browser is closed and dropped; its contexts and pages stay (no cascade); an unknown id changes nothing |
| BrowserManagement.BrowserManager.CloseAll | src/browser-manager.ts:137-152 | every page is closed in table order, then every context, then every browser; all three tables end empty and there is no current page |
| BrowserManagement.BrowserManager.CloseEveryPage | src/browser-manager.ts:139-141 | the page loop closes each page in insertion order, empties the page table and clears the current page |
| BrowserManagement.BrowserManager.CloseEveryContext | src/browser-manager.ts:144-146 | the context loop closes each context in insertion order and empties the context table |
| BrowserManagement.BrowserManager.CloseEveryBrowser | src/browser-manager.ts:149-151 | the browser loop closes each browser in insertion order and empties the browser table |
| Annotations.GlyphFor | src/screenshot-manager.ts:109-147 | a glyph is drawn exactly for the arrow, circle and box styles. It marks the annotated point and its colour defaults to red. An arrow runs from (x-50, y-50) to the point with its label starting at (x-55, y-55). A circle has radius 30 with its label centred at (x, y-40). A box is 60 by 40 with its label centred at (x, y-30). The label carries the text and sits clear of the shape |
| Annotations.GlyphsForAppend | src/screenshot-manager.ts:109-148 | the overlay of a list of annotations is the overlays of its parts, in order |
| Annotations.GlyphsForKnown | src/screenshot-manager.ts:109-148 | annotations of known styles draw exactly one glyph each, in order |
| Annotations.GlyphsForUnknown | src/screenshot-manager.ts:145-148 | annotations of unknown styles draw nothing |
| Annotations.GlyphsClear | src/screenshot-manager.ts:122-141 | every drawn label sits clear of its shape |
| Annotations.OverlayFor | src/screenshot-manager.ts:150-154 | the overlay has exactly the image's width and height and carries exactly the glyphs the annotations draw, in their order |
| Screenshots.CaptureCall | src/screenshot-manager.ts:43-75 | element mode without a truthy selector fails before any capture. `full` captures the whole page and `element` the first match. Every other mode, including a missing one, captures the viewport. The format defaults to png. A quality (default 90) is passed exactly when the format is jpeg |
| Screenshots.StoredImage | src/screenshot-manager.ts:77-80 | without a non-empty annotation list the raster is stored as captured. With one, an image lacking a dimension fails with "Could not get image dimensions"; otherwise the composited image is stored |
| Screenshots.ScreenshotManager.constructor | src/screenshot-manager.ts:22-28 | the cache starts empty |
| Screenshots.ScreenshotManager.CaptureScreenshot | src/screenshot-manager.ts:38-95 | a selector error makes no call and leaves the cache alone. A failed capture or annotation leaves the cache alone. Otherwise the final image is cached under the name, replacing any earlier one, and written to `<dir>/<name>.<format>`. That path is returned; a failed write is reported after the cache was updated |
| Screenshots.ScreenshotManager.GetScreenshot | src/screenshot-manager.ts:168-170 | the image cached under the name, if there is one |
| Screenshots.ScreenshotManager.AllScreenshots | src/screenshot-manager.ts:172-174 | a copy of the cache, with the same keys, order and entries |
| Screenshots.ScreenshotManager.ClearScreenshots | src/screenshot-manager.ts:216-218 | the cache ends empty |
| Screenshots.Difference | src/screenshot-manager.ts:196-202 | the difference blend is the absolute difference of the samples at each common position |
| Screenshots.DiffScore | src/screenshot-manager.ts:191-193 | images whose dimensions differ score exactly 1; the score is NaN (0/0) exactly when equally sized images have no samples |
| Screenshots.ScreenshotManager.CompareScreenshots | src/screenshot-manager.ts:176-214 | fails with "One or both screenshots not found" unless both names are cached; otherwise the summing loop returns exactly the difference score of the two cached images |
| Screenshots.ScoreInUnitInterval | src/screenshot-manager.ts:204-213 | every numeric score lies between 0 and 1 |
| Screenshots.ScoreSymmetric | src/screenshot-manager.ts:191-211 | the score does not depend on the order of the two images |
| Screenshots.ScoreZeroIffSame | src/screenshot-manager.ts:204-213 | equally sized images score exactly 0 iff they have samples and agree at every common position |
| Screenshots.SelfScoreZero | src/screenshot-manager.ts:204-213 | a non-empty image compared with itself scores 0 |
| ToolHandling.PreviewIdInjective | src/toolHandler.ts:71 | distinct counter values give distinct preview ids |
| ToolHandling.InfoFor | src/toolHandler.ts:72-74 | a preview's browser, context and page ids are `browser_`, `context_` and `page_` followed by the preview id. The stored url is the argument, and the mode defaults to `local` |
| ToolHandling.ScrollDelta | src/toolHandler.ts:347-354 | up, down, left and right map to (0,-a), (0,a), (-a,0) and (a,0); every other direction has no entry |
| ToolHandling.ScrollOpposite | src/toolHandler.ts:347-352 | opposite directions cancel |
| ToolHandling.WaitKindOf | src/toolHandler.ts:383-413 | exactly `selector`, `timeout` and `function` are accepted; anything else fails with "Unknown wait type: <type>" |
| ToolHandling.PagePlan | src/toolHandler.ts:183-413 | each page handler's calls all act on the current page. Only an unknown wait type fails, and it fails before any call. Only hover with a positive duration makes two calls. The navigation, interaction and wait tools get exactly the plans below; `debug_evaluate` makes one evaluation and replies with the serialised result |
| ToolHandling.NavigationPlan | src/toolHandler.ts:183-251 | `navigate_to` goes to the url, waiting for `load` within 30000 ms unless told otherwise. Back and forward make their one call. Reload waits for `load`, and the reply says "hard" only when a hard reload was asked for |
| ToolHandling.InteractionPlan | src/toolHandler.ts:254-373 | a click defaults to the left button and a click count of 1, with the position passed on. Typing fills the field when asked to clear it, and otherwise types with a delay that defaults to 0. A hover pauses for its duration only when that is positive. Select passes the value on. A scroll moves by the direction's offset for an amount that defaults to 300, inside the element only when a selector is given. Every reply text is exact, including the scroll's " in <selector>" suffix for a truthy selector |
| ToolHandling.WaitPlan | src/toolHandler.ts:375-414 | a selector wait defaults to the state `visible` and a timeout of 30000. A timeout wait pauses for the value read by `parseInt`. A function wait defaults to a timeout of 30000. Any other kind fails with "Unknown wait type: <type>" before any call |
| ToolHandling.OpenAttempt | src/toolHandler.ts:76-92 | the calls of an opening that fails stop at the failing step, one call per step reached; an opening that succeeds makes all four |
| ToolHandling.Perform | src/toolHandler.ts:191 | a handler's driver calls are made in order up to the one that throws, and that call's error is the reply |
| ToolHandling.PreviewListing | src/toolHandler.ts:143-157 | "No active previews" exactly when the table is empty. Otherwise the reply is the header followed by one line per preview, in opening order, joined by newlines |
| ToolHandling.ToolRouter.constructor | src/toolHandler.ts:5-14 | the preview table starts empty and the counter at 0 |
| ToolHandling.ToolRouter.HandleToolCall | src/toolHandler.ts:16-65 | an unknown name fails with "Unknown tool: <name>" and changes nothing. A page tool fails with "No active page. Please open a preview first." and changes nothing when there is no current page, before any argument is looked at. Planned page tools make their plan's calls. Only `preview_open` moves the counter, only the preview tools touch the previews and the registry, and only `capture_screenshot` touches the cache |
| ToolHandling.ToolRouter.PreviewTool | src/toolHandler.ts:19-26 | the five tools that need no page. `preview_list` and `debug_console` change nothing and return the listing and the fixed console sentence. `preview_open` adds the preview under a fresh id and makes its page current, or reports the failure and keeps the table. `preview_close` removes exactly that preview, or fails and changes nothing. `preview_refresh` of an unknown id fails and makes no call. Only `preview_open` moves the counter |
| ToolHandling.ToolRouter.PageTool | src/toolHandler.ts:29-60 | without a current page it fails with the no-active-page message and changes nothing. Otherwise a planned tool makes exactly its plan's calls on the current page. `capture_screenshot` makes the screenshot pipeline's driver calls on the current page and states the cache and the reply on every path, as ToolHandling.ToolRouter.CaptureScreenshot does. Only `capture_screenshot` touches the cache |
| ToolHandling.ToolRouter.PreviewOpen | src/toolHandler.ts:68-119 | the counter goes up first, whatever follows. On success the preview is added under a never-used id and the new page is current. Any failure becomes "Failed to open preview: …" and leaves the preview table unchanged. On every path the driver calls are the closes of a browser already under the id followed by the open calls up to the failing one, and the browser, context and page tables and the current page are those the completed steps left: a half-opened session is not cleaned up |
| ToolHandling.ToolRouter.OpenSession | src/toolHandler.ts:76-92 | a headed browser, a context and a page are created with the viewport defaulting to 1280x720, then the page navigates to the url. The first failure stops the sequence: the trace holds exactly the calls made up to it, and each table holds what was registered before it |
| ToolHandling.ToolRouter.PreviewClose | src/toolHandler.ts:121-141 | an unknown id fails with "Preview X not found" and changes nothing. Otherwise the page, the context and the browser are closed in that order and only that preview is removed. The current page is cleared when it was that preview's page |
| ToolHandling.ToolRouter.PreviewRefresh | src/toolHandler.ts:159-180 | an unknown id fails with "Preview X not found"; a preview whose page is gone fails with "Page for preview X not found"; otherwise its page is reloaded |
| ToolHandling.ToolRouter.CaptureScreenshot | src/toolHandler.ts:417-432 | a selector error fails with its message, makes no call and keeps the cache. A failed capture or annotation fails with its message after the capture call and keeps the cache. Otherwise the image is cached under the given name and written to its file, and the reply names that file or reports the failed write |
| Resources.ListResources | src/requestHandler.ts:14-27 | the console log comes first, then one `screenshot://<name>` resource per cached screenshot in cache order, always typed image/png |
| Resources.ReadResource | src/requestHandler.ts:30-59 | `console://logs` always reads the fixed placeholder. A `screenshot://` URI reads the cached image named by its second `://` segment, exactly when such an image is cached. Everything else fails with "Resource not found: <uri>" |
| Resources.ReadListedScreenshot | src/requestHandler.ts:44-56 | a listed screenshot whose name has no `://` reads back as its cached image |
| Resources.ListedScreenshotUnreadable | src/requestHandler.ts:45 | a screenshot named `a://b` is listed but cannot be read back |
| Resources.ReadResourceByScheme | src/requestHandler.ts:44-46 | reading with the name taken as everything after `screenshot://` |
| Resources.ReadListedScreenshotByScheme | src/requestHandler.ts:21-25 | with that reading, every listed screenshot reads back as its cached image |
| Resources.CallArgs | src/requestHandler.ts:68-69 | a tool call without arguments gets the empty argument object |
| Resources.CallTool | src/requestHandler.ts:67-70 | tool calls are passed to the router: unknown names and page tools without a page fail and change nothing |
| Accessibility.ProcessNode | src/utils/accessibility.ts:26-49 | a missing or empty role becomes `unknown` and a missing name becomes empty. A description is kept only when non-empty. The other optional fields are copied as they are, and there are as many children as in the snapshot |
| Accessibility.ProcessNodeChildren | src/utils/accessibility.ts:44-46 | each child is normalised in its own position |
| Accessibility.ProcessNodeKeepsSize | src/utils/accessibility.ts:44-46 | the normalised tree has as many nodes as the snapshot |
| Accessibility.AccessibilityTree | src/utils/accessibility.ts:18-24 | a missing snapshot fails with "Could not get accessibility snapshot"; otherwise the normalised tree |
| Accessibility.SearchTree | src/utils/accessibility.ts:63-81 | the accumulator gains the selected nodes of the tree in pre-order |
| Accessibility.MatchesExactly | src/utils/accessibility.ts:69-75 | a node is found exactly when it is in the tree and passes the filters that are given: with a role filter its role equals it; with a name filter its name contains it. A missing or empty filter is ignored |
| Accessibility.MatchesWithoutFilters | src/utils/accessibility.ts:70-80 | with no filters (missing or empty) every node is found, in pre-order |
| Accessibility.FindAccessibleElements | src/utils/accessibility.ts:51-61 | the search of the normalised snapshot, or the snapshot error |
| Accessibility.NodeIssues | src/utils/accessibility.ts:95-114 | a node raises at most one issue, and exactly one when it is an unnamed image, button, link, textbox, checkbox, radio or combobox. The exact messages are stated: "Image without alt text", "Button without accessible name", "Link without text" and "Form input (<role>) without label" |
| Accessibility.CheckForIssues | src/utils/accessibility.ts:95-120 | the accumulator gains the issues of the tree in pre-order, at most one per node |
| Accessibility.NamedTreeHasNoIssues | src/utils/accessibility.ts:95-114 | a tree whose nodes all have names raises no issue |
| Accessibility.Report | src/utils/accessibility.ts:90-92 | "No accessibility issues found" exactly when there are none. Otherwise the reply is "Found N accessibility issues:", a newline, then the issues in order, joined by newlines |
| Accessibility.AccessibilityReport | src/utils/accessibility.ts:83-93 | the report of the normalised snapshot's issues, or the snapshot error |
| ProxyIntegration.CreatePublicUrl | src/utils/proxy-integration.ts:17-26 | disabled: `http://localhost:<port>`; enabled: `https://<sub>.<domain>` |
| ProxyIntegration.SubdomainFor | src/utils/proxy-integration.ts:24 | a given non-empty subdomain is used, otherwise `preview-<now>`; never empty |
| ProxyIntegration.LocalUrlPort | src/utils/proxy-integration.ts:18-20 | when disabled, the port reads back from the URL |
| ProxyIntegration.LocalUrlIgnoresSubdomain | src/utils/proxy-integration.ts:18-20 | when disabled, the subdomain and the clock make no difference |
| ProxyIntegration.PublicUrlShape | src/utils/proxy-integration.ts:24-25 | when enabled, the URL is `https://`, then the subdomain, then `.` and the domain |
| ProxyIntegration.RemovePublicUrl | src/utils/proxy-integration.ts:28-35 | nothing happens when disabled; otherwise the one line it logs |
| ProxyIntegration.DefaultConfig | src/utils/proxy-integration.ts:39-42 | enabled exactly when the environment value is the string `true`; the domain defaults to `preview.komposia.com` |

## Findings

| source | as written | input that shows it | evidently intended | confidence | as-written member | corrected member |
|---|---|---|---|---|---|---|
| src/requestHandler.ts:45 | the screenshot name is read as the text between the first and the second `://` of the URI | a screenshot captured under the name `a://b` is listed as `screenshot://a://b`; reading that URI looks up `a` and fails with "Resource not found" | the name is everything after `screenshot://`, so that every listed screenshot can be read back | medium, not executed | Resources.ListedScreenshotUnreadable | Resources.ReadListedScreenshotByScheme |

## Left out

- Console and page-error subscription on new pages (src/browser-manager.ts:86-96): it only forwards browser log lines to standard error.
- Driver behaviour: launching, navigation, rendering, what an evaluated expression does, and wait timing. Every driver answer is a parameter, an `Ok` value or the error the call throws.
- BrowserManagement.BrowserManager.ClosePage: does not model a close call that throws. The same goes for CloseContext, CloseBrowser, CloseAll and the closes in ToolHandling.ToolRouter.PreviewClose; every close is taken to succeed.
- Image decoding and encoding. An image is its reported width and height (0 when the decoder reports none) and its sample sequence; colour channels and formats are not modelled.
- Screenshots.Difference: pairs samples position by position over the shorter of the two buffers, in place of the library's decode-and-blend at the first image's size.
- Screenshots.DiffScore: uses exact rational arithmetic, not floating point.
- The SVG text of the overlay: the model keeps each shape's geometry, label position, text and colour, not the markup.
- The screenshot directory and the file write.
  - The directory is a constructor parameter; creating it is not modelled.
  - The path is the directory, `/`, the name and the extension, without `path.join` normalisation.
  - The write is a recorded call whose answer is a parameter.
- Base64 encoding of a screenshot read through a resource: the cached image itself is returned.
- `JSON.stringify` of an evaluation result: the serialised text is a parameter.
- Argument typing. Every tool argument has the type its schema declares. A caller sending another type is not modelled; nor is a direction such as `toString` that names an inherited property of the scroll table, which the model treats as having no entry.
- A `capture_screenshot` call without a name: it is cached under the text `undefined`, where the source uses the key `undefined`.
- Text.ParseInt: reads decimal digits only. `parseInt`'s hexadecimal prefix and white space other than space, tab, line feed and carriage return are not modelled.
- ToolHandling.ToolRouter.HandleToolCall: for the preview tools and `capture_screenshot` it states only which state may change. Their full effect is stated by the handler members that it calls.
- ToolHandling.ToolRouter.PreviewTool: does not restate the driver calls of `preview_open` and `preview_close`, nor what a known preview's refresh does; ToolHandling.ToolRouter.PreviewOpen, ToolHandling.ToolRouter.PreviewClose and ToolHandling.ToolRouter.PreviewRefresh state them.
- Resources.CallTool: states only the unknown-tool and no-page outcomes. The rest is the router's contract.
- Concurrency: each tool call runs to completion before the next; interleavings of concurrent asynchronous calls are not modelled.
- Numbers are unbounded integers; JavaScript's floating-point numbers (fractional ports, timeouts or coordinates) are not modelled.
- The tool catalogue and its schemas (src/tools.ts, src/tools/*.ts, src/types/index.ts), the list-tools handler that returns it, the preview server, the WebSocket server and the process wiring (src/preview-server.ts, src/utils/websocket.ts, src/server.ts): src/preview-server.ts, src/utils/websocket.ts and src/server.ts are not part of this model.
- The `public` preview mode: its public URL is the page URL, as in the source, and the proxy is not called.
