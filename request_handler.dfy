/** The protocol handlers (src/requestHandler.ts): the resource listing built
    from the screenshot cache, reading a resource by URI, and handing tool
    calls to the router. */
module Resources {
  import opened Common
  import opened Text
  import opened OrderedMaps
  import opened Driver
  import opened Screenshots
  import opened ToolHandling

  datatype Resource = Resource(uri: string, mimeType: string, name: string)

  /** What reading a resource returns: a text, or a cached image (sent base64
      encoded). */
  datatype Content =
    | TextContent(uri: string, mimeType: string, text: string)
    | ImageContent(uri: string, mimeType: string, image: Image)

  const ConsoleUri := "console://logs"
  const ConsoleText := "Console logs will be available here"
  const ScreenshotScheme := "screenshot://"
  const Separator := "://"
  const ConsoleResource := Resource(ConsoleUri, "text/plain", "Browser console logs")

  function ScreenshotUri(name: string): string {
    ScreenshotScheme + name
  }

  function ScreenshotResource(name: string): Resource {
    Resource(ScreenshotUri(name), "image/png", "Screenshot: " + name)
  }

  /** The resource listing: the console log first, then one PNG resource per
      cached screenshot, in the order of the cache. */
  function ListResources(cache: OrderedMap<Image>): (rs: seq<Resource>)
    requires cache.Valid()
    ensures |rs| == 1 + |cache.keys| && rs[0] == ConsoleResource
    ensures forall i :: 0 <= i < |cache.keys| ==> rs[i + 1] == ScreenshotResource(cache.keys[i])
    ensures forall r :: r in rs[1..] ==> r.mimeType == "image/png" && StartsWith(r.uri, ScreenshotScheme)
  {
    [ConsoleResource] + seq(|cache.keys|, i requires 0 <= i < |cache.keys| => ScreenshotResource(cache.keys[i]))
  }

  function NotFound(uri: string): Result<Content> {
    Err("Resource not found: " + uri)
  }

  /** Reading a resource: the console placeholder text, or the screenshot
      named by the second `://`-separated segment of a `screenshot://` URI
      when it is cached; anything else is not found. */
  function ReadResource(cache: OrderedMap<Image>, uri: string): (r: Result<Content>)
    ensures uri == ConsoleUri ==> r == Ok(TextContent(uri, "text/plain", ConsoleText))
    ensures uri != ConsoleUri && !StartsWith(uri, ScreenshotScheme) ==> r == NotFound(uri)
    ensures r.Err? ==> r == NotFound(uri)
    ensures StartsWith(uri, ScreenshotScheme) && SecondSegment(uri, Separator).Some? &&
            SecondSegment(uri, Separator).value in cache.entries ==>
              r == Ok(ImageContent(uri, "image/png", cache.entries[SecondSegment(uri, Separator).value]))
    ensures r.Ok? && uri != ConsoleUri ==>
              var name := SecondSegment(uri, Separator);
              name.Some? && name.value in cache.entries &&
              r.value == ImageContent(uri, "image/png", cache.entries[name.value])
  {
    if uri == ConsoleUri then
      assert !StartsWith(uri, ScreenshotScheme) by {
        assert uri[0] != ScreenshotScheme[0];
      }
      Ok(TextContent(uri, "text/plain", ConsoleText))
    else if StartsWith(uri, ScreenshotScheme) then
      match SecondSegment(uri, Separator)
      case Some(name) =>
        if name in cache.entries then Ok(ImageContent(uri, "image/png", cache.entries[name])) else NotFound(uri)
      case None => NotFound(uri)
    else NotFound(uri)
  }

  /** The separator first occurs right after the scheme name. */
  lemma SeparatorAfterScheme(name: string)
    ensures IndexOf(ScreenshotUri(name), Separator) == Some(10)
  {
    var s := ScreenshotUri(name);
    assert OccursAt(s, Separator, 10);
    forall j | 0 <= j < 10
      ensures !OccursAt(s, Separator, j)
    {
      assert s[j] == ScreenshotScheme[j] != ':';
    }
  }

  /** A listed screenshot whose name has no `://` in it reads back as the
      cached image. */
  lemma ReadListedScreenshot(cache: OrderedMap<Image>, name: string)
    requires name in cache.entries && !Contains(name, Separator)
    ensures ReadResource(cache, ScreenshotUri(name)) ==
            Ok(ImageContent(ScreenshotUri(name), "image/png", cache.entries[name]))
  {
    var uri := ScreenshotUri(name);
    SeparatorAfterScheme(name);
    assert uri[13..] == name;
    assert SecondSegment(uri, Separator) == Some(name);
  }

  /** A screenshot named `a://b` is listed as `screenshot://a://b`, but
      reading that URI looks up `a` instead, and fails. */
  lemma ListedScreenshotUnreadable(img: Image)
    ensures var cache := Empty<Image>().Set("a://b", img);
            ScreenshotResource("a://b") in ListResources(cache) &&
            ReadResource(cache, ScreenshotUri("a://b")).Err?
  {
    var cache := Empty<Image>().Set("a://b", img);
    assert ListResources(cache)[1] == ScreenshotResource("a://b");
    NestedNameSegment();
    assert "a" !in cache.entries;
  }

  lemma NestedNameSegment()
    ensures SecondSegment(ScreenshotUri("a://b"), Separator) == Some("a")
  {
    var uri := ScreenshotUri("a://b");
    SeparatorAfterScheme("a://b");
    var rest := uri[13..];
    assert rest == "a://b";
    assert OccursAt(rest, Separator, 1);
    assert !OccursAt(rest, Separator, 0) by {
      assert rest[0] == 'a';
    }
    assert IndexOf(rest, Separator) == Some(1);
    assert rest[..1] == "a";
  }

  /** Reading with the name taken as everything after the scheme. */
  function ReadResourceByScheme(cache: OrderedMap<Image>, uri: string): (r: Result<Content>)
    ensures uri == ConsoleUri ==> r == Ok(TextContent(uri, "text/plain", ConsoleText))
    ensures r.Err? ==> r == NotFound(uri)
    ensures r.Ok? && uri != ConsoleUri ==>
              StartsWith(uri, ScreenshotScheme) && uri[|ScreenshotScheme|..] in cache.entries &&
              r.value == ImageContent(uri, "image/png", cache.entries[uri[|ScreenshotScheme|..]])
  {
    if uri == ConsoleUri then Ok(TextContent(uri, "text/plain", ConsoleText))
    else if StartsWith(uri, ScreenshotScheme) && uri[|ScreenshotScheme|..] in cache.entries then
      Ok(ImageContent(uri, "image/png", cache.entries[uri[|ScreenshotScheme|..]]))
    else NotFound(uri)
  }

  /** Every listed screenshot reads back as its cached image, whatever its
      name. */
  lemma ReadListedScreenshotByScheme(cache: OrderedMap<Image>, i: nat)
    requires cache.Valid() && i < |cache.keys|
    ensures var r := ListResources(cache)[i + 1];
            ReadResourceByScheme(cache, r.uri) == Ok(ImageContent(r.uri, r.mimeType, cache.entries[cache.keys[i]]))
  {
    var name := cache.keys[i];
    var uri := ScreenshotUri(name);
    assert uri[|ScreenshotScheme|..] == name;
    assert uri != ConsoleUri by {
      assert uri[0] == 's';
    }
  }

  /** `args || {}`: a call without arguments gets the empty object. */
  function CallArgs(arguments: Option<Args>): (args: Args)
    ensures arguments.None? ==> args == NoArgs
    ensures arguments.Some? ==> args == arguments.value
  {
    arguments.GetOr(NoArgs)
  }

  /** The tool-call handler: passes the call to the router. */
  method CallTool(router: ToolRouter, name: string, arguments: Option<Args>, replies: Replies) returns (r: Result<string>)
    requires router.Valid()
    modifies router, router.registry, router.screenshots, router.driver
    ensures router.Valid()
    ensures name !in RoutedTools ==>
              r == Err("Unknown tool: " + name) &&
              unchanged(router, router.registry, router.screenshots, router.driver)
    ensures NeedsPage(name) && old(router.registry.CurrentPage()).None? ==>
              r == Err(NoActivePage) && unchanged(router, router.registry, router.screenshots, router.driver)
  {
    r := router.HandleToolCall(name, CallArgs(arguments), replies);
  }
}
