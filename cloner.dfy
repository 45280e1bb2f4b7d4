/** `cloneWebpage(url)`: fetch the page through the relays, parse it, then inline
    external stylesheets, images and external scripts, each element settling on its
    own, and serialise the document. Only a failure on the root page escapes. */
module Cloner {
  import opened Js
  import opened Fetch
  import opened Dom

  /** `response.blob()` followed by `FileReader.readAsDataURL`. */
  datatype DataUrlRead =
    | BlobRejected            // `response.blob()` rejects: caught, the image is kept
    | ReadFailed              // the reader fires `error` instead of `load`
    | Loaded(dataUrl: string) // the reader's `result`

  /** The browser facilities the cloner calls, as oracles. */
  datatype Host = Host(
    net: Network,
    resolve: (string, string) -> Option<string>,  // `new URL(ref, base).href`; None when it throws
    readDataUrl: string -> DataUrlRead,
    parse: string -> seq<Element>,                // `DOMParser.parseFromString(html, 'text/html')`
    serialize: seq<Element> -> string)            // `doc.documentElement.outerHTML`

  /** The relay every image goes through, without the JSON envelope. */
  function RawImageUrl(encoded: string): string
  {
    "https://api.allorigins.win/raw?url=" + encoded
  }

  /** The element `doc.createElement(tag)` with its `textContent` set. */
  function NewElement(tag: string, text: string): Element
  {
    Element(tag, map[], text)
  }

  // ---------------------------------------------------------------------------
  // Stylesheets and scripts: fetched as text through the relays

  /** The text an element's task fetches: resolve the attribute against the page URL,
      then `fetchWithProxies`, then store the contents as `textContent`. None when the
      attribute is missing or empty, or when resolution, the fetch or the string
      conversion of the contents throws. */
  function FetchedText(h: Host, base: string, e: Element, attr: string): Option<string>
  {
    if !HasValue(e, attr) then None
    else match h.resolve(e.attrs[attr], base)
      case None => None
      case Some(u) =>
        match Proxies(h.net, u).result
        case Ok(c) => TextContent(c)
        case Err(_) => None
  }

  function StylesheetStep(h: Host, base: string, e: Element): Element
  {
    if !IsStylesheetLink(e) then e
    else match FetchedText(h, base, e, "href")
      case Some(css) => NewElement("style", css)
      case None => e
  }

  function ScriptStep(h: Host, base: string, e: Element): Element
  {
    if !IsExternalScript(e) then e
    else match FetchedText(h, base, e, "src")
      case Some(js) => NewElement("script", js)
      case None => e
  }

  function StylesheetPass(h: Host, base: string, d: seq<Element>): seq<Element>
  {
    EachElement(d, e => StylesheetStep(h, base, e))
  }

  function ScriptPass(h: Host, base: string, d: seq<Element>): seq<Element>
  {
    EachElement(d, e => ScriptStep(h, base, e))
  }

  /** Fetched text is the string conversion of the relay's `contents`, exactly; a
      conversion that throws counts as a failed task. */
  lemma FetchedTextIsContents(h: Host, base: string, e: Element, attr: string)
    ensures FetchedText(h, base, e, attr).Some? <==>
      HasValue(e, attr) && h.resolve(e.attrs[attr], base).Some? &&
      Proxies(h.net, h.resolve(e.attrs[attr], base).value).result.Ok? &&
      !ConversionThrows(Proxies(h.net, h.resolve(e.attrs[attr], base).value).result.value)
    ensures FetchedText(h, base, e, attr).Some? ==>
      FetchedText(h, base, e, attr) ==
        ToJsString(Proxies(h.net, h.resolve(e.attrs[attr], base).value).result.value)
  {
  }

  /** Each `link[rel=stylesheet]` whose href resolves and fetches, with contents that
      convert to a string, is replaced, at the same position, by a `<style>` holding
      the fetched contents; every other element, including a link whose href is
      missing, empty, unresolvable or unfetchable, is left as it was. */
  lemma StylesheetPassSpec(h: Host, base: string, d: seq<Element>)
    ensures var out := StylesheetPass(h, base, d);
      && |out| == |d|
      && forall i :: 0 <= i < |d| ==>
           if IsStylesheetLink(d[i]) && HasValue(d[i], "href")
              && h.resolve(d[i].attrs["href"], base).Some?
              && Proxies(h.net, h.resolve(d[i].attrs["href"], base).value).result.Ok?
              && !ConversionThrows(Proxies(h.net, h.resolve(d[i].attrs["href"], base).value).result.value)
           then out[i] == NewElement("style",
                  ToJsString(Proxies(h.net, h.resolve(d[i].attrs["href"], base).value).result.value).value)
           else out[i] == d[i]
  {
  }

  /** No stylesheet link whose fetch succeeded survives the pass; every one left was
      there before and its fetch failed or it had no usable href. Running the pass
      again therefore changes nothing. */
  lemma StylesheetPassIdempotent(h: Host, base: string, d: seq<Element>)
    ensures var out := StylesheetPass(h, base, d);
      && (forall i :: 0 <= i < |out| && IsStylesheetLink(out[i]) ==>
            out[i] == d[i] && FetchedText(h, base, d[i], "href").None?)
      && StylesheetPass(h, base, out) == out
  {
  }

  /** Each `script[src]` with a non-empty src that resolves and fetches, with contents
      that convert to a string, is replaced, at the same position, by an attribute-less
      `<script>` holding the fetched source; every other element is left as it was. */
  lemma ScriptPassSpec(h: Host, base: string, d: seq<Element>)
    ensures var out := ScriptPass(h, base, d);
      && |out| == |d|
      && forall i :: 0 <= i < |d| ==>
           if IsExternalScript(d[i]) && HasValue(d[i], "src")
              && h.resolve(d[i].attrs["src"], base).Some?
              && Proxies(h.net, h.resolve(d[i].attrs["src"], base).value).result.Ok?
              && !ConversionThrows(Proxies(h.net, h.resolve(d[i].attrs["src"], base).value).result.value)
           then out[i] == NewElement("script",
                  ToJsString(Proxies(h.net, h.resolve(d[i].attrs["src"], base).value).result.value).value)
           else out[i] == d[i]
  {
  }

  /** An inlined script has no `src`, so a second pass leaves the document as it is. */
  lemma ScriptPassIdempotent(h: Host, base: string, d: seq<Element>)
    ensures var out := ScriptPass(h, base, d);
      && (forall i :: 0 <= i < |out| && IsExternalScript(out[i]) ==>
            out[i] == d[i] && FetchedText(h, base, d[i], "src").None?)
      && ScriptPass(h, base, out) == out
  {
  }

  // ---------------------------------------------------------------------------
  // Images: fetched as a blob through the raw relay and turned into a data URL

  /** What an image's task reads, before the reader reports: None when the src is
      missing or empty, resolution or encoding throws, or the retry run fails. */
  function ImageBody(h: Host, base: string, e: Element): Option<string>
  {
    if !HasValue(e, "src") then None
    else match h.resolve(e.attrs["src"], base)
      case None => None
      case Some(u) =>
        match h.net.encode(u)
        case Err(_) => None
        case Ok(encoded) =>
          var run := Retry(h.net, RawImageUrl(encoded), DefaultAttempts);
          if run.result.Err? then None else Some(run.result.value.body)
  }

  /** The data URL an image's task stores, when it gets that far. A failed read is
      treated like every other failure: the image keeps its src. */
  function ImageDataUrl(h: Host, base: string, e: Element): Option<string>
  {
    match ImageBody(h, base, e)
    case None => None
    case Some(body) =>
      match h.readDataUrl(body)
      case Loaded(url) => Some(url)
      case _ => None
  }

  function ImageStep(h: Host, base: string, e: Element): Element
  {
    if !IsImage(e) then e
    else match ImageDataUrl(h, base, e)
      case Some(url) => e.(attrs := e.attrs["src" := url])
      case None => e
  }

  function ImagePass(h: Host, base: string, d: seq<Element>): seq<Element>
  {
    EachElement(d, e => ImageStep(h, base, e))
  }

  /** Only the `src` of images whose fetch and read succeeded changes, and it becomes
      the data URL read; tag, text and every other attribute stay; failed and src-less
      images, and all other elements, are unchanged. */
  lemma ImagePassSpec(h: Host, base: string, d: seq<Element>)
    ensures var out := ImagePass(h, base, d);
      && |out| == |d|
      && forall i :: 0 <= i < |d| ==>
           && out[i].tag == d[i].tag
           && out[i].text == d[i].text
           && out[i].attrs.Keys == d[i].attrs.Keys
           && (forall a :: a in d[i].attrs && a != "src" ==> out[i].attrs[a] == d[i].attrs[a])
           && (if IsImage(d[i]) && ImageDataUrl(h, base, d[i]).Some?
               then out[i].attrs["src"] == ImageDataUrl(h, base, d[i]).value
               else out[i] == d[i])
  {
  }

  /** An image is inlined exactly when its src resolves, encodes, is fetched with an
      ok response within three attempts, and its blob is read. */
  lemma ImageInlinedIff(h: Host, base: string, e: Element)
    requires IsImage(e)
    ensures ImageStep(h, base, e) != e <==>
      && HasValue(e, "src")
      && h.resolve(e.attrs["src"], base).Some?
      && h.net.encode(h.resolve(e.attrs["src"], base).value).Ok?
      && (exists j :: 0 <= j < DefaultAttempts &&
            OkAt(h.net, RawImageUrl(h.net.encode(h.resolve(e.attrs["src"], base).value).value), j))
      && ImageBody(h, base, e).Some?
      && h.readDataUrl(ImageBody(h, base, e).value).Loaded?
      && h.readDataUrl(ImageBody(h, base, e).value).dataUrl != e.attrs["src"]
  {
    if HasValue(e, "src") && h.resolve(e.attrs["src"], base).Some? {
      var u := h.resolve(e.attrs["src"], base).value;
      if h.net.encode(u).Ok? {
        RetryReturnsFirstOk(h.net, RawImageUrl(h.net.encode(u).value), DefaultAttempts);
      }
    }
    if ImageStep(h, base, e) != e {
      assert ImageStep(h, base, e).attrs["src"] != e.attrs["src"];
    }
  }

  // ---------------------------------------------------------------------------
  // The image task as written: its promise resolves only from the reader's `load`

  /** A promise that settles with a value or stays pending forever. */
  datatype Settlement<+T> = Settled(value: T) | Pending

  /** The image task as written: on a failed read no `load` event comes, the promise
      awaited around the reader never resolves, and the task never settles. */
  function ImageTaskAsWritten(h: Host, base: string, e: Element): Settlement<Element>
  {
    if !IsImage(e) || ImageBody(h, base, e).None? then Settled(e)
    else match h.readDataUrl(ImageBody(h, base, e).value)
      case Loaded(url) => Settled(e.(attrs := e.attrs["src" := url]))
      case BlobRejected => Settled(e)
      case ReadFailed => Pending
  }

  /** `Promise.allSettled`: settles once every task has; pending while any is. */
  function AllSettled(tasks: seq<Settlement<Element>>): Settlement<seq<Element>>
  {
    if forall i :: 0 <= i < |tasks| ==> tasks[i].Settled?
    then Settled(seq(|tasks|, i requires 0 <= i < |tasks| => tasks[i].value))
    else Pending
  }

  function ImagePassAsWritten(h: Host, base: string, d: seq<Element>): Settlement<seq<Element>>
  {
    AllSettled(seq(|d|, i requires 0 <= i < |d| => ImageTaskAsWritten(h, base, d[i])))
  }

  /** As written, one image whose blob cannot be read keeps the image pass, and so the
      whole clone, pending forever; the corrected pass leaves that image as it was. */
  lemma ReadFailureStallsImagePass(h: Host, base: string, d: seq<Element>, i: nat)
    requires i < |d| && IsImage(d[i])
    requires ImageBody(h, base, d[i]).Some? && h.readDataUrl(ImageBody(h, base, d[i]).value) == ReadFailed
    ensures ImagePassAsWritten(h, base, d) == Pending
    ensures ImagePass(h, base, d)[i] == d[i]
  {
    var tasks := seq(|d|, k requires 0 <= k < |d| => ImageTaskAsWritten(h, base, d[k]));
    assert tasks[i] == Pending;
  }

  /** Whenever no read fails, the task as written and the corrected step agree. */
  lemma ImagePassAgreesWithoutReadFailure(h: Host, base: string, d: seq<Element>)
    requires forall i :: 0 <= i < |d| && IsImage(d[i]) && ImageBody(h, base, d[i]).Some? ==>
      h.readDataUrl(ImageBody(h, base, d[i]).value) != ReadFailed
    ensures ImagePassAsWritten(h, base, d) == Settled(ImagePass(h, base, d))
  {
    var tasks := seq(|d|, k requires 0 <= k < |d| => ImageTaskAsWritten(h, base, d[k]));
    forall i | 0 <= i < |d|
      ensures tasks[i] == Settled(ImageStep(h, base, d[i]))
    {
    }
    assert AllSettled(tasks).value == ImagePass(h, base, d);
  }

  // ---------------------------------------------------------------------------
  // The passes, in place on the parsed document

  /** The fetch part of a stylesheet or script task: read the attribute, resolve it
      against the page URL, fetch it through the relays. */
  method FetchText(h: Host, base: string, e: Element, attr: string) returns (t: Option<string>)
    ensures t == FetchedText(h, base, e, attr)
  {
    if !HasValue(e, attr) {
      return None;
    }
    var u := h.resolve(e.attrs[attr], base);
    if u.None? {
      return None;
    }
    var fetched, _ := FetchWithProxies(h.net, u.value);
    if fetched.Err? {
      return None;
    }
    return TextContent(fetched.value);
  }

  /** One stylesheet task: a selected link whose text is fetched becomes a `<style>`;
      anything else comes back as it was. */
  method StylesheetTask(h: Host, base: string, e: Element) returns (r: Element)
    ensures r == StylesheetStep(h, base, e)
  {
    r := e;
    if IsStylesheetLink(e) {
      var css := FetchText(h, base, e, "href");
      if css.Some? {
        r := NewElement("style", css.value);
      }
    }
  }

  /** One script task: an external script whose source is fetched becomes an inline
      `<script>`; anything else comes back as it was. */
  method ScriptTask(h: Host, base: string, e: Element) returns (r: Element)
    ensures r == ScriptStep(h, base, e)
  {
    r := e;
    if IsExternalScript(e) {
      var js := FetchText(h, base, e, "src");
      if js.Some? {
        r := NewElement("script", js.value);
      }
    }
  }

  /** The stylesheet pass: every selected link's task runs once and replaces its node. */
  method InlineStylesheets(h: Host, base: string, doc: array<Element>)
    modifies doc
    ensures doc[..] == StylesheetPass(h, base, old(doc[..]))
  {
    ghost var before := doc[..];
    var i := 0;
    while i < doc.Length
      invariant 0 <= i <= doc.Length
      invariant forall k :: 0 <= k < i ==> doc[k] == StylesheetStep(h, base, before[k])
      invariant forall k :: i <= k < doc.Length ==> doc[k] == before[k]
    {
      var e := StylesheetTask(h, base, doc[i]);
      doc[i] := e;
      i := i + 1;
    }
    EachElementPointwise(before, doc[..], e => StylesheetStep(h, base, e));
  }

  /** The image pass: each image's task runs once and may set its src. */
  method InlineImages(h: Host, base: string, doc: array<Element>)
    modifies doc
    ensures doc[..] == ImagePass(h, base, old(doc[..]))
  {
    ghost var before := doc[..];
    var i := 0;
    while i < doc.Length
      invariant 0 <= i <= doc.Length
      invariant forall k :: 0 <= k < i ==> doc[k] == ImageStep(h, base, before[k])
      invariant forall k :: i <= k < doc.Length ==> doc[k] == before[k]
    {
      var e := doc[i];
      if IsImage(e) && HasValue(e, "src") {
        var u := h.resolve(e.attrs["src"], base);
        if u.Some? {
          var encoded := h.net.encode(u.value);
          if encoded.Ok? {
            var response, _ := FetchWithRetry(h.net, RawImageUrl(encoded.value), DefaultAttempts);
            if response.Ok? {
              var read := h.readDataUrl(response.value.body);
              if read.Loaded? {
                doc[i] := e.(attrs := e.attrs["src" := read.dataUrl]);
              }
            }
          }
        }
      }
      i := i + 1;
    }
    EachElementPointwise(before, doc[..], e => ImageStep(h, base, e));
  }

  /** The script pass: every external script's task runs once and replaces its node. */
  method InlineScripts(h: Host, base: string, doc: array<Element>)
    modifies doc
    ensures doc[..] == ScriptPass(h, base, old(doc[..]))
  {
    ghost var before := doc[..];
    var i := 0;
    while i < doc.Length
      invariant 0 <= i <= doc.Length
      invariant forall k :: 0 <= k < i ==> doc[k] == ScriptStep(h, base, before[k])
      invariant forall k :: i <= k < doc.Length ==> doc[k] == before[k]
    {
      var e := ScriptTask(h, base, doc[i]);
      doc[i] := e;
      i := i + 1;
    }
    EachElementPointwise(before, doc[..], e => ScriptStep(h, base, e));
  }

  // ---------------------------------------------------------------------------
  // cloneWebpage

  /** The outer catch: a new Error carrying the caught error's message, or a fixed
      message when what was caught is not an Error. */
  function Rethrow(e: Exception): (r: Exception)
    ensures r.ErrorObject?
    ensures e.ErrorObject? ==> r.message == e.message
    ensures e.NonErrorValue? ==> r == ErrorObject("Failed to clone webpage")
  {
    match e
    case ErrorObject(m) => ErrorObject(m)
    case NonErrorValue => ErrorObject("Failed to clone webpage")
  }

  /** The three passes in order, all resolving against the page URL. */
  function Assemble(h: Host, url: string, d: seq<Element>): seq<Element>
  {
    ScriptPass(h, url, ImagePass(h, url, StylesheetPass(h, url, d)))
  }

  /** The passes do not interfere: the document keeps its length and each element is
      rewritten only by the pass whose selector it matches (the three selectors are
      disjoint, and no pass turns an element into one another pass selects). */
  lemma AssembleRewritesEachElementOnce(h: Host, url: string, d: seq<Element>)
    ensures var out := Assemble(h, url, d);
      && |out| == |d|
      && forall i :: 0 <= i < |d| ==>
           out[i] == if IsStylesheetLink(d[i]) then StylesheetStep(h, url, d[i])
                     else if IsImage(d[i]) then ImageStep(h, url, d[i])
                     else if IsExternalScript(d[i]) then ScriptStep(h, url, d[i])
                     else d[i]
  {
  }

  function Clone(h: Host, url: string): Result<string, Exception>
  {
    match Proxies(h.net, url).result
    case Err(e) => Err(Rethrow(e))
    case Ok(contents) =>
      match ToJsString(contents)
      case None => Err(Rethrow(ConversionError))
      case Some(html) => Ok(h.serialize(Assemble(h, url, h.parse(html))))
  }

  method CloneWebpage(h: Host, url: string) returns (r: Result<string, Exception>)
    ensures r == Clone(h, url)
  {
    var root, _ := FetchWithProxies(h.net, url);
    if root.Err? {
      return Err(Rethrow(root.error));
    }
    var html := ToJsString(root.value);
    if html.None? {
      return Err(Rethrow(ConversionError));
    }
    var parsed := h.parse(html.value);
    var doc := new Element[|parsed|](i requires 0 <= i < |parsed| => parsed[i]);
    assert doc[..] == parsed;
    InlineStylesheets(h, url, doc);
    InlineImages(h, url, doc);
    InlineScripts(h, url, doc);
    return Ok(h.serialize(doc[..]));
  }

  /** Only the root page can fail the clone, and then no HTML is returned: its relay
      walk fails ("All proxy services failed", or the message of what
      `encodeURIComponent` threw on the page URL), or its contents cannot be converted
      to the string handed to the parser. Sub-resource failures never surface. */
  lemma CloneFailsOnlyOnRoot(h: Host, url: string)
    ensures Clone(h, url).Err? <==>
      Proxies(h.net, url).result.Err? || ConversionThrows(Proxies(h.net, url).result.value)
    ensures Clone(h, url).Err? ==>
      Clone(h, url).error ==
        if Proxies(h.net, url).result.Ok? then ConversionError
        else if h.net.encode(url).Err? then Rethrow(h.net.encode(url).error)
        else AllProxiesFailed
    ensures h.net.encode(url).Ok? ==>
      (Proxies(h.net, url).result.Ok? <==>
         exists k :: 0 <= k < |Relays| && RelayAnswer(h.net, h.net.encode(url).value, k).Some?)
  {
  }
}
