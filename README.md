# url-clone-magic: the page cloner, modelled in Dafny

`cloneWebpage(url)` in `src/utils/cloner.ts` turns a URL into one HTML string with
external stylesheets, images and scripts inlined. It first fetches the page through an
ordered list of three CORS relays (allorigins, htmldriven, codetabs). Each relay request
goes through a bounded retry loop. The JSON answer is unwrapped from its `contents`
envelope. The page is then parsed and three rewrite passes run in turn:

- each `link[rel=stylesheet]` becomes a `<style>` holding the fetched CSS;
- each `img` gets a data URL as its `src`;
- each `script[src]` becomes an inline `<script>` holding the fetched source.

Each element's task settles on its own: a failure leaves that element as it was. Only a
failure on the root page makes the clone fail: its relay walk fails, or its contents
cannot be converted to the string handed to the parser.

The project has four modules, one file each:

- `js.dfy` (`Js`): thrown values, JSON values, JavaScript truthiness and `String()`
  conversion, and the decimal rendering used in an error message.
- `fetch.dfy` (`Fetch`): `fetchWithRetry` and `fetchWithProxies`. Each is an imperative
  method with a loop, proved equal to a recursive specification function
  (`Retry`, `Proxies`). Lemmas about those functions state what the source promises.
- `dom.dfy` (`Dom`): the document as a sequence of element records, the three
  selectors, and the settle-independently pattern. A lemma shows that the order in
  which the tasks complete does not change the result.
- `cloner.dfy` (`Cloner`): the three passes as in-place loops over an `array` of
  elements, each proved equal to a per-element specification function. It also holds
  `cloneWebpage` and the outer `catch`.

The outside world is a set of oracles, passed as values (`Fetch.Network`,
`Cloner.Host`):

- `fetch` gives the outcome of attempt *i* at a request URL: an ok response, a non-ok
  response, or an exception;
- `response.json()` may reject;
- `encodeURIComponent` may throw;
- `new URL(ref, base).href` may throw;
- `response.blob()` plus `FileReader` may reject, fail to read, or load a data URL;
- `DOMParser` and `outerHTML` are opaque functions.

`cloner.ts` has no backoff between attempts, no per-attempt timeout, no direct fetch
before the relays, no `<base>` tag, no charset fixing, no `url()` rewriting, no iframe
sandboxing, and no inlining of icons, `video`, `audio`, `source` or `srcset`; the model
has none of them either. A failed image keeps its original `src`, not a resolved
absolute URL. A failed relay walk does not always end in "All proxy services failed":
when `encodeURIComponent` throws, the log line in the `catch` (line 29) builds the relay
URL again and throws again, so that exception escapes.

## Model

| member | source | states |
|---|---|---|
| `Js.ToJsString` | src/utils/cloner.ts:43 | the string conversion done by `parseFromString` (line 43) and by the `textContent` setter (lines 54 and 96) throws exactly when the value is, or is an array holding at any depth, an object with its own `toString` member; a string converts to itself |
| `Js.NatToDecimalRoundTrip` | src/utils/cloner.ts:19 | the attempt count printed in "Failed to fetch after N attempts" reads back as N, so distinct counts give distinct messages |
| `Fetch.FetchWithRetry` | src/utils/cloner.ts:9-20 | the loop returns exactly the result and the number of `fetch` calls of the retry specification `Retry` |
| `Fetch.RetryFromSpec` | src/utils/cloner.ts:10-19 | from attempt i on: a success is the first ok response, with no call after it; a failure means every remaining attempt was made and none was ok; the error is the last attempt's exception, or the generic message if the last attempt returned a non-ok response |
| `Fetch.RetryReturnsFirstOk` | src/utils/cloner.ts:10-13 | at most `attempts` calls; success if and only if some attempt is ok; the response returned is the first ok one and is the last call made; a failed run made all `attempts` calls |
| `Fetch.RetryExhausted` | src/utils/cloner.ts:14-19 | with no ok response, exactly `attempts` calls are made; an exception on the last attempt is propagated unchanged, earlier exceptions are retried; otherwise (and for 0 attempts, with 0 calls) "Failed to fetch after N attempts" |
| `Fetch.UnwrapEnvelope` | src/utils/cloner.ts:27 | unwrapping fails only on `null` and never yields `null`; an object whose `contents` member is truthy (of any type) yields that member; an envelope with string `contents` gives back the string when it is non-empty and the whole payload when it is empty; a payload without a truthy `contents` is returned whole |
| `Fetch.FetchWithProxies` | src/utils/cloner.ts:22-34 | the relay loop returns exactly the result and the number of relays tried of the specification `Proxies` |
| `Fetch.ProxiesFirstAnswer` | src/utils/cloner.ts:22-34 | relays are tried strictly in list order and the first answer wins; the walk fails if and only if every relay fails; the error is then "All proxy services failed", or the exception `encodeURIComponent` threw, raised after the first relay |
| `Fetch.ProxiesContentsNotNull` | src/utils/cloner.ts:27 | a successful relay walk never yields `null`, so `textContent` receives exactly the string conversion of the contents |
| `Dom.RunInOrderAt` | src/utils/cloner.ts:46-47 | running distinct element tasks in any order rewrites exactly the elements named, each from its original value, and leaves the rest alone |
| `Dom.CompletionOrderIrrelevant` | src/utils/cloner.ts:46-47 | whatever order the snapshotted tasks complete in, the document equals the one with every element rewritten in place |
| `Cloner.FetchedTextIsContents` | src/utils/cloner.ts:48-54 | a stylesheet or script task fetches text if and only if the attribute is non-empty, resolves against the page URL, fetches through the relays, and the relay's `contents` converts to a string without throwing; the text is exactly that conversion |
| `Cloner.FetchText` | src/utils/cloner.ts:48-54 | the read, resolve, fetch and `textContent` conversion of a text task return exactly what `FetchedText` specifies |
| `Cloner.StylesheetPassSpec` | src/utils/cloner.ts:46-61 | same length; a stylesheet link whose href resolves and fetches, with contents that convert to a string, is replaced at its position by a `<style>` whose text equals the fetched contents; every other element, and every link with a missing, empty, unresolvable or unfetchable href or unconvertible contents, is unchanged |
| `Cloner.StylesheetPassIdempotent` | src/utils/cloner.ts:46-61 | every stylesheet link left after the pass was there before and its fetch failed or it had no usable href; a second pass changes nothing |
| `Cloner.ScriptPassSpec` | src/utils/cloner.ts:88-103 | same length; an external script whose src resolves and fetches, with contents that convert to a string, is replaced at its position by an attribute-less `<script>` holding the fetched source; everything else is unchanged |
| `Cloner.ScriptPassIdempotent` | src/utils/cloner.ts:88-103 | every external script left after the pass was there before and its fetch failed or its src was empty; a second pass changes nothing |
| `Cloner.ImagePassSpec` | src/utils/cloner.ts:64-85 | same length; tag, text, attribute names and every attribute but `src` unchanged; an image whose fetch and read succeed gets the data URL as `src`; failed or src-less images and all other elements are unchanged |
| `Cloner.ImageInlinedIff` | src/utils/cloner.ts:66-79 | an image changes if and only if its src is non-empty, resolves and encodes, one of three attempts at the raw relay is ok, and the blob is read to a data URL that differs from the old src |
| `Cloner.ReadFailureStallsImagePass` | src/utils/cloner.ts:73-79 | as written, one image whose blob read fails keeps the image pass pending forever; the corrected pass leaves that image unchanged |
| `Cloner.ImagePassAgreesWithoutReadFailure` | src/utils/cloner.ts:64-85 | when no blob read fails, the image pass as written settles with exactly the corrected pass's document |
| `Cloner.InlineStylesheets` | src/utils/cloner.ts:46-61 | the in-place loop leaves the array equal to the stylesheet pass applied to its snapshot |
| `Cloner.InlineImages` | src/utils/cloner.ts:64-85 | the in-place loop leaves the array equal to the image pass applied to its snapshot; this is the corrected image task of the finding below, so an image whose blob read fails is kept, where the source would stay pending |
| `Cloner.InlineScripts` | src/utils/cloner.ts:88-103 | the in-place loop leaves the array equal to the script pass applied to its snapshot |
| `Cloner.AssembleRewritesEachElementOnce` | src/utils/cloner.ts:45-103 | after the three passes, each element has been rewritten only by the pass whose selector it matches; the passes do not interfere |
| `Cloner.Rethrow` | src/utils/cloner.ts:106-108 | the outer catch always throws an Error object: an Error's message is carried over, anything else caught becomes "Failed to clone webpage" |
| `Cloner.CloneWebpage` | src/utils/cloner.ts:36-109 | fetch, conversion, parse, the three passes and serialisation return exactly the specification `Clone`; its image pass is the corrected one of the finding below, so a failed blob read keeps the image, where the source would never return |
| `Cloner.CloneFailsOnlyOnRoot` | src/utils/cloner.ts:36-108 | the clone fails if and only if the root relay walk fails or the root contents cannot be converted to a string, and then returns no HTML; the error is "All proxy services failed", the message of what `encodeURIComponent` threw, or the conversion's TypeError; sub-resource failures never fail it; when encoding works, the root walk succeeds if and only if some relay answers |

## Findings

| source | as written | input that shows it | evidently intended | confidence | as-written member | corrected member |
|---|---|---|---|---|---|---|
| src/utils/cloner.ts:73-79 | the promise around `FileReader` resolves only from `onload`; nothing handles the reader's `error` event | an image whose fetch succeeds but whose blob the reader fails to read (an `error` event instead of `load`) | the failure is treated like any other image failure: the image keeps its `src` and the clone completes | low; not executed | `Cloner.ReadFailureStallsImagePass` (on `Cloner.ImagePassAsWritten`) | `Cloner.ImageStep`, proved in `Cloner.ImagePassSpec` |

A pending image task keeps `Promise.allSettled` pending, so `cloneWebpage` never returns.
`Cloner.Clone` uses the corrected step.

## Left out

- Network I/O, `response.json()`, `response.blob()`, `FileReader`, `DOMParser`, `outerHTML`, `new URL` and `encodeURIComponent` are oracles, not implementations. Their internals (HTTP, JSON syntax, HTML parsing and serialisation, URL resolution per the WHATWG URL Standard, the base64 data URLs of RFC 2397, percent-encoding) are not modelled.
- The `fetch` oracle depends only on the request URL and the attempt index within one retry run. Two requests for the same URL in one clone therefore see the same outcomes, and timing-dependent variation between them is not modelled.
- `Promise.allSettled` concurrency is modelled as a sequential loop over a snapshot of the document. `Dom.CompletionOrderIrrelevant` shows that completion order does not matter.
- The document is a flat sequence of elements in document order, not a tree. Contents of `<template>` elements, and the case of a matched element with no parent (where `replaceChild` would be skipped), are not modelled. The parser never produces such an element at these selectors.
- The TypeError message of a failed string conversion is engine-specific; the model uses V8's wording.
- JSON numbers are integers. Fractions and the exponent formatting of very large numbers in `String()` are not modelled.
- `console.log` / `console.error` logging is not modelled. The one place where logging changes behaviour, the relay URL rebuilt at line 29, is modelled.
- `attempts` is a natural number. Every caller passes the default 3, so negative counts never occur.
- src/components/WebCloner.tsx (React state, toasts, the empty-URL guard and the download trigger) and src/pages/Index.tsx (layout) are UI and are not part of this model.
