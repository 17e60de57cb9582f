# sunxdcc in Dafny

A model of `sunxdcc`, a Rust client for the SunXDCC search engine's HTTP API. The model
covers the whole library, `src/lib.rs`, which has two parts:

- **The response decoder** (`decoder.dfy`, module `Decoder`). The service answers with one
  page laid out as eight parallel lists of strings: `network`, `channel`, `bot`, `fsize`,
  `fname`, `packnum`, `gets` and `botrec`. `RawResult.IsConsistent` checks that the lists
  have one length. `Decode` is the meaning of a page: its rows in the service's order, each
  string copied verbatim, with the `botrec` sentinel `"Na"` read as "no upload speed". A page
  whose lists disagree gives `Malformed("mismatch in adjacent list sizes")`. `Consume` is
  `RawResult::consume`. It is a loop that appends the rows to a caller's buffer last row
  first, and its contract ties the new buffer to `old ++ Reverse(Decode(raw))`. `Encode`
  writes results back in the wire layout. It is the inverse against which decoding is proved
  lossless.
- **The paginated iterator** (`pagination.dfy`, module `Pagination`). The class
  `SearchResults` has the source's fields: an immutable `query`, `currentPage` and
  `currentResults`. Its methods are `Refresh` and `Next`, and the `search` entry point is
  `Search`. The HTTP GET is a `Transport` oracle, `(sterm, page) -> Reply`, passed to every
  call. A caller may pass a different oracle each time, so transient failures can be
  expressed. The class keeps four ghost fields:
  - `pending`: the buffer in service order.
  - `attempts`: every request made, with its page and whether it succeeded.
  - `fetched`: all decoded results, page after page.
  - `yielded`: the results handed out so far.

  The invariant `Valid()` ties these fields together. It says that the buffer is the
  reversal of `pending`, that page 0 implies an empty buffer, that each request asks for
  the page after the successful requests before it, and that `currentPage` counts the
  successful requests. `Ordered()` says that `fetched == yielded + pending`. In other words,
  every fetched result reaches the caller exactly once, in page order and, within a page,
  in the service's order.

`sequences.dfy` holds the reversal used by the fill-in-reverse, pop-from-the-end buffer, and
`wrappers.dfy` holds `Option`.

Decoding is a function, so decoding the same page twice gives the same results.

After a successful fetch of an empty page, `current_page` has already been incremented
(`src/lib.rs:183`). So the pull after the one that returned `None` asks for the following
page, not the empty page again.

## Model

| member | source | states |
|---|---|---|
| `Decoder.RawResult.IsConsistent` | src/lib.rs:44-52 | a page is consistent exactly when all eight lists have the length of `network`, although the source compares each list with `channel` |
| `Decoder.ConsistentIffEqualLengths` | src/lib.rs:44-52 | `is_consistent` holds exactly when all eight lists have the same length, in both directions |
| `Decoder.UploadSpeed` | src/lib.rs:71-74 | the upload speed is `None` if and only if `botrec` is `"Na"`; otherwise it is `botrec` verbatim |
| `Decoder.Decode` | src/lib.rs:55-88 | a page decodes if and only if it is consistent; otherwise the error is `Malformed` with the mismatch message. A decoded page has one result per row, and result `i` takes field by field the `i`-th element of `network`, `channel`, `bot`, `fsize`, `fname`, `packnum` and `gets`, plus the upload speed of `botrec[i]` |
| `Decoder.Encode` | src/lib.rs:28-37 | the wire layout of any results is a consistent page with one row per result |
| `Decoder.DecodeThenEncode` | src/lib.rs:61-85 | decoding loses nothing: writing the decoded results back gives the original page |
| `Decoder.EncodeThenDecode` | src/lib.rs:71-85 | every sequence of results whose speeds are not the sentinel is the decoding of its own wire layout, in the same order |
| `Decoder.SentinelSpeedIsLost` | src/lib.rs:71-74 | a result whose speed reads `"Na"` comes back from the service as one with no speed |
| `Decoder.Consume` | src/lib.rs:55-89 | an inconsistent page returns `Err(Malformed("mismatch in adjacent list sizes"))` and leaves the buffer unchanged. A consistent page returns `Ok(())` and makes the buffer the old buffer followed by the decoded rows reversed, so the existing elements are untouched |
| `Decoder.SamplePageDecodes` | src/lib.rs:61-88 | a two-row page with botrec `["Na", "100.0kB/s"]` decodes to two results in order, the first without a speed and the second with `"100.0kB/s"` |
| `Decoder.LengthMismatch` | src/lib.rs:56-58 | a page with two networks and three channels is malformed |
| `Sequences.Reverse` | src/lib.rs:60-70 | reversal keeps the length |
| `Sequences.ReverseAt` | src/lib.rs:60-70 | element `k` of the reversed rows is row `n - 1 - k` |
| `Sequences.ReversePop` | src/lib.rs:200-202 | popping the last element of a reversed queue yields the queue's first element and leaves the reversal of the rest |
| `Pagination.PageOf` | src/lib.rs:177-181 | one fetch succeeds exactly when the transport delivers a consistent page, and then yields one result per row. A failed request or JSON parse becomes `Err(Request(cause))`, and a delivered but inconsistent page becomes `Malformed` with the mismatch message |
| `Pagination.PageAt` | src/lib.rs:163-185 | in an ordered request log, request `k` asks for the page that follows the successful requests before it |
| `Pagination.RecordAttempt` | src/lib.rs:177-183 | requesting `current_page` keeps the log ordered, and the count of successes grows by one exactly when the request succeeds |
| `Pagination.AttemptAfter` | src/lib.rs:163-185 | the first request asks for page 0. A failed request is followed by a request for the same page, and a successful one by a request for the next page |
| `Pagination.PagesInOrder` | src/lib.rs:163-185 | the pages fetched successfully are exactly 0, 1, 2, ..., each once and in order, with no page skipped |
| `Pagination.SearchResults.constructor` | src/lib.rs:147-156 | a new iterator has the given query, page 0, an empty buffer and an empty history, and it satisfies both invariants |
| `Pagination.SearchResults.Refresh` | src/lib.rs:163-186 | empties the buffer and asks the transport for exactly page `current_page` of the fixed query, logging the request. On a request or decode error it returns that error with the buffer empty and the page unchanged. On success it buffers the decoded page in service order and advances the page by exactly one. Both cases preserve `Valid()` |
| `Pagination.SearchResults.Next` | src/lib.rs:192-203 | fetches only when the page is 0 or the buffer is empty; otherwise it returns the first pending result without any request. A refresh error is returned as `Some(Err(e))`. A successful fetch of an empty page gives `None`, and of a non-empty page its first result. Preserves `Valid()` and `Ordered()` |
| `Pagination.SearchResults.Pop` | src/lib.rs:202 | `pop` plus `transpose` on the buffer: `None` when empty, otherwise the first pending result, with no request made |
| `Pagination.Search` | src/lib.rs:217-219 | `search` returns a fresh iterator for the query, on page 0 with an empty buffer |
| `Pagination.SamplePageThenEmptyPage` | src/lib.rs:192-203 | with the two-row page at page 0 and an empty page at page 1, three pulls give the two results in order, then `None` |

## Left out

- The HTTP transport (`reqwest::blocking::Client` and `send`) is an oracle parameter of `Refresh` and `Next`. Its failures carry an opaque string in place of `reqwest::Error`.
- JSON deserialisation with serde is outside the model. A `Reply` is a page that is already parsed, and a JSON failure is a `Failed` reply, which the source also reports as `Error::Request`.
- URL building with `Url::parse_with_params` against the fixed endpoint is outside the model. The request is only the pair (query, page), standing for the parameters `sterm` and `page`.
- The `Display` messages of `Error`, the `Debug` derives and `Vec::with_capacity(50)` are left out: they have no behaviour the model can observe.
- `Pagination.SearchResults.Refresh`: `current_page` is an unbounded `nat`. The `usize` overflow of `current_page += 1` after 2^64 successful pages is not modelled.
- `Pagination.SearchResults.Refresh`: `Ordered()` is not part of its contract, because the source lets a caller refresh a non-empty buffer and so drop its results. `Next` only refreshes an empty buffer, and it proves `Ordered()` itself.
- The `'search` lifetime of the borrowed query is modelled as a `const` field.
- `examples/search.rs` is not part of this model. It only reads a command-line argument and prints results.
