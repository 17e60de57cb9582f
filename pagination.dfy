/** The paginated iterator: a pull-based stream of search results for one query, fetching
    page 0, 1, 2, ... of the service on demand. */
module Pagination {

  import opened Wrappers
  import opened Sequences
  import opened Decoder

  /** What the transport hands back for one GET: a page already parsed from JSON, or the
      failure of the request or of the JSON parsing (both are `Error::Request`). */
  datatype Reply = Delivered(raw: RawResult) | Failed(cause: string)

  /** The HTTP GET with query parameters `sterm` and `page`, as an oracle. A caller may pass
      a different oracle on every call, so a transient failure is expressible. */
  type Transport = (string, nat) -> Reply

  /** What one fetch amounts to: the decoded page, or the error that `refresh` returns. */
  function PageOf(reply: Reply): (r: Result<seq<SearchResult>>)
    ensures r.Ok? <==> reply.Delivered? && reply.raw.IsConsistent()
    ensures reply.Failed? ==> r == Err(Request(reply.cause))
    ensures reply.Delivered? && r.Err? ==> r.error == Malformed(MismatchMessage)
    ensures r.Ok? ==> |r.value| == |reply.raw.network|
  {
    match reply
    case Failed(cause) => Err(Request(cause))
    case Delivered(raw) => Decode(raw)
  }

  /** One request to the service: the page asked for and whether it yielded a decoded page. */
  datatype Attempt = Attempt(page: nat, succeeded: bool)

  /** The number of successful requests in `log`. */
  function Successes(log: seq<Attempt>): nat
  {
    if log == [] then 0
    else Successes(log[..|log| - 1]) + (if log[|log| - 1].succeeded then 1 else 0)
  }

  /** The pages fetched successfully, in the order of the requests. */
  function FetchedPages(log: seq<Attempt>): seq<nat>
  {
    if log == [] then []
    else
      var last := log[|log| - 1];
      FetchedPages(log[..|log| - 1]) + (if last.succeeded then [last.page] else [])
  }

  /** Every request asks for the page that follows the successful ones before it. */
  ghost predicate InPageOrder(log: seq<Attempt>)
  {
    log == []
    || (InPageOrder(log[..|log| - 1]) && log[|log| - 1].page == Successes(log[..|log| - 1]))
  }

  /** Request `k` of an ordered log asks for the page after the successful requests
      before it. */
  lemma {:induction false} PageAt(log: seq<Attempt>, k: nat)
    requires InPageOrder(log) && k < |log|
    ensures log[k].page == Successes(log[..k])
  {
    if k < |log| - 1 {
      var prefix := log[..|log| - 1];
      PageAt(prefix, k);
      assert prefix[..k] == log[..k];
    }
  }

  /** Appending a request for the next page keeps the log in page order. */
  lemma RecordAttempt(log: seq<Attempt>, a: Attempt)
    requires InPageOrder(log) && a.page == Successes(log)
    ensures InPageOrder(log + [a])
    ensures Successes(log + [a]) == Successes(log) + (if a.succeeded then 1 else 0)
  {
  }

  /** The first request asks for page 0; after a failed request the same page is asked
      for again, after a successful one the next page. A corollary of `InPageOrder` for
      readers of the request log; the proofs of `Refresh` and `Next` do not need it. */
  lemma AttemptAfter(log: seq<Attempt>, k: nat)
    requires InPageOrder(log) && k < |log|
    ensures log[k].page == if k == 0 then 0
                           else log[k - 1].page + (if log[k - 1].succeeded then 1 else 0)
  {
  }

  /** Pages 0, 1, 2, ... are each fetched successfully exactly once, in that order, and
      no page is skipped. */
  lemma {:induction false} PagesInOrder(log: seq<Attempt>)
    requires InPageOrder(log)
    ensures |FetchedPages(log)| == Successes(log)
    ensures forall p | 0 <= p < |FetchedPages(log)| :: FetchedPages(log)[p] == p
  {
    if log != [] {
      PagesInOrder(log[..|log| - 1]);
    }
  }

  /** `SearchResults`: the state of one search. */
  class SearchResults {
    /** The search term; it never changes. */
    const query: string
    /** The next page to request. */
    var currentPage: nat
    /** The buffered results of the last page, last one first. */
    var currentResults: seq<SearchResult>

    /** The buffered results in the order the service sent them. */
    ghost var pending: seq<SearchResult>
    /** Every request made to the transport, in order. */
    ghost var attempts: seq<Attempt>
    /** The results of every successfully decoded page, page after page. */
    ghost var fetched: seq<SearchResult>
    /** The results handed to the caller so far. */
    ghost var yielded: seq<SearchResult>

    ghost predicate Valid()
      reads this
    {
      && currentResults == Reverse(pending)
      && (currentPage == 0 ==> currentResults == [])
      && InPageOrder(attempts)
      && currentPage == Successes(attempts)
    }

    /** The caller receives every fetched result exactly once, in page order and, within a
        page, in the service's order. */
    ghost predicate Ordered()
      reads this
    {
      fetched == yielded + pending
    }

    /** `SearchResults::new`. */
    constructor (query: string)
      ensures this.query == query && currentPage == 0 && currentResults == []
      ensures pending == [] && attempts == [] && fetched == [] && yielded == []
      ensures Valid() && Ordered()
    {
      this.query := query;
      currentPage := 0;
      currentResults := [];
      pending, attempts, fetched, yielded := [], [], [], [];
    }

    /** `SearchResults::refresh`: empties the buffer, asks the transport for page
        `currentPage`, decodes the reply into the buffer and moves to the next page when
        all of that succeeded. */
    method Refresh(transport: Transport) returns (outcome: Result<()>)
      requires Valid()
      modifies this
      ensures Valid()
      ensures attempts == old(attempts) + [Attempt(old(currentPage), outcome.Ok?)]
      ensures yielded == old(yielded)
      ensures match PageOf(transport(query, old(currentPage)))
              case Err(e) =>
                && outcome == Err(e)
                && currentResults == [] && pending == []
                && currentPage == old(currentPage) && fetched == old(fetched)
              case Ok(records) =>
                && outcome == Ok(())
                && pending == records
                && currentPage == old(currentPage) + 1 && fetched == old(fetched) + records
    {
      currentResults, pending := [], [];
      var page := currentPage;
      match transport(query, page) {
        case Failed(cause) =>
          outcome := Err(Request(cause));
        case Delivered(raw) =>
          var filled;
          outcome, filled := Consume(raw, currentResults);
          currentResults := filled;
          if outcome.Ok? {
            pending := Decode(raw).value;
            assert currentResults == Reverse(pending);
            fetched := fetched + pending;
          }
      }
      RecordAttempt(attempts, Attempt(page, outcome.Ok?));
      attempts := attempts + [Attempt(page, outcome.Ok?)];
      if outcome.Ok? {
        currentPage := currentPage + 1;
      }
    }

    /** `Iterator::next`: refreshes when nothing was fetched yet or the buffer is empty,
        then hands out the next buffered result. */
    method Next(transport: Transport) returns (item: Option<Result<SearchResult>>)
      requires Valid() && Ordered()
      modifies this
      ensures Valid() && Ordered()
      ensures yielded == old(yielded) + (if item.Some? && item.value.Ok? then [item.value.value] else [])
      ensures old(currentPage) != 0 && old(currentResults) != [] ==>
                && attempts == old(attempts) && fetched == old(fetched)
                && currentPage == old(currentPage)
                && item == Some(Ok(old(pending)[0])) && pending == old(pending)[1..]
      ensures old(currentPage) == 0 || old(currentResults) == [] ==>
                var page := PageOf(transport(query, old(currentPage)));
                && attempts == old(attempts) + [Attempt(old(currentPage), page.Ok?)]
                && match page
                   case Err(e) =>
                     item == Some(Err(e)) && pending == [] && currentPage == old(currentPage)
                   case Ok(records) =>
                     && currentPage == old(currentPage) + 1
                     && (records == [] ==> item == None && pending == [])
                     && (records != [] ==> item == Some(Ok(records[0])) && pending == records[1..])
    {
      if currentPage == 0 || currentResults == [] {
        var outcome := Refresh(transport);
        if outcome.Err? {
          return Some(Err(outcome.error));
        }
      }
      item := Pop();
    }

    /** `Vec::pop` on the buffer, wrapped as an item of the iterator: the first pending
        result, or `None` when the buffer is empty. */
    method Pop() returns (item: Option<Result<SearchResult>>)
      requires Valid() && Ordered()
      modifies this
      ensures Valid() && Ordered()
      ensures attempts == old(attempts) && fetched == old(fetched)
      ensures currentPage == old(currentPage)
      ensures old(pending) == [] ==> item == None && pending == [] && yielded == old(yielded)
      ensures old(pending) != [] ==>
                && item == Some(Ok(old(pending)[0]))
                && pending == old(pending)[1..]
                && yielded == old(yielded) + [old(pending)[0]]
    {
      if currentResults == [] {
        item := None;
      } else {
        ReversePop(pending);
        var last := currentResults[|currentResults| - 1];
        currentResults := currentResults[..|currentResults| - 1];
        pending := pending[1..];
        yielded := yielded + [last];
        item := Some(Ok(last));
      }
    }
  }

  /** `search`: a fresh iterator over the results for `query`. */
  method Search(query: string) returns (results: SearchResults)
    ensures fresh(results) && results.query == query
    ensures results.currentPage == 0 && results.currentResults == []
    ensures results.attempts == [] && results.yielded == []
    ensures results.Valid() && results.Ordered()
  {
    results := new SearchResults(query);
  }

  /** A search whose page 0 holds `SamplePage` and whose page 1 is empty: the two results
      come out in order from one request, and the request for page 1 ends the stream. */
  method SamplePageThenEmptyPage() returns (items: seq<Option<Result<SearchResult>>>)
    ensures items == [
              Some(Ok(SearchResult("irc.a.net", "#x", "B1", "[1M]", "f1", "#1", "1x", None))),
              Some(Ok(SearchResult("irc.b.net", "#y", "B2", "[2M]", "f2", "#2", "2x", Some("100.0kB/s")))),
              None]
  {
    var empty := RawResult([], [], [], [], [], [], [], []);
    var transport: Transport := (sterm: string, page: nat) =>
      if page == 0 then Delivered(SamplePage) else Delivered(empty);
    SamplePageDecodes();
    var it := Search("test");
    var first := it.Next(transport);
    var second := it.Next(transport);
    var third := it.Next(transport);
    items := [first, second, third];
  }
}
