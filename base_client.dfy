/**
 * The shared page-count paginator of the client base class: fetch page 1, read the page total
 * from its `info`, then fetch pages 2..total in order, parsing each page's `results`.
 */
module BaseClient {
  import opened Wrappers
  import opened Text
  import opened Utils
  import Models

  /** The `{'character': …, 'location': …}` result of a single-character lookup. */
  datatype CharacterWithLocation = CharacterWithLocation(character: Models.Character, location: Option<Models.Location>)

  /** A JSON object's value for a key that may be absent, `null`, or hold a value. */
  datatype JsonField<+T> = Missing | Null | Present(value: T)

  /** `d.get(key)`: the value, or None for an absent key and for `null` alike. */
  function JsonGet<T>(f: JsonField<T>): (r: Option<T>)
    ensures r.Some? <==> f.Present?
    ensures r.Some? ==> r.value == f.value
  {
    if f.Present? then Some(f.value) else None
  }

  /**
   * A list endpoint's `info` object: `count` and `pages` are None when their key is absent;
   * the `next` and `prev` links are `null` on the last and the first page.
   */
  datatype RawInfo = RawInfo(count: Option<int>, pages: Option<int>, next: JsonField<string>, prev: JsonField<string>)

  /** A list endpoint's response object: `{info, results}`, either key possibly absent. */
  datatype Page<+R> = Page(info: Option<RawInfo>, results: Option<seq<R>>)

  /** `response.get('results', [])`. */
  function Results<R>(p: Page<R>): seq<R> {
    if p.results.Some? then p.results.value else []
  }

  /** `response.get('info', {}).get('pages', 1)`. */
  function TotalPages<R>(p: Page<R>): int {
    if p.info.Some? && p.info.value.pages.Some? then p.info.value.pages.value else 1
  }

  /** `[lo, lo + 1, …, hi - 1]`. */
  function Range(lo: int, hi: int): (r: seq<int>)
    ensures |r| == if hi <= lo then 0 else hi - lo
    ensures forall i :: 0 <= i < |r| ==> r[i] == lo + i
    decreases hi - lo
  {
    if hi <= lo then [] else [lo] + Range(lo + 1, hi)
  }

  /** `acc` followed by the items of `r`, or `r`'s error. */
  function Prepend<T>(acc: seq<T>, r: Result<seq<T>, Error>): Result<seq<T>, Error> {
    if r.Ok? then Ok(acc + r.value) else r
  }

  lemma PrependPrepend<T>(a: seq<T>, b: seq<T>, r: Result<seq<T>, Error>)
    ensures Prepend(a, Prepend(b, r)) == Prepend(a + b, r)
  {
    if r.Ok? {
      assert a + (b + r.value) == (a + b) + r.value;
    }
  }

  /**
   * Parsing the items of one page in order: every item parsed, or the first item's failure.
   */
  function ParseItems<R, T>(items: seq<R>, parse: R -> Result<T, Error>): (r: Result<seq<T>, Error>)
    ensures r.Ok? ==> |r.value| == |items| && forall i :: 0 <= i < |items| ==> parse(items[i]) == Ok(r.value[i])
    ensures r.Err? ==> exists i :: 0 <= i < |items| && parse(items[i]) == Err(r.error)
                                  && forall j :: 0 <= j < i ==> parse(items[j]).Ok?
    ensures (forall i :: 0 <= i < |items| ==> parse(items[i]).Ok?) <==> r.Ok?
  {
    if items == [] then Ok([])
    else
      var head := parse(items[0]);
      if head.Err? then Err(head.error)
      else
        var rest := ParseItems(items[1..], parse);
        if rest.Err? then
          assert forall i :: 1 <= i < |items| ==> items[i] == items[1..][i - 1];
          rest
        else
          assert forall i :: 1 <= i < |items| ==> items[i] == items[1..][i - 1];
          Ok([head.value] + rest.value)
  }

  /**
   * `for item_data in results: all_items.append(parser_func(item_data))`, where a parser
   * exception leaves the loop.
   */
  method AppendParsed<R, T>(all: seq<T>, items: seq<R>, parse: R -> Result<T, Error>)
    returns (r: Result<seq<T>, Error>)
    ensures r == Prepend(all, ParseItems(items, parse))
  {
    var acc := all;
    var i := 0;
    while i < |items|
      invariant 0 <= i <= |items|
      invariant Prepend(all, ParseItems(items, parse)) == Prepend(acc, ParseItems(items[i..], parse))
    {
      var item := parse(items[i]);
      assert items[i..][0] == items[i] && items[i..][1..] == items[i + 1..];
      if item.Err? {
        assert ParseItems(items[i..], parse) == Err(item.error);
        return Err(item.error);
      }
      PrependPrepend(acc, [item.value], ParseItems(items[i + 1..], parse));
      acc := acc + [item.value];
      i := i + 1;
    }
    assert items[i..] == [] && acc + [] == acc;
    r := Ok(acc);
  }

  /** The run of a paginated fetch: its outcome and the pages it requested, in order. */
  datatype FetchRun<+T> = FetchRun(result: Result<seq<T>, Error>, requested: seq<int>)

  /** `APIError(f"Failed to fetch {description} page {page}: {e}")`, with no status code. */
  function PageFailure(description: string, page: int, e: Error): Error {
    ApiError("Failed to fetch " + description + " page " + IntToString(page) + ": " + Message(e), None)
  }

  /** Fetching and parsing one page: its items, or the fetch's or the parser's exception. */
  function PageItems<R, T>(fetch: int -> Result<Page<R>, Error>, parse: R -> Result<T, Error>, page: int)
    : Result<seq<T>, Error>
  {
    if fetch(page).Err? then Err(fetch(page).error) else ParseItems(Results(fetch(page).value), parse)
  }

  /** The loop over pages `page..total`, each failure wrapped with the page it happened on. */
  function PagesFrom<R, T>(fetch: int -> Result<Page<R>, Error>, parse: R -> Result<T, Error>,
                           description: string, page: int, total: int): FetchRun<T>
    decreases total - page
  {
    if page > total then FetchRun(Ok([]), [])
    else
      var items := PageItems(fetch, parse, page);
      if items.Err? then FetchRun(Err(PageFailure(description, page, items.error)), [page])
      else
        var rest := PagesFrom(fetch, parse, description, page + 1, total);
        FetchRun(Prepend(items.value, rest.result), [page] + rest.requested)
  }

  /** `_paginate_with_progress(fetch_func, description, parser_func)`. */
  function Paginate<R, T>(fetch: int -> Result<Page<R>, Error>, parse: R -> Result<T, Error>,
                          description: string): FetchRun<T>
  {
    if fetch(1).Err? then FetchRun(Err(fetch(1).error), [1])
    else
      var total := TotalPages(fetch(1).value);
      var first := ParseItems(Results(fetch(1).value), parse);
      if first.Err? then FetchRun(Err(first.error), [1])
      else if total > 1 then
        var rest := PagesFrom(fetch, parse, description, 2, total);
        FetchRun(Prepend(first.value, rest.result), [1] + rest.requested)
      else FetchRun(Ok(first.value), [1])
  }

  /** The paginator's loop: the pages after the first are fetched one at a time, in order. */
  method PaginateWithProgress<R, T>(fetch: int -> Result<Page<R>, Error>, description: string,
                                    parse: R -> Result<T, Error>)
    returns (result: Result<seq<T>, Error>, requested: seq<int>)
    ensures FetchRun(result, requested) == Paginate(fetch, parse, description)
  {
    requested := [1];
    var firstResponse := fetch(1);
    if firstResponse.Err? {
      return Err(firstResponse.error), requested;
    }
    var total := TotalPages(firstResponse.value);
    var first := AppendParsed([], Results(firstResponse.value), parse);
    if first.Err? {
      return first, requested;
    }
    assert [] + ParseItems(Results(firstResponse.value), parse).value
           == ParseItems(Results(firstResponse.value), parse).value;
    var all := first.value;
    if total > 1 {
      var page := 2;
      while page <= total
        invariant 2 <= page <= total + 1
        invariant Paginate(fetch, parse, description)
               == FetchRun(Prepend(all, PagesFrom(fetch, parse, description, page, total).result),
                           requested + PagesFrom(fetch, parse, description, page, total).requested)
        decreases total - page
      {
        PagesFromStep(fetch, parse, description, page, total, all, requested);
        requested := requested + [page];
        var response := fetch(page);
        if response.Err? {
          return Err(PageFailure(description, page, response.error)), requested;
        }
        var step := AppendParsed(all, Results(response.value), parse);
        if step.Err? {
          return Err(PageFailure(description, page, step.error)), requested;
        }
        all := step.value;
        page := page + 1;
      }
      assert all + [] == all && requested + [] == requested;
    }
    result := Ok(all);
  }

  /** One pass of the paginator's loop, on the run still to come from `page`. */
  lemma PagesFromStep<R, T>(fetch: int -> Result<Page<R>, Error>, parse: R -> Result<T, Error>,
                            description: string, page: int, total: int, all: seq<T>, requested: seq<int>)
    requires page <= total
    ensures var cur := PagesFrom(fetch, parse, description, page, total);
      var items := PageItems(fetch, parse, page);
      && (items.Err? ==> FetchRun(Prepend(all, cur.result), requested + cur.requested)
                         == FetchRun(Err(PageFailure(description, page, items.error)), requested + [page]))
      && (items.Ok? ==>
            var next := PagesFrom(fetch, parse, description, page + 1, total);
            FetchRun(Prepend(all, cur.result), requested + cur.requested)
            == FetchRun(Prepend(all + items.value, next.result), (requested + [page]) + next.requested))
  {
    var items := PageItems(fetch, parse, page);
    if items.Ok? {
      var next := PagesFrom(fetch, parse, description, page + 1, total);
      assert requested + ([page] + next.requested) == (requested + [page]) + next.requested;
      PrependPrepend(all, items.value, next.result);
    }
  }

  predicate PageOk<R, T>(fetch: int -> Result<Page<R>, Error>, parse: R -> Result<T, Error>, page: int) {
    PageItems(fetch, parse, page).Ok?
  }

  /** The items of pages `lo..hi-1`, concatenated in page order. */
  function Collect<R, T>(fetch: int -> Result<Page<R>, Error>, parse: R -> Result<T, Error>, lo: int, hi: int)
    : seq<T>
    requires forall p :: lo <= p < hi ==> PageOk(fetch, parse, p)
    decreases hi - lo
  {
    if hi <= lo then [] else assert PageOk(fetch, parse, lo); PageItems(fetch, parse, lo).value + Collect(fetch, parse, lo + 1, hi)
  }

  function Max(a: int, b: int): int { if a < b then b else a }

  lemma {:induction false} PagesFromFacts<R, T>(fetch: int -> Result<Page<R>, Error>, parse: R -> Result<T, Error>,
                                                description: string, page: int, total: int)
    ensures var run := PagesFrom(fetch, parse, description, page, total);
      && (run.result.Ok? <==> forall p :: page <= p <= total ==> PageOk(fetch, parse, p))
      && (run.result.Ok? ==> run.result.value == Collect(fetch, parse, page, total + 1)
                             && run.requested == Range(page, total + 1))
      && (run.result.Err? ==> exists q :: (page <= q <= total && run.requested == Range(page, q + 1)
            && (forall p :: page <= p < q ==> PageOk(fetch, parse, p)) && !PageOk(fetch, parse, q)
            && run.result.error == PageFailure(description, q, PageItems(fetch, parse, q).error)))
    decreases total - page
  {
    if page <= total && PageOk(fetch, parse, page) {
      PagesFromFacts(fetch, parse, description, page + 1, total);
      var rest := PagesFrom(fetch, parse, description, page + 1, total);
      if rest.result.Err? {
        var q :| page + 1 <= q <= total && rest.requested == Range(page + 1, q + 1)
            && (forall p :: page + 1 <= p < q ==> PageOk(fetch, parse, p)) && !PageOk(fetch, parse, q)
            && rest.result.error == PageFailure(description, q, PageItems(fetch, parse, q).error);
        assert [page] + Range(page + 1, q + 1) == Range(page, q + 1);
      } else {
        assert [page] + Range(page + 1, total + 1) == Range(page, total + 1);
      }
    } else if page <= total {
      assert Range(page, page + 1) == [page];
    }
  }

  /**
   * What the paginator promises.  A failure on page 1 (fetch or parse) propagates unwrapped
   * after that single request.  Otherwise, with `n = max(1, pages)` read from page 1's `info`
   * (1 when absent): the pages requested are `1, 2, …` in ascending order and never above `n`;
   * the fetch succeeds exactly when pages `1..n` all do, and then it made `1 + max(0, pages-1)`
   * requests and returns the pages' items concatenated in page order; the first failing page
   * `q >= 2` ends it with an APIError naming the description and `q`, and no partial list.
   */
  lemma PaginateContract<R, T>(fetch: int -> Result<Page<R>, Error>, parse: R -> Result<T, Error>,
                               description: string)
    ensures var run := Paginate(fetch, parse, description);
      && (!PageOk(fetch, parse, 1) ==> run == FetchRun(Err(PageItems(fetch, parse, 1).error), [1]))
      && (PageOk(fetch, parse, 1) ==>
            var n := Max(1, TotalPages(fetch(1).value));
            && (forall i :: 0 <= i < |run.requested| ==> run.requested[i] == i + 1 <= n)
            && (run.result.Ok? <==> forall p :: 1 <= p <= n ==> PageOk(fetch, parse, p))
            && (run.result.Ok? ==> run.result.value == Collect(fetch, parse, 1, n + 1)
                                   && |run.requested| == 1 + Max(0, TotalPages(fetch(1).value) - 1))
            && (run.result.Err? ==> exists q :: (2 <= q <= n && run.requested == Range(1, q + 1)
                  && !PageOk(fetch, parse, q)
                  && run.result.error == PageFailure(description, q, PageItems(fetch, parse, q).error))))
  {
    if PageOk(fetch, parse, 1) {
      var total := TotalPages(fetch(1).value);
      var items := PageItems(fetch, parse, 1).value;
      PagesFromFacts(fetch, parse, description, 2, total);
      var rest := PagesFrom(fetch, parse, description, 2, total);
      if total > 1 {
        if rest.result.Err? {
          var q :| 2 <= q <= total && rest.requested == Range(2, q + 1)
              && (forall p :: 2 <= p < q ==> PageOk(fetch, parse, p)) && !PageOk(fetch, parse, q)
              && rest.result.error == PageFailure(description, q, PageItems(fetch, parse, q).error);
          assert [1] + Range(2, q + 1) == Range(1, q + 1);
        } else {
          assert [1] + Range(2, total + 1) == Range(1, total + 1);
          assert Collect(fetch, parse, 1, total + 1) == items + Collect(fetch, parse, 2, total + 1);
        }
      } else {
        assert Collect(fetch, parse, 1, 2) == items + [];
      }
    }
  }
}
