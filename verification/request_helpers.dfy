/** request_helpers.go: the generic paginator `getPaginatedResults`.

    HTTP is replaced by oracles: a page fetch is a function from the page number to the
    decoded `paginatedResponse` or the error `coupleAPIErrors` produced, and
    `applyListOptionsToRequest` is a function from the options to an optional error. */
module RequestHelpers {
  import opened Results

  /** The largest Go `int` on the 64-bit platforms the client is built for. */
  const MaxInt: int := 0x7fff_ffff_ffff_ffff

  /** `PageOptions`: the page asked for and the counts written back after a fetch. */
  datatype PageOptions = PageOptions(page: int, pages: int, results: int)

  /** `ListOptions`: the embedded (nil-able) `*PageOptions`, the page size and the filter. */
  datatype ListOptions = ListOptions(pageOptions: Option<PageOptions>, pageSize: int, filter: string)

  /** `paginatedResponse[T]`: one decoded page. */
  datatype PaginatedResponse<T> = PaginatedResponse(page: int, pages: int, results: int, data: seq<T>)

  /** A GET of the endpoint with the `page` query parameter set. */
  type Fetch<T> = int -> Result<PaginatedResponse<T>>

  /** What `applyListOptionsToRequest` reports for the (normalised) options. */
  type ApplyOptions = ListOptions -> Option<Error>

  /** Every page the server reports counts fewer than `MaxInt` pages. Without this the loop
      of `getPaginatedResults` need not end: its counter would wrap past `MaxInt`. */
  ghost predicate Bounded<T>(fetch: Fetch<T>)
  {
    forall p: int :: fetch(p).Success? ==> fetch(p).value.pages < MaxInt
  }

  /** `&PageOptions{Page: 0}`: no page is defined. */
  const NoPage := PageOptions(0, 0, 0)

  /** Lines 35-41: a nil `opts` and a nil `opts.PageOptions` both become page 0. */
  function Normalize(opts: Option<ListOptions>): (o: ListOptions)
    ensures o.pageOptions.Some?
    ensures opts.Some? ==> o.pageSize == opts.value.pageSize && o.filter == opts.value.filter
    ensures opts.Some? && opts.value.pageOptions.Some? ==> o == opts.value
    ensures opts.None? || opts.value.pageOptions.None? ==> o.pageOptions.value == NoPage
  {
    match opts
    case None => ListOptions(Some(NoPage), 0, "")
    case Some(lo) => if lo.pageOptions.None? then lo.(pageOptions := Some(NoPage)) else lo
  }

  /** The one path on which `getPaginatedResults` reaches its loop (lines 88-92): the
      options were applied and no page was asked for. */
  predicate ReachesLoop(applyOptions: ApplyOptions, opts: Option<ListOptions>)
  {
    applyOptions(Normalize(opts)).None? && Normalize(opts).pageOptions.value.page <= 0
  }

  /** Only a call that reaches the loop needs the server's page counts to be bounded; on
      every other path the call returns whatever count a page reports. */
  ghost predicate BoundedIfLooping<T>(fetch: Fetch<T>, applyOptions: ApplyOptions, opts: Option<ListOptions>)
  {
    ReachesLoop(applyOptions, opts) ==> Bounded(fetch)
  }

  /** Lines 60-62: `opts.Page`, `opts.Pages` and `opts.Results` after a successful fetch of `page`. */
  function Record<T>(o: ListOptions, page: int, resp: PaginatedResponse<T>): ListOptions
  {
    o.(pageOptions := Some(PageOptions(page, resp.pages, resp.results)))
  }

  /** After fetching `page`, the loop goes on to `page + 1`: the fetch succeeded and the
      page reported at least `page + 1` pages. */
  predicate Continues<T>(fetch: Fetch<T>, page: int)
  {
    fetch(page).Success? && page + 1 <= fetch(page).value.pages
  }

  /** Every page in `ps` was fetched successfully. */
  predicate AllFetched<T>(fetch: Fetch<T>, ps: seq<int>)
  {
    forall i :: 0 <= i < |ps| ==> fetch(ps[i]).Success?
  }

  /** The `Data` of page `p`, or nothing when its fetch failed. */
  function PageData<T>(fetch: Fetch<T>, p: int): seq<T>
  {
    if fetch(p).Success? then fetch(p).value.data else []
  }

  /** The `Data` of the pages `ps`, in that order. */
  function Gathered<T>(fetch: Fetch<T>, ps: seq<int>): seq<T>
  {
    if |ps| == 0 then [] else PageData(fetch, ps[0]) + Gathered(fetch, ps[1..])
  }

  lemma {:induction false} GatheredAppend<T>(fetch: Fetch<T>, ps: seq<int>, p: int)
    ensures Gathered(fetch, ps + [p]) == Gathered(fetch, ps) + PageData(fetch, p)
  {
    if |ps| == 0 {
      assert ps + [p] == [p];
    } else {
      assert (ps + [p])[1..] == ps[1..] + [p];
      GatheredAppend(fetch, ps[1..], p);
    }
  }

  /** What one call of `getPaginatedResults` observably did: its result, the page numbers
      it requested in order, and the options as written back. */
  datatype Trace<T> = Trace(result: Result<seq<T>>, requested: seq<int>, opts: ListOptions)

  /** Lines 88-94: the loop from `page` on, with `o` holding the options as last written
      back and `acc` the pages gathered so far. The bound `opts.Pages` is re-read on every
      iteration, so it is the count reported by the most recently fetched page. */
  function RestPages<T>(fetch: Fetch<T>, page: int, o: ListOptions, acc: seq<T>): (t: Trace<T>)
    requires Bounded(fetch)
    requires o.pageOptions.Some? && o.pageOptions.value.pages < MaxInt
    decreases MaxInt - page
  {
    if page > o.pageOptions.value.pages then
      Trace(Success(acc), [], o)
    else
      match fetch(page)
      case Failure(err) => Trace(Failure(err), [page], o)
      case Success(resp) =>
        var rest := RestPages(fetch, page + 1, Record(o, page, resp), acc + resp.data);
        rest.(requested := [page] + rest.requested)
  }

  /** One iteration of the loop, unfolded. */
  lemma RestPagesStep<T>(fetch: Fetch<T>, page: int, o: ListOptions, acc: seq<T>)
    requires Bounded(fetch)
    requires o.pageOptions.Some? && o.pageOptions.value.pages < MaxInt
    ensures page > o.pageOptions.value.pages ==> RestPages(fetch, page, o, acc) == Trace(Success(acc), [], o)
    ensures page <= o.pageOptions.value.pages && fetch(page).Failure? ==>
      RestPages(fetch, page, o, acc) == Trace(Failure(fetch(page).error), [page], o)
    ensures page <= o.pageOptions.value.pages && fetch(page).Success? ==>
      var rest := RestPages(fetch, page + 1, Record(o, page, fetch(page).value), acc + fetch(page).value.data);
      RestPages(fetch, page, o, acc) == rest.(requested := [page] + rest.requested)
  {
  }

  /** The loop requests `page`, `page + 1`, ... in order, and requests nothing when `page`
      is already past the count last written back. */
  lemma {:induction false} RestPagesNumbering<T>(fetch: Fetch<T>, page: int, o: ListOptions, acc: seq<T>)
    requires Bounded(fetch)
    requires o.pageOptions.Some? && o.pageOptions.value.pages < MaxInt
    decreases MaxInt - page
    ensures var t := RestPages(fetch, page, o, acc);
      && (forall i :: 0 <= i < |t.requested| ==> t.requested[i] == page + i)
      && (|t.requested| == 0 <==> page > o.pageOptions.value.pages)
  {
    if page <= o.pageOptions.value.pages && fetch(page).Success? {
      var resp := fetch(page).value;
      RestPagesNumbering(fetch, page + 1, Record(o, page, resp), acc + resp.data);
      var rest := RestPages(fetch, page + 1, Record(o, page, resp), acc + resp.data);
      assert RestPages(fetch, page, o, acc).requested == [page] + rest.requested;
    }
  }

  /** The loop goes on past a page exactly when that page succeeded and reported at least
      one more page: it goes on past every requested page but the last, and stops there. */
  lemma {:induction false} RestPagesStopRule<T>(fetch: Fetch<T>, page: int, o: ListOptions, acc: seq<T>)
    requires Bounded(fetch)
    requires o.pageOptions.Some? && o.pageOptions.value.pages < MaxInt
    decreases MaxInt - page
    ensures var t := RestPages(fetch, page, o, acc);
      && (forall i :: 0 <= i < |t.requested| - 1 ==> Continues(fetch, t.requested[i]))
      && (|t.requested| > 0 ==> !Continues(fetch, Last(t.requested)))
  {
    if page <= o.pageOptions.value.pages && fetch(page).Success? {
      var resp := fetch(page).value;
      RestPagesStopRule(fetch, page + 1, Record(o, page, resp), acc + resp.data);
      RestPagesNumbering(fetch, page + 1, Record(o, page, resp), acc + resp.data);
      var rest := RestPages(fetch, page + 1, Record(o, page, resp), acc + resp.data);
      var t := RestPages(fetch, page, o, acc);
      assert t.requested == [page] + rest.requested;
      forall i | 0 <= i < |t.requested| - 1
        ensures Continues(fetch, t.requested[i])
      {
        if i > 0 {
          assert t.requested[i] == rest.requested[i - 1];
        }
      }
    }
  }

  /** The loop ends either with the error of the last page it requested, or, after a
      successful last page, with the data of every page it requested appended to `acc`. */
  lemma {:induction false} RestPagesResult<T>(fetch: Fetch<T>, page: int, o: ListOptions, acc: seq<T>)
    requires Bounded(fetch)
    requires o.pageOptions.Some? && o.pageOptions.value.pages < MaxInt
    decreases MaxInt - page
    ensures var t := RestPages(fetch, page, o, acc);
      && (t.result.Failure? ==>
            |t.requested| > 0 && fetch(Last(t.requested)).Failure? && t.result.error == fetch(Last(t.requested)).error)
      && (t.result.Success? ==>
            (|t.requested| > 0 ==> fetch(Last(t.requested)).Success?) && t.result.value == acc + Gathered(fetch, t.requested))
  {
    if page <= o.pageOptions.value.pages && fetch(page).Success? {
      var resp := fetch(page).value;
      RestPagesResult(fetch, page + 1, Record(o, page, resp), acc + resp.data);
      var rest := RestPages(fetch, page + 1, Record(o, page, resp), acc + resp.data);
      var t := RestPages(fetch, page, o, acc);
      assert t.requested == [page] + rest.requested;
      if t.result.Success? {
        assert t.requested[1..] == rest.requested;
        assert Gathered(fetch, t.requested) == resp.data + Gathered(fetch, rest.requested);
      }
    }
  }

  /** After the loop the options hold the number and counts of the last page it fetched
      successfully, or are as they were when nothing was fetched successfully. */
  lemma {:induction false} RestPagesWriteBack<T>(fetch: Fetch<T>, page: int, o: ListOptions, acc: seq<T>)
    requires Bounded(fetch)
    requires o.pageOptions.Some? && o.pageOptions.value.pages < MaxInt
    decreases MaxInt - page
    ensures var t := RestPages(fetch, page, o, acc);
      var k := if t.result.Success? then |t.requested| else |t.requested| - 1;
      && (k > 0 ==> fetch(t.requested[k - 1]).Success? && t.opts == Record(o, t.requested[k - 1], fetch(t.requested[k - 1]).value))
      && (k <= 0 ==> t.opts == o)
  {
    if page <= o.pageOptions.value.pages && fetch(page).Success? {
      var resp := fetch(page).value;
      RestPagesWriteBack(fetch, page + 1, Record(o, page, resp), acc + resp.data);
      var rest := RestPages(fetch, page + 1, Record(o, page, resp), acc + resp.data);
      var t := RestPages(fetch, page, o, acc);
      assert t.requested == [page] + rest.requested;
    }
  }

  /** `getPaginatedResults` (lines 23-95) on a fetch oracle. */
  function Paginate<T>(fetch: Fetch<T>, applyOptions: ApplyOptions, opts: Option<ListOptions>): (t: Trace<T>)
    requires BoundedIfLooping(fetch, applyOptions, opts)
    ensures t.requested == [] <==> applyOptions(Normalize(opts)).Some?
    ensures t.requested != [] ==>
      t.requested[0] == if Normalize(opts).pageOptions.value.page > 0 then Normalize(opts).pageOptions.value.page else 1
  {
    var o := Normalize(opts);
    match applyOptions(o)
    case Some(err) => Trace(Failure(err), [], o)
    case None =>
      var pageDefined := o.pageOptions.value.page > 0;
      var startingPage := if pageDefined then o.pageOptions.value.page else 1;
      match fetch(startingPage)
      case Failure(err) => Trace(Failure(err), [startingPage], o)
      case Success(resp) =>
        var first := Record(o, startingPage, resp);
        if pageDefined then
          Trace(Success(resp.data), [startingPage], first)
        else
          var rest := RestPages(fetch, 2, first, resp.data);
          rest.(requested := [startingPage] + rest.requested)
  }

  /** Lines 43-46: options that cannot be applied fail the call before any page is fetched. */
  lemma OptionsErrorFetchesNothing<T>(fetch: Fetch<T>, applyOptions: ApplyOptions, opts: Option<ListOptions>)
    requires applyOptions(Normalize(opts)).Some?
    ensures Paginate(fetch, applyOptions, opts) == Trace(Failure(applyOptions(Normalize(opts)).value), [], Normalize(opts))
  {
  }

  /** Lines 69-85: an explicit page p > 0 is the one page fetched, whatever count it reports,
      and the result is that page's data. */
  lemma ExplicitPageIsTheOnlyPage<T>(fetch: Fetch<T>, applyOptions: ApplyOptions, opts: Option<ListOptions>)
    requires applyOptions(Normalize(opts)).None? && Normalize(opts).pageOptions.value.page > 0
    ensures var p := Normalize(opts).pageOptions.value.page;
      var t := Paginate(fetch, applyOptions, opts);
      && t.requested == [p]
      && (fetch(p).Failure? ==> t.result == Failure(fetch(p).error) && t.opts == Normalize(opts))
      && (fetch(p).Success? ==> t.result == Success(fetch(p).value.data) && t.opts == Record(Normalize(opts), p, fetch(p).value))
  {
  }

  /** Lines 69-92: without an explicit page, the pages 1, 2, ..., k are requested in order,
      and page n + 1 is requested exactly when page n succeeded and reported at least n + 1
      pages, so the bound is the count reported by the page fetched last. */
  lemma DefaultRequestsConsecutivePages<T>(fetch: Fetch<T>, applyOptions: ApplyOptions, opts: Option<ListOptions>)
    requires Bounded(fetch)
    requires applyOptions(Normalize(opts)).None? && Normalize(opts).pageOptions.value.page <= 0
    ensures var t := Paginate(fetch, applyOptions, opts);
      && |t.requested| > 0
      && (forall i :: 0 <= i < |t.requested| ==> t.requested[i] == i + 1)
      && (forall i :: 0 <= i < |t.requested| - 1 ==> Continues(fetch, t.requested[i]))
      && !Continues(fetch, Last(t.requested))
  {
    var o := Normalize(opts);
    var t := Paginate(fetch, applyOptions, opts);
    if fetch(1).Success? {
      var first := Record(o, 1, fetch(1).value);
      RestPagesNumbering(fetch, 2, first, fetch(1).value.data);
      RestPagesStopRule(fetch, 2, first, fetch(1).value.data);
      var rest := RestPages(fetch, 2, first, fetch(1).value.data);
      assert t.requested == [1] + rest.requested;
      forall i | 0 <= i < |t.requested| - 1
        ensures Continues(fetch, t.requested[i])
      {
        if i > 0 {
          assert t.requested[i] == rest.requested[i - 1];
        }
      }
    }
  }

  /** The data gathered by a successful call, with the first page split off. */
  lemma PaginateSuccessShape<T>(fetch: Fetch<T>, applyOptions: ApplyOptions, opts: Option<ListOptions>)
    requires BoundedIfLooping(fetch, applyOptions, opts)
    requires Paginate(fetch, applyOptions, opts).result.Success?
    ensures var t := Paginate(fetch, applyOptions, opts);
      && |t.requested| > 0
      && fetch(Last(t.requested)).Success?
      && t.result.value == Gathered(fetch, t.requested)
  {
    var o := Normalize(opts);
    var t := Paginate(fetch, applyOptions, opts);
    if applyOptions(o).None? && o.pageOptions.value.page <= 0 {
      var first := Record(o, 1, fetch(1).value);
      RestPagesResult(fetch, 2, first, fetch(1).value.data);
      var rest := RestPages(fetch, 2, first, fetch(1).value.data);
      assert t.requested[1..] == rest.requested;
      if |rest.requested| > 0 {
        assert Last(t.requested) == Last(rest.requested);
      }
    } else {
      assert t.requested[1..] == [];
    }
  }

  /** Lines 64 and 88-94: a successful call fetched every page it requested and returns
      their data, in page order and then in-page order. */
  lemma SuccessIsAllFetchedData<T>(fetch: Fetch<T>, applyOptions: ApplyOptions, opts: Option<ListOptions>)
    requires BoundedIfLooping(fetch, applyOptions, opts)
    requires Paginate(fetch, applyOptions, opts).result.Success?
    ensures var t := Paginate(fetch, applyOptions, opts);
      |t.requested| > 0 && AllFetched(fetch, t.requested) && t.result.value == Gathered(fetch, t.requested)
  {
    var t := Paginate(fetch, applyOptions, opts);
    PaginateSuccessShape(fetch, applyOptions, opts);
    if ReachesLoop(applyOptions, opts) {
      DefaultRequestsConsecutivePages(fetch, applyOptions, opts);
      assert forall i :: 0 <= i < |t.requested| - 1 ==> Continues(fetch, t.requested[i]);
    }
  }

  /** Lines 77-79 and 89-91: a failed call carries the error of the last page it requested,
      every page before that one succeeded, and no list is returned at all. */
  lemma FailureIsLastRequestedPage<T>(fetch: Fetch<T>, applyOptions: ApplyOptions, opts: Option<ListOptions>)
    requires BoundedIfLooping(fetch, applyOptions, opts)
    requires applyOptions(Normalize(opts)).None?
    requires Paginate(fetch, applyOptions, opts).result.Failure?
    ensures var t := Paginate(fetch, applyOptions, opts);
      && |t.requested| > 0
      && fetch(Last(t.requested)).Failure?
      && t.result.error == fetch(Last(t.requested)).error
      && AllFetched(fetch, t.requested[..|t.requested| - 1])
  {
    var o := Normalize(opts);
    var t := Paginate(fetch, applyOptions, opts);
    if o.pageOptions.value.page <= 0 && fetch(1).Success? {
      var first := Record(o, 1, fetch(1).value);
      RestPagesResult(fetch, 2, first, fetch(1).value.data);
      var rest := RestPages(fetch, 2, first, fetch(1).value.data);
      assert t.requested == [1] + rest.requested;
      assert Last(t.requested) == Last(rest.requested);
      DefaultRequestsConsecutivePages(fetch, applyOptions, opts);
      assert forall i :: 0 <= i < |t.requested| - 1 ==> Continues(fetch, t.requested[i]);
    }
  }

  /** Lines 60-62: after the call the options hold the number, page count and result count
      of the last page fetched successfully, and are the normalised options when no fetch
      succeeded. */
  lemma OptionsRecordLastFetchedPage<T>(fetch: Fetch<T>, applyOptions: ApplyOptions, opts: Option<ListOptions>)
    requires BoundedIfLooping(fetch, applyOptions, opts)
    ensures var t := Paginate(fetch, applyOptions, opts);
      var k := if t.result.Success? then |t.requested| else |t.requested| - 1;
      && (k > 0 ==>
            && fetch(t.requested[k - 1]).Success?
            && t.opts == Record(Normalize(opts), t.requested[k - 1], fetch(t.requested[k - 1]).value))
      && (k <= 0 ==> t.opts == Normalize(opts))
  {
    var o := Normalize(opts);
    var t := Paginate(fetch, applyOptions, opts);
    if applyOptions(o).None? && o.pageOptions.value.page <= 0 && fetch(1).Success? {
      var first := Record(o, 1, fetch(1).value);
      RestPagesWriteBack(fetch, 2, first, fetch(1).value.data);
      var rest := RestPages(fetch, 2, first, fetch(1).value.data);
      assert t.requested == [1] + rest.requested;
    }
  }

  /** `t` with `ps` requested before its own pages. */
  function Prefixed<T>(ps: seq<int>, t: Trace<T>): Trace<T>
  {
    t.(requested := ps + t.requested)
  }

  lemma PrefixedTwice<T>(ps: seq<int>, qs: seq<int>, t: Trace<T>)
    ensures Prefixed(ps, Prefixed(qs, t)) == Prefixed(ps + qs, t)
  {
    assert ps + (qs + t.requested) == (ps + qs) + t.requested;
  }

  /** One loop iteration keeps "what remains is `RestPages` from here" true. */
  lemma ContinuationStep<T>(fetch: Fetch<T>, goal: Trace<T>, requested: seq<int>, page: int, o: ListOptions, acc: seq<T>)
    requires Bounded(fetch)
    requires o.pageOptions.Some? && o.pageOptions.value.pages < MaxInt
    requires page <= o.pageOptions.value.pages
    requires goal == Prefixed(requested, RestPages(fetch, page, o, acc))
    ensures fetch(page).Failure? ==> goal == Trace(Failure(fetch(page).error), requested + [page], o)
    ensures fetch(page).Success? ==>
      goal == Prefixed(requested + [page], RestPages(fetch, page + 1, Record(o, page, fetch(page).value), acc + fetch(page).value.data))
  {
    RestPagesStep(fetch, page, o, acc);
    if fetch(page).Success? {
      PrefixedTwice(requested, [page], RestPages(fetch, page + 1, Record(o, page, fetch(page).value), acc + fetch(page).value.data));
    }
  }

  /** Lines 88-92 as written: `for page := 2; page <= opts.Pages; page++`, where
      `handlePage` overwrites `opts.Pages` on every fetch, so the bound is re-read after
      each page. The loop keeps, as its invariant, that the call's outcome is the pages
      requested so far followed by `RestPages` from `page` on, with the options as written
      back so far and `result` as accumulated so far. */
  method FetchRemainingPages<T>(fetch: Fetch<T>, o: ListOptions, acc: seq<T>)
    returns (r: Result<seq<T>>, requested: seq<int>, written: ListOptions)
    requires Bounded(fetch)
    requires o.pageOptions.Some? && o.pageOptions.value.pages < MaxInt
    ensures Trace(r, requested, written) == RestPages(fetch, 2, o, acc)
  {
    var result := acc;
    requested := [];
    written := o;
    var page := 2;
    ghost var goal := RestPages(fetch, 2, o, acc);
    assert goal == Prefixed([], goal);
    while page <= written.pageOptions.value.pages
      invariant written.pageOptions.Some? && written.pageOptions.value.pages < MaxInt
      invariant goal == Prefixed(requested, RestPages(fetch, page, written, result))
      decreases MaxInt - page
    {
      ContinuationStep(fetch, goal, requested, page, written, result);
      var response := fetch(page);
      if response.Failure? {
        return Failure(response.error), requested + [page], written;
      }
      requested := requested + [page];
      written := Record(written, page, response.value);
      result := result + response.value.data;
      page := page + 1;
    }
    RestPagesStep(fetch, page, written, result);
    assert requested + [] == requested;
    return Success(result), requested, written;
  }

  /** `getPaginatedResults` as written: the options are normalised and applied, the
      starting page fetched, and, when no page was asked for, the remaining pages.
      `written` is the caller's options after the call (for a nil `opts`, the private
      options the call allocated). */
  method GetPaginatedResults<T>(fetch: Fetch<T>, applyOptions: ApplyOptions, opts: Option<ListOptions>)
    returns (r: Result<seq<T>>, requested: seq<int>, written: ListOptions)
    requires BoundedIfLooping(fetch, applyOptions, opts)
    ensures Trace(r, requested, written) == Paginate(fetch, applyOptions, opts)
  {
    written := Normalize(opts);
    var applied := applyOptions(written);
    if applied.Some? {
      return Failure(applied.value), [], written;
    }
    var startingPage := 1;
    var pageDefined := written.pageOptions.value.page > 0;
    if pageDefined {
      startingPage := written.pageOptions.value.page;
    }
    var response := fetch(startingPage);
    if response.Failure? {
      return Failure(response.error), [startingPage], written;
    }
    written := Record(written, startingPage, response.value);
    var result := [] + response.value.data;
    assert result == response.value.data;
    if pageDefined {
      return Success(result), [startingPage], written;
    }
    var rest;
    r, rest, written := FetchRemainingPages(fetch, written, result);
    requested := [startingPage] + rest;
  }

  /** A nil `opts`, and `opts` with a nil `PageOptions`, behave exactly like an explicit page 0. */
  lemma NilOptionsMeanPageZero<T>(fetch: Fetch<T>, applyOptions: ApplyOptions, lo: ListOptions)
    ensures BoundedIfLooping(fetch, applyOptions, None) ==>
      Paginate(fetch, applyOptions, None) == Paginate(fetch, applyOptions, Some(ListOptions(Some(NoPage), 0, "")))
    ensures lo.pageOptions.None? && BoundedIfLooping(fetch, applyOptions, Some(lo)) ==>
      Paginate(fetch, applyOptions, Some(lo)) == Paginate(fetch, applyOptions, Some(lo.(pageOptions := Some(NoPage))))
  {
  }

  /** Pages numbered from 1 that each went on to the next cannot pass a page that reports
      n pages in all. */
  lemma {:induction false} UniformPagesBelowCount<T>(fetch: Fetch<T>, ps: seq<int>, n: int, j: int)
    requires forall i :: 0 <= i < |ps| ==> ps[i] == i + 1
    requires forall i :: 0 <= i < |ps| - 1 ==> Continues(fetch, ps[i])
    requires forall p :: 1 <= p <= n ==> fetch(p).Success? && fetch(p).value.pages == n
    requires 1 <= n && 0 <= j < |ps|
    ensures j + 1 <= n
    decreases j
  {
    if j > 0 {
      UniformPagesBelowCount(fetch, ps, n, j - 1);
      assert Continues(fetch, ps[j - 1]);
    }
  }

  /** Pages numbered from 1, each going on to the next and the last going no further, are
      exactly 1..n when every page 1..n succeeds and reports n pages. */
  lemma UniformRequests<T>(fetch: Fetch<T>, ps: seq<int>, n: int)
    requires |ps| > 0
    requires forall i :: 0 <= i < |ps| ==> ps[i] == i + 1
    requires forall i :: 0 <= i < |ps| - 1 ==> Continues(fetch, ps[i])
    requires !Continues(fetch, Last(ps))
    requires 1 <= n
    requires forall p :: 1 <= p <= n ==> fetch(p).Success? && fetch(p).value.pages == n
    ensures ps == seq(n, i => i + 1)
  {
    var k := |ps|;
    // page n reports no further page, so the requests cannot go past it
    UniformPagesBelowCount(fetch, ps, n, k - 1);
    // every page before n reports more pages, so the requests cannot stop before it
    assert Last(ps) == k;
    assert k < n ==> Continues(fetch, k);
  }

  /** When every page 1..n succeeds and reports n pages, the loop stops after exactly n pages. */
  lemma UniformPagesCount<T>(fetch: Fetch<T>, applyOptions: ApplyOptions, opts: Option<ListOptions>, n: int)
    requires Bounded(fetch)
    requires applyOptions(Normalize(opts)).None? && Normalize(opts).pageOptions.value.page <= 0
    requires 1 <= n
    requires forall p :: 1 <= p <= n ==> fetch(p).Success? && fetch(p).value.pages == n
    ensures Paginate(fetch, applyOptions, opts).requested == seq(n, i => i + 1)
  {
    DefaultRequestsConsecutivePages(fetch, applyOptions, opts);
    UniformRequests(fetch, Paginate(fetch, applyOptions, opts).requested, n);
  }

  /** When every page 1..n succeeds and reports n pages, exactly the pages 1..n are
      requested, in order, and the result is all of their data. */
  lemma UniformPagesAreAllFetched<T>(fetch: Fetch<T>, applyOptions: ApplyOptions, opts: Option<ListOptions>, n: int)
    requires Bounded(fetch)
    requires applyOptions(Normalize(opts)).None? && Normalize(opts).pageOptions.value.page <= 0
    requires 1 <= n
    requires forall p :: 1 <= p <= n ==> fetch(p).Success? && fetch(p).value.pages == n
    ensures Paginate(fetch, applyOptions, opts).requested == seq(n, i => i + 1)
    ensures Paginate(fetch, applyOptions, opts).result.Success?
    ensures Paginate(fetch, applyOptions, opts).result.value == Gathered(fetch, seq(n, i => i + 1))
  {
    var t := Paginate(fetch, applyOptions, opts);
    UniformPagesCount(fetch, applyOptions, opts, n);
    assert fetch(Last(t.requested)).Success? by {
      assert Last(t.requested) == n;
    }
    if t.result.Failure? {
      FailureIsLastRequestedPage(fetch, applyOptions, opts);
    } else {
      SuccessIsAllFetchedData(fetch, applyOptions, opts);
    }
  }
}

/** The many-pages scenario of test/unit/networking_test.go, for any result total and page
    size: a mock server that reports ceil(total / size) pages and puts `size` results on
    every page but the last. */
module PaginationScenario {
  import opened Results
  import opened RequestHelpers

  /** Pages needed for `total` results, `size` to a page: the ceiling of total / size. */
  function PageCount(total: int, size: int): (c: int)
    requires 0 < total && 0 < size
    ensures 1 <= c <= total
    decreases total
  {
    if total <= size then 1 else 1 + PageCount(total - size, size)
  }

  lemma MulStep(k: int, size: int)
    ensures k * size == (k - 1) * size + size
  {
  }

  lemma MulMonotone(a: int, b: int, size: int)
    requires a <= b && 0 < size
    ensures a * size <= b * size
  {
    assert b * size - a * size == (b - a) * size;
  }

  /** PageCount is the ceiling: c - 1 full pages hold fewer than `total` results, c pages
      hold at least `total`. */
  lemma {:induction false} PageCountBounds(total: int, size: int)
    requires 0 < total && 0 < size
    ensures (PageCount(total, size) - 1) * size < total <= PageCount(total, size) * size
    decreases total
  {
    if total > size {
      var c := PageCount(total - size, size);
      PageCountBounds(total - size, size);
      MulStep(c + 1, size);
    }
  }

  /** How many results the mock server puts on `page` (the test's `buildResponse`). */
  function PageResults(total: int, size: int, page: int): (n: int)
    requires 0 < total && 0 < size && 1 <= page <= PageCount(total, size)
    ensures 0 < n <= size
    ensures page * size <= total ==> n == size
    ensures page * size > total ==> (page - 1) * size + n == total
  {
    PageCountBounds(total, size);
    MulMonotone(page - 1, PageCount(total, size) - 1, size);
    MulStep(page, size);
    if page * size > total then total - size * (page - 1) else size
  }

  /** The mock server: pages 1..PageCount each report PageCount pages and `total` results;
      any other page is an error. */
  function MockServer(total: int, size: int): (fetch: Fetch<int>)
    requires 0 < total < MaxInt && 0 < size
    ensures Bounded(fetch)
    ensures forall p :: 1 <= p <= PageCount(total, size) <==> fetch(p).Success?
    ensures forall p :: 1 <= p <= PageCount(total, size) ==>
      fetch(p).value.pages == PageCount(total, size) && |fetch(p).value.data| == PageResults(total, size, p)
  {
    var c := PageCount(total, size);
    page =>
      if 1 <= page <= c then
        Success(PaginatedResponse(page, c, total, seq(PageResults(total, size, page), _ => 0)))
      else
        Failure(Error("no such page"))
  }

  function NoOptionError(o: ListOptions): Option<Error>
  {
    None
  }

  /** The first k pages of the mock server hold min(k * size, total) results. */
  lemma {:induction false} GatheredMock(total: int, size: int, k: int)
    requires 0 < total < MaxInt && 0 < size && 0 <= k <= PageCount(total, size)
    ensures |Gathered(MockServer(total, size), seq(k, i => i + 1))| == if k * size > total then total else k * size
  {
    if k > 0 {
      var fetch := MockServer(total, size);
      GatheredMock(total, size, k - 1);
      assert seq(k, i => i + 1) == seq(k - 1, i => i + 1) + [k];
      GatheredAppend(fetch, seq(k - 1, i => i + 1), k);
      var n := PageResults(total, size, k);
      assert |PageData(fetch, k)| == n;
      MulStep(k, size);
    }
  }

  /** Listing without an explicit page requests the pages 1..ceil(total / size) in order
      and returns every one of the `total` results. */
  lemma ListAllResults(total: int, size: int, opts: Option<ListOptions>)
    requires 0 < total < MaxInt && 0 < size
    requires Normalize(opts).pageOptions.value.page <= 0
    ensures Paginate(MockServer(total, size), NoOptionError, opts).requested == seq(PageCount(total, size), i => i + 1)
    ensures Paginate(MockServer(total, size), NoOptionError, opts).result.Success?
    ensures |Paginate(MockServer(total, size), NoOptionError, opts).result.value| == total
  {
    var c := PageCount(total, size);
    var fetch := MockServer(total, size);
    assert forall p :: 1 <= p <= c ==> fetch(p).Success? && fetch(p).value.pages == c;
    UniformPagesAreAllFetched(fetch, NoOptionError, opts, c);
    GatheredMock(total, size, c);
    PageCountBounds(total, size);
  }

  /** A server with no results at all: page 1 reports zero pages and no data, and any other
      page is an error. */
  function EmptyServer(): (fetch: Fetch<int>)
    ensures Bounded(fetch)
    ensures fetch(1) == Success(PaginatedResponse(1, 0, 0, []))
  {
    page => if page == 1 then Success(PaginatedResponse(1, 0, 0, [])) else Failure(Error("no such page"))
  }

  /** With no results, page 1 is still requested (lines 69-77 fetch it before reading any
      count), and it is the only page: the call succeeds with an empty list. So the requests
      are not ceil(0 / size) = 0 pages but one. */
  lemma ListNoResults(opts: Option<ListOptions>)
    requires Normalize(opts).pageOptions.value.page <= 0
    ensures Paginate(EmptyServer(), NoOptionError, opts).requested == [1]
    ensures Paginate(EmptyServer(), NoOptionError, opts).result == Success([])
  {
    var o := Normalize(opts);
    var fetch := EmptyServer();
    var first := Record(o, 1, fetch(1).value);
    RestPagesStep(fetch, 2, first, []);
  }

  /** The test's numbers: 4231 ranges served 500 to a page come back whole, from pages 1..9. */
  lemma ListManyRanges(opts: Option<ListOptions>)
    requires Normalize(opts).pageOptions.value.page <= 0
    ensures Paginate(MockServer(4231, 500), NoOptionError, opts).requested == [1, 2, 3, 4, 5, 6, 7, 8, 9]
    ensures |Paginate(MockServer(4231, 500), NoOptionError, opts).result.value| == 4231
  {
    ListAllResults(4231, 500, opts);
    assert PageCount(4231, 500) == 9;
    assert seq(9, i => i + 1) == [1, 2, 3, 4, 5, 6, 7, 8, 9];
  }
}
