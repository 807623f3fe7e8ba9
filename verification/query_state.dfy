/** The global query state `{page, size, order, query}` and the event handlers that
    change it, with the parameter list each fetch builds from it. The re-fetch each
    handler triggers is reported, not performed; the debounce timer is reduced to
    whether a search is pending. */
module QueryState {
  import opened Text

  /** A snapshot of the query state. */
  datatype Query = Query(page: int, size: int, order: string, query: string)

  /** The state app.js starts from. */
  const Initial: Query := Query(1, 24, "DESC", "")

  /** The request parameters a fetch sends for `q`, in order: `size`, `page`, `order`,
      then `q` only for a non-empty search text. */
  function RequestParams(q: Query): (ps: seq<(string, string)>)
    ensures |ps| >= 3
    ensures ps[0] == ("size", Decimal(q.size)) && ps[1] == ("page", Decimal(q.page)) && ps[2] == ("order", q.order)
    ensures (exists i :: 0 <= i < |ps| && ps[i].0 == "q") <==> q.query != ""
    ensures q.query != "" ==> |ps| == 4 && ps[3] == ("q", q.query)
    ensures q.query == "" ==> |ps| == 3
  {
    var base := [("size", Decimal(q.size)), ("page", Decimal(q.page)), ("order", q.order)];
    if q.query != "" then
      var ps := base + [("q", q.query)];
      assert ps[3].0 == "q";
      ps
    else base
  }

  /** The page number sent with a request reads back as the state's page. */
  lemma RequestPageReadsBack(q: Query)
    ensures ParseDecimal(RequestParams(q)[1].1) == q.page
  {
    DecimalRoundTrip(q.page);
  }

  /** The mutable `state` object, with the handlers that change it. */
  class State {
    var page: int
    var size: int
    var order: string
    var query: string
    /** The debounce timer `searchTimer` is set and has not fired yet. */
    var searchPending: bool

    /** Pages are numbered from 1. */
    ghost predicate Valid()
      reads this
    {
      page >= 1
    }

    /** The four query fields. */
    function Value(): Query
      reads this
    {
      Query(page, size, order, query)
    }

    constructor ()
      ensures Valid() && Value() == Initial && !searchPending
    {
      page, size, order, query := 1, 24, "DESC", "";
      searchPending := false;
    }

    /** The page-size select changed: the new size, back to page 1; a fetch follows. */
    method ChangeSize(newSize: int)
      requires Valid()
      modifies this
      ensures Valid()
      ensures Value() == old(Value()).(size := newSize, page := 1)
      ensures searchPending == old(searchPending)
    {
      size := newSize;
      page := 1;
    }

    /** The order select changed: the new order, back to page 1; a fetch follows. */
    method ChangeOrder(newOrder: string)
      requires Valid()
      modifies this
      ensures Valid()
      ensures Value() == old(Value()).(order := newOrder, page := 1)
      ensures searchPending == old(searchPending)
    {
      order := newOrder;
      page := 1;
    }

    /** The previous-page button: on page 1 nothing happens and nothing is fetched;
        otherwise the page goes down by one and a fetch follows. */
    method Prev() returns (fetch: bool)
      requires Valid()
      modifies this
      ensures Valid()
      ensures fetch <==> old(page) > 1
      ensures Value() == if fetch then old(Value()).(page := old(page) - 1) else old(Value())
      ensures searchPending == old(searchPending)
    {
      fetch := false;
      if page > 1 {
        page := page - 1;
        fetch := true;
      }
    }

    /** The next-page button: the page goes up by one, with no upper bound (the
        integers here are unbounded); a fetch follows. */
    method Next()
      requires Valid()
      modifies this
      ensures Valid()
      ensures Value() == old(Value()).(page := old(page) + 1)
      ensures searchPending == old(searchPending)
    {
      page := page + 1;
    }

    /** A keystroke in the search box: the trimmed text becomes the query at once; any
        pending timer is replaced by a new one, and nothing is fetched yet. */
    method SearchInput(text: string)
      requires Valid()
      modifies this
      ensures Valid()
      ensures Value() == old(Value()).(query := Trim(text))
      ensures searchPending
    {
      query := Trim(text);
      searchPending := true;
    }

    /** The debounce timer fires: back to page 1, and a fetch follows with the query
        the last keystroke left. */
    method SearchTimerFires()
      requires Valid() && searchPending
      modifies this
      ensures Valid()
      ensures Value() == old(Value()).(page := 1)
      ensures !searchPending
    {
      page := 1;
      searchPending := false;
    }
  }

  /** A burst of keystrokes followed by one timer firing leads to one fetch on page 1,
      searching for the last keystroke's text, trimmed. */
  method SearchBurst(s: State, texts: seq<string>)
    requires s.Valid() && |texts| > 0
    modifies s
    ensures s.Valid() && !s.searchPending
    ensures s.Value() == old(s.Value()).(page := 1, query := Trim(texts[|texts| - 1]))
  {
    var i := 0;
    while i < |texts|
      invariant 0 <= i <= |texts|
      invariant s.Valid()
      invariant i > 0 ==> s.searchPending
      invariant s.Value() == if i == 0 then old(s.Value()) else old(s.Value()).(query := Trim(texts[i - 1]))
    {
      s.SearchInput(texts[i]);
      i := i + 1;
    }
    s.SearchTimerFires();
  }
}
