/**
 * The paginated retreat search: the URL rule, the pagination controls, and a
 * controller holding the component's state, its 400 ms debounce timer as a
 * single pending slot, and the requests it has issued.
 */
module RetreatSearch {
  import opened Wrappers
  import opened Text
  import opened Listing
  import opened Session

  const ApiRetreats := "http://localhost:5000/api/retreats"
  const ListingPrefix := ApiRetreats + "?page="
  const SearchPrefix := ApiRetreats + "/search?search="
  const PageParam := "&page="
  const LimitParam := "&limit=5"
  const LoginAlertText := "Please login to book a retreat"

  /** The `(searchTerm, currentPage)` pair a fetch is made for. */
  datatype Query = Query(term: string, page: nat)

  /**
   * The GET address `fetchRetreats` requests: the search endpoint for a
   * non-empty term, inserted without encoding, the plain listing otherwise;
   * always five items per page.
   */
  function RetreatsUrl(q: Query): (url: string)
    ensures (q.term != "") <==> SearchPrefix <= url
    ensures q.term == "" ==> ListingPrefix <= url
    ensures |url| >= |LimitParam| && url[|url| - |LimitParam|..] == LimitParam
  {
    if q.term != "" then SearchPrefix + q.term + PageParam + NatToString(q.page) + LimitParam
    else
      var url := ListingPrefix + NatToString(q.page) + LimitParam;
      assert url[|ApiRetreats|] == '?' != SearchPrefix[|ApiRetreats|];
      url
  }

  /** The part of an address before the page number. */
  function UrlHead(term: string): string
  {
    if term != "" then SearchPrefix + term + PageParam else ListingPrefix
  }

  lemma RetreatsUrlParts(q: Query)
    ensures RetreatsUrl(q) == UrlHead(q.term) + NatToString(q.page) + LimitParam
  {
  }

  /** Splits an address ending in `<digits>&limit=5` into what precedes the digits and their value. */
  function SplitPage(url: string): Option<(string, nat)>
  {
    if |url| < |LimitParam| || url[|url| - |LimitParam|..] != LimitParam then None
    else
      var body := url[..|url| - |LimitParam|];
      var digits := TrailingDigits(body);
      if digits == [] then None
      else Some((body[..|body| - |digits|], DigitsValue(digits)))
  }

  /** The term a head denotes, or `None` when it is no head `UrlHead` writes. */
  function DecodeHead(head: string): Option<string>
  {
    if head == ListingPrefix then Some("")
    else if SearchPrefix <= head && |head| > |SearchPrefix| + |PageParam|
         && head[|head| - |PageParam|..] == PageParam
    then Some(head[|SearchPrefix|..|head| - |PageParam|])
    else None
  }

  /** Recovers the query from an address in the form `RetreatsUrl` writes; `None` for any other text. */
  function DecodeRetreatsUrl(url: string): Option<Query>
  {
    match SplitPage(url)
    case None => None
    case Some((head, page)) =>
      match DecodeHead(head)
      case None => None
      case Some(term) => Some(Query(term, page))
  }

  lemma ConcatSlices(x: string, s: string)
    ensures (x + s)[|x|..] == s && (x + s)[..|x|] == x
  {
  }

  lemma SplitPageOf(head: string, n: nat)
    requires head != [] && !IsDigit(head[|head| - 1])
    ensures SplitPage(head + NatToString(n) + LimitParam) == Some((head, n))
  {
    var d := NatToString(n);
    var body := head + d;
    ConcatSlices(body, LimitParam);
    var url := body + LimitParam;
    assert |url| - |LimitParam| == |body|;
    TrailingDigitsAfter(head, d);
    DigitsValueOfNatToString(n);
    ConcatSlices(head, d);
    assert |body| - |d| == |head|;
  }

  lemma DecodeHeadOf(term: string)
    ensures DecodeHead(UrlHead(term)) == Some(term)
  {
    if term != "" {
      var head := UrlHead(term);
      assert head[|SearchPrefix|..|head| - |PageParam|] == term;
      assert head[|ApiRetreats|] == SearchPrefix[|ApiRetreats|] == '/';
      assert ListingPrefix[|ApiRetreats|] == '?';
    }
  }

  /** The address determines the query: decoding `RetreatsUrl(q)` gives `q` back. */
  lemma DecodeRetreatsUrlOf(q: Query)
    ensures DecodeRetreatsUrl(RetreatsUrl(q)) == Some(q)
  {
    RetreatsUrlParts(q);
    var head := UrlHead(q.term);
    assert head[|head| - 1] == '=';
    SplitPageOf(head, q.page);
    DecodeHeadOf(q.term);
  }

  /** Different queries never share an address. */
  lemma RetreatsUrlInjective(q1: Query, q2: Query)
    requires RetreatsUrl(q1) == RetreatsUrl(q2)
    ensures q1 == q2
  {
    DecodeRetreatsUrlOf(q1);
    DecodeRetreatsUrlOf(q2);
  }

  /** One numbered pagination link. */
  datatype PageLink = PageLink(number: nat, active: bool)

  /** `Array.from({length: totalPages}, …)`: links 1..totalPages, a non-positive count giving none. */
  function PageLinks(totalPages: int, currentPage: int): (links: seq<PageLink>)
    ensures |links| == if totalPages > 0 then totalPages else 0
    ensures forall i :: 0 <= i < |links| ==> links[i].number == i + 1
    ensures forall i :: 0 <= i < |links| ==> (links[i].active <==> currentPage == i + 1)
  {
    seq(if totalPages > 0 then totalPages else 0, i requires 0 <= i => PageLink(i + 1, currentPage == i + 1))
  }

  /** Exactly one link is active when the current page is in range, none otherwise. */
  lemma ActiveLinkUnique(totalPages: int, currentPage: int)
    ensures var links := PageLinks(totalPages, currentPage);
      (exists i :: 0 <= i < |links| && links[i].active) <==> 1 <= currentPage <= totalPages
    ensures var links := PageLinks(totalPages, currentPage);
      forall i, j :: 0 <= i < |links| && 0 <= j < |links| && links[i].active && links[j].active ==> i == j
  {
    var links := PageLinks(totalPages, currentPage);
    if 1 <= currentPage <= totalPages {
      assert links[currentPage - 1].active;
    }
  }

  /** The "Previous" guard: the page to move to, if any. */
  function PreviousPage(currentPage: nat): (r: Option<nat>)
    ensures r.Some? <==> currentPage > 1
    ensures r.Some? ==> r.value == currentPage - 1
  {
    if currentPage > 1 then Some(currentPage - 1) else None
  }

  /** The "Next" guard: the page to move to, if any. */
  function NextPage(currentPage: nat, totalPages: int): (r: Option<nat>)
    ensures r.Some? <==> currentPage < totalPages
    ensures r.Some? ==> r.value == currentPage + 1
  {
    if currentPage < totalPages then Some(currentPage + 1) else None
  }

  /** Neither control leaves the pages 1..totalPages it moves within, and each undoes the other. */
  lemma PageMoves(currentPage: nat, totalPages: int)
    requires currentPage >= 1
    ensures PreviousPage(currentPage).Some? ==> 1 <= PreviousPage(currentPage).value < currentPage
    ensures NextPage(currentPage, totalPages).Some? ==>
      currentPage < NextPage(currentPage, totalPages).value <= totalPages
    ensures PreviousPage(currentPage).Some? && currentPage <= totalPages ==>
      NextPage(PreviousPage(currentPage).value, totalPages) == Some(currentPage)
    ensures NextPage(currentPage, totalPages).Some? ==>
      PreviousPage(NextPage(currentPage, totalPages).value) == Some(currentPage)
  {
  }

  /** The list without its `k`-th element. */
  function RemoveAt<T>(s: seq<T>, k: nat): (r: seq<T>)
    requires k < |s|
    ensures |r| == |s| - 1
    ensures forall i :: 0 <= i < |r| ==> r[i] == if i < k then s[i] else s[i + 1]
  {
    s[..k] + s[k + 1..]
  }

  /** The state of the search component. */
  class SearchController {
    var retreats: seq<Retreat>
    var loading: bool
    var searchTerm: string
    var currentPage: nat
    var totalPages: int
    /** The debounce timer: the query it will fetch when it fires, `None` when no timer is set. */
    var pending: Option<Query>
    /** Every address requested, in order. */
    var requests: seq<string>
    /** Requests whose response has not been handled yet; nothing cancels them. */
    var inFlight: seq<Query>
    /** Number of `console.error` reports of failed fetches. */
    var errorsLogged: nat

    ghost predicate Valid()
      reads this
    {
      && currentPage >= 1
      && (pending.Some? ==> pending.value == Query(searchTerm, currentPage))
      && |inFlight| <= |requests|
      && (loading <==> |inFlight| == |requests|)
      && (forall i :: 0 <= i < |inFlight| ==> RetreatsUrl(inFlight[i]) in requests)
    }

    ghost function CurrentQuery(): Query
      reads this
    {
      Query(searchTerm, currentPage)
    }

    /** What is on screen. */
    ghost function Shown(): (seq<Retreat>, int, bool)
      reads this
    {
      (retreats, totalPages, loading)
    }

    /** What has gone over the network or to the console. */
    ghost function Traffic(): (seq<string>, seq<Query>, nat)
      reads this
    {
      (requests, inFlight, errorsLogged)
    }

    /**
     * Mounting: the debounce effect schedules a fetch for `("", 1)` and the
     * mount effect fetches `("", 1)` at once.
     */
    constructor ()
      ensures Valid()
      ensures retreats == [] && loading && totalPages == 1
      ensures CurrentQuery() == Query("", 1)
      ensures pending == Some(Query("", 1))
      ensures requests == [RetreatsUrl(Query("", 1))] && inFlight == [Query("", 1)]
      ensures errorsLogged == 0
    {
      retreats := [];
      loading := true;
      searchTerm := "";
      currentPage := 1;
      totalPages := 1;
      pending := Some(Query("", 1));
      requests := [RetreatsUrl(Query("", 1))];
      inFlight := [Query("", 1)];
      errorsLogged := 0;
    }

    /** The request half of `fetchRetreats(term, page)`. */
    method Fetch(q: Query)
      requires Valid()
      modifies this
      ensures Valid()
      ensures requests == old(requests) + [RetreatsUrl(q)] && inFlight == old(inFlight) + [q]
      ensures errorsLogged == old(errorsLogged)
      ensures Shown() == old(Shown()) && CurrentQuery() == old(CurrentQuery()) && pending == old(pending)
    {
      requests := requests + [RetreatsUrl(q)];
      inFlight := inFlight + [q];
    }

    /** A response for the `k`-th outstanding request arrives: its data replaces what is shown. */
    method FetchSucceeded(k: nat, items: seq<Retreat>, total: int)
      requires Valid() && k < |inFlight|
      modifies this
      ensures Valid()
      ensures retreats == items && totalPages == total && !loading
      ensures inFlight == RemoveAt(old(inFlight), k)
      ensures requests == old(requests) && errorsLogged == old(errorsLogged)
      ensures CurrentQuery() == old(CurrentQuery()) && pending == old(pending)
    {
      retreats := items;
      totalPages := total;
      inFlight := RemoveAt(inFlight, k);
      loading := false;
    }

    /** The `k`-th outstanding request fails; an abort is not reported, any other failure is logged. */
    method FetchFailed(k: nat, isAbort: bool)
      requires Valid() && k < |inFlight|
      modifies this
      ensures Valid()
      ensures retreats == old(retreats) && totalPages == old(totalPages) && !loading
      ensures inFlight == RemoveAt(old(inFlight), k)
      ensures errorsLogged == if isAbort then old(errorsLogged) else old(errorsLogged) + 1
      ensures requests == old(requests)
      ensures CurrentQuery() == old(CurrentQuery()) && pending == old(pending)
    {
      if !isAbort {
        errorsLogged := errorsLogged + 1;
      }
      inFlight := RemoveAt(inFlight, k);
      loading := false;
    }

    /** The debounce timer fires and fetches the query it was set for, which is the current one. */
    method FireTimer()
      requires Valid() && pending.Some?
      modifies this
      ensures Valid()
      ensures pending == None
      ensures requests == old(requests) + [RetreatsUrl(old(CurrentQuery()))]
      ensures inFlight == old(inFlight) + [old(CurrentQuery())]
      ensures errorsLogged == old(errorsLogged)
      ensures Shown() == old(Shown()) && CurrentQuery() == old(CurrentQuery())
    {
      var q := pending.value;
      pending := None;
      Fetch(q);
    }

    /** `handleChange`: only the term changes; a different value clears the timer and sets a new one. */
    method HandleChange(value: string)
      requires Valid() && !loading
      modifies this
      ensures Valid()
      ensures searchTerm == value && currentPage == old(currentPage)
      ensures pending == if value != old(searchTerm) then Some(CurrentQuery()) else old(pending)
      ensures Shown() == old(Shown()) && Traffic() == old(Traffic())
    {
      if value != searchTerm {
        searchTerm := value;
        pending := Some(Query(searchTerm, currentPage));
      }
    }

    /** `onSubmit`: fetch the current query at once; a pending timer is left to fire. */
    method OnSubmit()
      requires Valid() && !loading
      modifies this
      ensures Valid()
      ensures requests == old(requests) + [RetreatsUrl(CurrentQuery())]
      ensures inFlight == old(inFlight) + [CurrentQuery()]
      ensures errorsLogged == old(errorsLogged)
      ensures Shown() == old(Shown()) && CurrentQuery() == old(CurrentQuery()) && pending == old(pending)
    {
      Fetch(Query(searchTerm, currentPage));
    }

    /** `handlePageChange`: only the page changes; a different page clears the timer and sets a new one. */
    method HandlePageChange(page: nat)
      requires Valid() && !loading && page >= 1
      modifies this
      ensures Valid()
      ensures currentPage == page && searchTerm == old(searchTerm)
      ensures pending == if page != old(currentPage) then Some(CurrentQuery()) else old(pending)
      ensures Shown() == old(Shown()) && Traffic() == old(Traffic())
    {
      if page != currentPage {
        currentPage := page;
        pending := Some(Query(searchTerm, currentPage));
      }
    }

    /** The "Previous" control. */
    method HandlePrevious()
      requires Valid() && !loading
      modifies this
      ensures Valid()
      ensures old(currentPage) > 1 ==> currentPage == old(currentPage) - 1 && pending == Some(CurrentQuery())
      ensures old(currentPage) <= 1 ==> currentPage == old(currentPage) && pending == old(pending)
      ensures searchTerm == old(searchTerm)
      ensures Shown() == old(Shown()) && Traffic() == old(Traffic())
    {
      match PreviousPage(currentPage)
      case Some(p) => HandlePageChange(p);
      case None =>
    }

    /** The "Next" control. */
    method HandleNext()
      requires Valid() && !loading
      modifies this
      ensures Valid()
      ensures old(currentPage) < totalPages ==> currentPage == old(currentPage) + 1 && pending == Some(CurrentQuery())
      ensures old(currentPage) >= totalPages ==> currentPage == old(currentPage) && pending == old(pending)
      ensures searchTerm == old(searchTerm)
      ensures Shown() == old(Shown()) && Traffic() == old(Traffic())
    {
      match NextPage(currentPage, totalPages)
      case Some(p) => HandlePageChange(p);
      case None =>
    }

    /** The numbered link at position `i` of `PageLinks(totalPages, currentPage)`. */
    method HandlePageLink(i: nat)
      requires Valid() && !loading && i < |PageLinks(totalPages, currentPage)|
      modifies this
      ensures Valid()
      ensures currentPage == i + 1 && searchTerm == old(searchTerm)
      ensures pending == if i + 1 != old(currentPage) then Some(CurrentQuery()) else old(pending)
      ensures Shown() == old(Shown()) && Traffic() == old(Traffic())
    {
      HandlePageChange(PageLinks(totalPages, currentPage)[i].number);
    }

    /**
     * `handleBook`, run by a "Book Now" button of a listed retreat: a visitor
     * who is not logged in gets the login alert; nothing else happens.
     */
    method HandleBook(session: Session) returns (alert: Option<string>)
      requires !loading && retreats != []
      ensures alert.Some? <==> !session.loggedIn
      ensures alert.Some? ==> alert.value == LoginAlertText
    {
      if session.loggedIn == false {
        alert := Some(LoginAlertText);
      } else {
        alert := None;
      }
    }
  }

  /**
   * A burst of keystrokes, each arriving before the timer fires, ending in a
   * real change and followed by a quiet period: exactly one request goes out,
   * for the last value typed and the unchanged page.
   */
  method TypingBurstSettlesOnce(c: SearchController, keystrokes: seq<string>)
    requires c.Valid() && !c.loading && |keystrokes| > 0
    requires keystrokes[|keystrokes| - 1] !=
      if |keystrokes| == 1 then c.searchTerm else keystrokes[|keystrokes| - 2]
    modifies c
    ensures c.Valid()
    ensures c.requests == old(c.requests) + [RetreatsUrl(Query(keystrokes[|keystrokes| - 1], old(c.currentPage)))]
    ensures c.CurrentQuery() == Query(keystrokes[|keystrokes| - 1], old(c.currentPage))
    ensures c.pending == None
  {
    var n := |keystrokes|;
    for i := 0 to n - 1
      invariant c.Valid() && !c.loading
      invariant c.requests == old(c.requests) && c.currentPage == old(c.currentPage)
      invariant c.searchTerm == if i == 0 then old(c.searchTerm) else keystrokes[i - 1]
    {
      c.HandleChange(keystrokes[i]);
    }
    c.HandleChange(keystrokes[n - 1]);
    c.FireTimer();
  }

  /**
   * Mounting, the mount's listing response arriving, and then typing "yoga"
   * before the mount's timer fires: the listing request from mounting, then
   * one search request for page 1.
   */
  method MountThenSearchYoga(listingItems: seq<Retreat>) returns (urls: seq<string>)
    ensures urls == [ListingPrefix + "1" + LimitParam, SearchPrefix + "yoga" + PageParam + "1" + LimitParam]
  {
    var c := new SearchController();
    c.FetchSucceeded(0, listingItems, 1);
    c.HandleChange("y");
    c.HandleChange("yo");
    c.HandleChange("yog");
    c.HandleChange("yoga");
    c.FireTimer();
    urls := c.requests;
    assert NatToString(1) == "1";
  }

  /**
   * Requests are never cancelled, so a slow response to an earlier query
   * replaces the results of a later one. The mount's debounced listing
   * request is answered first; the immediate one is still outstanding when
   * "yoga" is searched, and its response, arriving last, is what is shown.
   */
  method StaleResponseWins(firstItems: seq<Retreat>, listingItems: seq<Retreat>, yogaItems: seq<Retreat>)
    returns (term: string, shown: seq<Retreat>)
    ensures term == "yoga" && shown == listingItems
  {
    var c := new SearchController();
    c.FireTimer();
    c.FetchSucceeded(1, firstItems, 1);
    c.HandleChange("yoga");
    c.FireTimer();
    c.FetchSucceeded(1, yogaItems, 1);
    c.FetchSucceeded(0, listingItems, 3);
    term, shown := c.searchTerm, c.retreats;
  }
}
