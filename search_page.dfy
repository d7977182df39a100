/**
 * The search page's result state (client/src/pages/Search.jsx): the list of loaded listings,
 * the "Show more" flag and the loading flag, driven by the first-page fetch that runs on every
 * URL change and by the "Show more" button. A fetch is split at its `await`: one step up to the
 * request, one step when it settles, whose outcome is a parameter.
 */
module SearchPage {
  import opened Wrappers
  import opened UrlParams
  import opened SearchFilter

  /** A listing summary as the API returns it; the page only keeps and shows it. */
  datatype Listing = Listing(id: string)

  /** How one fetch settles: the decoded array of listings, or a thrown error. */
  datatype Response = Page(items: seq<Listing>) | Failed

  /** The notification a settled fetch shows, if any. */
  datatype Toast = NoToast | InfoToast(message: string) | ErrorToast(message: string)

  /** After the first page: more may exist when the page held more than 8 listings. */
  function MoreAfterFirstPage(count: nat): bool
  {
    count > 8
  }

  /** After a further page: more may exist when the page held at least 9 listings. */
  function MoreAfterNextPage(count: nat): bool
  {
    count >= 9
  }

  /** The two thresholds, written differently in the page, are the same rule on counts. */
  lemma ThresholdsAgree(count: nat)
    ensures MoreAfterFirstPage(count) == MoreAfterNextPage(count)
  {
  }

  // ---------------------------------------------------------------- startIndex as text

  function DigitChar(d: nat): (c: char)
    requires d < 10
    ensures '0' <= c <= '9'
  {
    ('0' as int + d) as char
  }

  /** `String(n)` for a count: its decimal digits, most significant first. */
  function Decimal(n: nat): (s: string)
    ensures |s| >= 1
    ensures forall i :: 0 <= i < |s| ==> '0' <= s[i] <= '9'
  {
    if n < 10 then [DigitChar(n)] else Decimal(n / 10) + [DigitChar(n % 10)]
  }

  /** The number a string of decimal digits denotes, as the server reads `startIndex`. */
  function DecimalValue(s: string): nat
    requires forall i :: 0 <= i < |s| ==> '0' <= s[i] <= '9'
  {
    if s == [] then 0
    else 10 * DecimalValue(s[..|s| - 1]) + (s[|s| - 1] as int - '0' as int)
  }

  /** The offset the page sends reads back as the count it was made from. */
  lemma {:induction false} DecimalRoundTrip(n: nat)
    ensures DecimalValue(Decimal(n)) == n
  {
    if n >= 10 {
      DecimalRoundTrip(n / 10);
      var s := Decimal(n / 10);
      assert (s + [DigitChar(n % 10)])[..|s|] == s;
    }
  }

  // ---------------------------------------------------------------- the page

  class SearchPage {
    /** `location.search`, decoded. */
    var location: Pairs
    /** `sidebardata`. */
    var filter: Filter
    var loading: bool
    var listings: seq<Listing>
    var showMore: bool

    /** The state hooks' initial values. */
    constructor (location: Pairs)
      ensures this.location == location && filter == InitialFilter
      ensures !loading && listings == [] && !showMore
    {
      this.location := location;
      filter := InitialFilter;
      loading := false;
      listings := [];
      showMore := false;
    }

    /**
     * The effect on mount and on every URL change, up to the first-page request: the filter
     * is rebuilt from the recognised keys, `loading` is set, `showMore` cleared, and the
     * request carries only the recognised keys that the URL holds.
     */
    method BeginSearch(search: Pairs) returns (request: Pairs)
      modifies this
      ensures location == search
      ensures request == SelectParams(search, RecognizedParams)
      ensures filter == Normalize(request)
      ensures loading && !showMore && listings == old(listings)
    {
      location := search;
      var params := GetParams(search, RecognizedParams);
      filter := Normalize(params);
      loading := true;
      showMore := false;
      request := params;
    }

    /**
     * The first-page fetch settles: a page replaces the list wholesale and sets `showMore`
     * from its size (an empty page is a notice, not an error); a failure keeps the list; on
     * every path `loading` ends false.
     */
    method FinishSearch(response: Response) returns (toast: Toast)
      modifies this
      ensures !loading
      ensures location == old(location) && filter == old(filter)
      ensures response.Page? ==>
                listings == response.items && showMore == MoreAfterFirstPage(|response.items|)
      ensures response.Failed? ==> listings == old(listings) && showMore == old(showMore)
      ensures toast.ErrorToast? <==> response.Failed?
      ensures toast.InfoToast? <==> response == Page([])
    {
      toast := NoToast;
      match response {
        case Page(items) =>
          if |items| == 0 {
            toast := InfoToast("No listings found!");
          }
          showMore := MoreAfterFirstPage(|items|);
          listings := items;
        case Failed =>
          toast := ErrorToast("Failed to fetch listings.");
      }
      loading := false;
    }

    /**
     * The request "Show more" sends: the current URL with `startIndex` set to the number of
     * listings already loaded; every other key is sent as the URL has it. Nothing changes.
     */
    method ShowMoreRequest() returns (request: Pairs)
      ensures Lookup(request, "startIndex") == Some(Decimal(|listings|))
      ensures DecimalValue(Lookup(request, "startIndex").value) == |listings|
      ensures forall k :: k != "startIndex" ==> Lookup(request, k) == Lookup(location, k)
    {
      var startIndex := |listings|;
      request := Set(location, "startIndex", Decimal(startIndex));
      DecimalRoundTrip(startIndex);
    }

    /**
     * The "Show more" fetch settles: a page is appended after the loaded listings, in order,
     * and sets `showMore` from its size; a failure changes nothing but shows an error.
     */
    method FinishShowMore(response: Response) returns (toast: Toast)
      modifies this
      ensures location == old(location) && filter == old(filter) && loading == old(loading)
      ensures response.Page? ==>
                listings == old(listings) + response.items &&
                showMore == MoreAfterNextPage(|response.items|)
      ensures response.Failed? ==> listings == old(listings) && showMore == old(showMore)
      ensures toast.ErrorToast? <==> response.Failed?
      ensures !toast.InfoToast?
    {
      match response {
        case Page(items) =>
          showMore := MoreAfterNextPage(|items|);
          listings := listings + items;
          toast := NoToast;
        case Failed =>
          toast := ErrorToast("Failed to fetch more listings.");
      }
    }

    /** `handleChange`: the sidebar's draft filter takes one edit; nothing is fetched. */
    method HandleChange(e: ChangeEvent)
      modifies this
      ensures filter == ApplyChange(old(filter), e)
      ensures location == old(location) && loading == old(loading)
      ensures listings == old(listings) && showMore == old(showMore)
    {
      filter := ApplyChange(filter, e);
    }

    /** `handleSubmit`: the URL to navigate to holds every field of the current filter. */
    method Submit() returns (url: Pairs)
      ensures url == Encode(filter)
    {
      url := EncodeFilter(filter);
    }
  }
}
