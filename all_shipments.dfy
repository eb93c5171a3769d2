/** The all-shipments page: search, status and date filters applied one after another,
    `clearFilters`, `hasActiveFilters`, the status badge, and the fetch that fills the list. */
module AllShipments {
  import opened Wrappers
  import opened Seqs
  import opened Text
  import opened ShipmentTypes

  /** The instants the date filter compares against, in milliseconds: the start of today,
      seven days ago and one month ago, as the page computes them from the clock. */
  datatype DateThresholds = DateThresholds(today: int, week: int, month: int)

  /** The search step: the untrimmed, lower-cased query occurs in one of six lower-cased fields. */
  predicate MatchesQuery(sh: ShipmentData, query: string)
  {
    var q := Lower(query);
    Contains(Lower(sh.shipment_id), q) || Contains(Lower(sh.sender), q)
    || Contains(Lower(sh.receiver), q) || Contains(Lower(sh.contents), q)
    || Contains(Lower(sh.current_location), q) || Contains(Lower(sh.current_owner), q)
  }

  /** The search step keeps a shipment: a blank query filters nothing. */
  predicate SearchKeeps(sh: ShipmentData, searchQuery: string)
  {
    IsBlank(searchQuery) || MatchesQuery(sh, searchQuery)
  }

  /** The status step keeps a shipment: "all" keeps everything, otherwise the statuses must be
      equal ignoring case. */
  predicate StatusKeeps(sh: ShipmentData, statusFilter: string)
  {
    statusFilter == "all" || Lower(sh.status) == Lower(statusFilter)
  }

  /** The threshold of a date-filter value; "all" and unrecognised values have none. */
  function DateThreshold(dateFilter: string, th: DateThresholds): Option<int>
  {
    match dateFilter
    case "today" => Some(th.today)
    case "week" => Some(th.week)
    case "month" => Some(th.month)
    case _ => None
  }

  /** The date step keeps a shipment created at or after the threshold; a creation date that does
      not parse compares false and is dropped. */
  predicate DateKeeps(sh: ShipmentData, dateFilter: string, th: DateThresholds)
  {
    match DateThreshold(dateFilter, th)
    case None => true
    case Some(t) => sh.created_at.Some? && sh.created_at.value >= t
  }

  predicate KeepsShipment(sh: ShipmentData, searchQuery: string, statusFilter: string, dateFilter: string, th: DateThresholds)
  {
    SearchKeeps(sh, searchQuery) && StatusKeeps(sh, statusFilter) && DateKeeps(sh, dateFilter, th)
  }

  /** The predicates the page's successive `filter` calls use. */
  function QueryStep(query: string): ShipmentData -> bool
  {
    (sh: ShipmentData) => MatchesQuery(sh, query)
  }

  function StatusStep(statusFilter: string): ShipmentData -> bool
  {
    (sh: ShipmentData) => Lower(sh.status) == Lower(statusFilter)
  }

  function DateStep(t: int): ShipmentData -> bool
  {
    (sh: ShipmentData) => sh.created_at.Some? && sh.created_at.value >= t
  }

  /** What the list has been narrowed by after the first step, the first two steps, and all three. */
  function BySearch(searchQuery: string): ShipmentData -> bool
  {
    (sh: ShipmentData) => SearchKeeps(sh, searchQuery)
  }

  function BySearchStatus(searchQuery: string, statusFilter: string): ShipmentData -> bool
  {
    (sh: ShipmentData) => SearchKeeps(sh, searchQuery) && StatusKeeps(sh, statusFilter)
  }

  function ByAll(searchQuery: string, statusFilter: string, dateFilter: string, th: DateThresholds): ShipmentData -> bool
  {
    (sh: ShipmentData) => KeepsShipment(sh, searchQuery, statusFilter, dateFilter, th)
  }

  /** The list the page shows: one filter by the conjunction of the three steps. */
  function Shown(shipments: seq<ShipmentData>, searchQuery: string, statusFilter: string, dateFilter: string, th: DateThresholds): (r: seq<ShipmentData>)
    ensures |r| <= |shipments|
    ensures forall i :: 0 <= i < |r| ==> r[i] in shipments && KeepsShipment(r[i], searchQuery, statusFilter, dateFilter, th)
  {
    Filter(shipments, ByAll(searchQuery, statusFilter, dateFilter, th))
  }

  /** `filteredShipments`: copies the list and narrows it step by step. The result is the single
      conjunctive filter, so it is the intersection of the three individual filters. */
  method FilteredShipments(shipments: seq<ShipmentData>, searchQuery: string, statusFilter: string, dateFilter: string, th: DateThresholds)
    returns (filtered: seq<ShipmentData>)
    ensures filtered == Shown(shipments, searchQuery, statusFilter, dateFilter, th)
  {
    filtered := shipments;

    // Search filter
    if !IsBlank(searchQuery) {
      filtered := Filter(filtered, QueryStep(searchQuery));
      FilterExtensional(shipments, QueryStep(searchQuery), BySearch(searchQuery));
    } else {
      FilterKeepsAll(shipments, BySearch(searchQuery));
    }

    // Status filter
    if statusFilter != "all" {
      filtered := Filter(filtered, StatusStep(statusFilter));
      FilterFilter(shipments, BySearch(searchQuery), StatusStep(statusFilter), BySearchStatus(searchQuery, statusFilter));
    } else {
      FilterExtensional(shipments, BySearch(searchQuery), BySearchStatus(searchQuery, statusFilter));
    }

    // Date filter
    var threshold := if dateFilter != "all" then DateThreshold(dateFilter, th) else None;
    if threshold.Some? {
      filtered := Filter(filtered, DateStep(threshold.value));
      FilterFilter(shipments, BySearchStatus(searchQuery, statusFilter), DateStep(threshold.value),
                   ByAll(searchQuery, statusFilter, dateFilter, th));
    } else {
      FilterExtensional(shipments, BySearchStatus(searchQuery, statusFilter), ByAll(searchQuery, statusFilter, dateFilter, th));
    }
  }

  /** The shown list keeps the fetched order. */
  lemma ShownIsSubsequence(shipments: seq<ShipmentData>, searchQuery: string, statusFilter: string, dateFilter: string, th: DateThresholds)
    ensures IsSubsequence(Shown(shipments, searchQuery, statusFilter, dateFilter, th), shipments)
  {
    FilterIsSubsequence(shipments, ByAll(searchQuery, statusFilter, dateFilter, th));
  }

  /** The conjunction of the three steps is the intersection of the three one-step lists. */
  lemma ShownIsIntersection(shipments: seq<ShipmentData>, searchQuery: string, statusFilter: string, dateFilter: string, th: DateThresholds, sh: ShipmentData)
    ensures sh in Shown(shipments, searchQuery, statusFilter, dateFilter, th)
        <==> && sh in Filter(shipments, x => SearchKeeps(x, searchQuery))
             && sh in Filter(shipments, x => StatusKeeps(x, statusFilter))
             && sh in Filter(shipments, x => DateKeeps(x, dateFilter, th))
  {
    var shown := Shown(shipments, searchQuery, statusFilter, dateFilter, th);
    if sh in shown {
      var i :| 0 <= i < |shown| && shown[i] == sh;
      var j :| 0 <= j < |shipments| && shipments[j] == sh;
    }
    if sh in shipments && KeepsShipment(sh, searchQuery, statusFilter, dateFilter, th) {
      var j :| 0 <= j < |shipments| && shipments[j] == sh;
    }
    var bySearch := Filter(shipments, x => SearchKeeps(x, searchQuery));
    if sh in bySearch {
      var i :| 0 <= i < |bySearch| && bySearch[i] == sh;
    }
  }

  /** A blank or whitespace-only query filters nothing: the list is what the status and date
      steps alone give. */
  lemma BlankQueryFiltersNothing(shipments: seq<ShipmentData>, searchQuery: string, statusFilter: string, dateFilter: string, th: DateThresholds)
    requires forall i :: 0 <= i < |searchQuery| ==> IsWhitespace(searchQuery[i])
    ensures Shown(shipments, searchQuery, statusFilter, dateFilter, th)
         == Filter(shipments, sh => StatusKeeps(sh, statusFilter) && DateKeeps(sh, dateFilter, th))
  {
    BlankIffAllWhitespace(searchQuery);
    FilterExtensional(shipments, ByAll(searchQuery, statusFilter, dateFilter, th),
                      sh => StatusKeeps(sh, statusFilter) && DateKeeps(sh, dateFilter, th));
  }

  /** A non-blank query is used untrimmed: a leading space stops " abc" from matching a shipment
      whose every field is "abc". */
  lemma QueryIsNotTrimmed()
    ensures !SearchKeeps(ShipmentData("abc", "abc", "abc", "abc", "abc", "abc", "abc", None), " abc")
  {
    NotBlankWitness(" abc", 1);
  }

  /** The search step does not depend on the letter case of the query. */
  lemma QueryIgnoresCase(sh: ShipmentData, q1: string, q2: string)
    requires Lower(q1) == Lower(q2)
    ensures SearchKeeps(sh, q1) == SearchKeeps(sh, q2)
  {
    BlankLowerIff(q1);
    BlankLowerIff(q2);
  }

  /** A status filter other than "all" keeps exactly the shipments whose status equals it when
      both are lower-cased; "ALL" is such a filter, not a synonym of "all". */
  lemma StatusFilterIgnoresCase(sh: ShipmentData, statusFilter: string)
    requires statusFilter != "all"
    ensures StatusKeeps(sh, statusFilter) <==> Lower(sh.status) == Lower(statusFilter)
    ensures StatusKeeps(sh, "ALL") <==> Lower(sh.status) == "all"
  {
    assert Lower("ALL") == "all";
  }

  /** The date step keeps exactly the shipments created at or after the threshold of a recognised
      value, and every shipment for "all" or an unrecognised value. */
  lemma DateFilterMeaning(sh: ShipmentData, dateFilter: string, th: DateThresholds)
    ensures dateFilter == "today" ==> (DateKeeps(sh, dateFilter, th) <==> sh.created_at.Some? && sh.created_at.value >= th.today)
    ensures dateFilter == "week" ==> (DateKeeps(sh, dateFilter, th) <==> sh.created_at.Some? && sh.created_at.value >= th.week)
    ensures dateFilter == "month" ==> (DateKeeps(sh, dateFilter, th) <==> sh.created_at.Some? && sh.created_at.value >= th.month)
    ensures dateFilter != "today" && dateFilter != "week" && dateFilter != "month" ==> DateKeeps(sh, dateFilter, th)
  {
  }

  /** `hasActiveFilters`: a non-empty query (not trimmed) or a status or date filter other than "all". */
  predicate HasActiveFilters(searchQuery: string, statusFilter: string, dateFilter: string)
  {
    searchQuery != "" || statusFilter != "all" || dateFilter != "all"
  }

  /** With no active filter the whole list is shown. */
  lemma InactiveFiltersShowAll(shipments: seq<ShipmentData>, searchQuery: string, statusFilter: string, dateFilter: string, th: DateThresholds)
    requires !HasActiveFilters(searchQuery, statusFilter, dateFilter)
    ensures Shown(shipments, searchQuery, statusFilter, dateFilter, th) == shipments
  {
    FilterKeepsAll(shipments, ByAll(searchQuery, statusFilter, dateFilter, th));
  }

  /** With only a blank query set, every shipment is kept. */
  lemma BlankSearchKeepsAll(shipments: seq<ShipmentData>, q: string, th: DateThresholds)
    requires forall i :: 0 <= i < |q| ==> IsWhitespace(q[i])
    ensures Shown(shipments, q, "all", "all", th) == shipments
  {
    BlankIffAllWhitespace(q);
    forall x | x in shipments
      ensures ByAll(q, "all", "all", th)(x)
    {
      assert SearchKeeps(x, q);
    }
    FilterKeepsAll(shipments, ByAll(q, "all", "all", th));
  }

  /** A whitespace query counts as an active filter although it filters nothing. */
  lemma WhitespaceQueryActiveButInert(shipments: seq<ShipmentData>, th: DateThresholds)
    ensures HasActiveFilters(" ", "all", "all")
    ensures Shown(shipments, " ", "all", "all", th) == shipments
  {
    BlankSearchKeepsAll(shipments, " ", th);
  }

  datatype Badge = Badge(variant: string, text: string)

  /** `getStatusBadge`: "delivered" and "not delivered" in any letter case get fixed labels,
      any other status is shown verbatim. */
  function StatusBadge(status: string): (b: Badge)
    ensures Lower(status) == "delivered" ==> b == Badge("success", "Delivered")
    ensures Lower(status) == "not delivered" ==> b == Badge("warning", "In Transit")
    ensures Lower(status) != "delivered" && Lower(status) != "not delivered" ==> b == Badge("secondary", status)
  {
    match Lower(status)
    case "delivered" => Badge("success", "Delivered")
    case "not delivered" => Badge("warning", "In Transit")
    case _ => Badge("secondary", status)
  }

  lemma StatusBadgeExamples()
    ensures StatusBadge("DELIVERED").text == "Delivered"
    ensures StatusBadge("Not Delivered").text == "In Transit"
    ensures StatusBadge("created").text == "created"
  {
    assert Lower("DELIVERED") == "delivered";
    assert Lower("Not Delivered") == "not delivered";
    assert Lower("created") == "created";
  }

  /** The page's state: the fetched list and the three filter inputs. */
  class AllShipmentsPage {
    var shipments: seq<ShipmentData>
    var loading: bool
    var error: Option<string>
    var pagination: Option<Pagination>
    var searchQuery: string
    var statusFilter: string
    var dateFilter: string
    var showFilters: bool

    constructor ()
      ensures shipments == [] && loading && error == None && pagination == None
      ensures searchQuery == "" && statusFilter == "all" && dateFilter == "all" && !showFilters
    {
      shipments := [];
      loading := true;
      error := None;
      pagination := None;
      searchQuery := "";
      statusFilter := "all";
      dateFilter := "all";
      showFilters := false;
    }

    predicate FiltersActive()
      reads this
    {
      HasActiveFilters(searchQuery, statusFilter, dateFilter)
    }

    function Visible(th: DateThresholds): seq<ShipmentData>
      reads this
    {
      Shown(shipments, searchQuery, statusFilter, dateFilter, th)
    }

    /** `clearFilters`: afterwards no filter is active and the whole list is visible. */
    method ClearFilters()
      modifies this
      ensures searchQuery == "" && statusFilter == "all" && dateFilter == "all"
      ensures !FiltersActive()
      ensures forall th :: Visible(th) == shipments
      ensures shipments == old(shipments) && loading == old(loading) && error == old(error)
      ensures pagination == old(pagination) && showFilters == old(showFilters)
    {
      searchQuery := "";
      statusFilter := "all";
      dateFilter := "all";
      forall th: DateThresholds
        ensures Visible(th) == shipments
      {
        InactiveFiltersShowAll(shipments, searchQuery, statusFilter, dateFilter, th);
      }
    }

    /** The "Filters" button flips the visibility of the filter panel. */
    method ToggleFilters()
      modifies this`showFilters
      ensures showFilters == !old(showFilters)
    {
      showFilters := !showFilters;
    }

    /** `fetchAllShipments`: a successful response replaces the list and the paging block and
        clears the error; an unsuccessful one or a thrown request sets an error and keeps the list.
        Loading is off afterwards in every case. */
    method FetchAllShipments(reply: FetchReply)
      modifies this`shipments, this`loading, this`error, this`pagination
      ensures !loading
      ensures reply.Answered? && reply.success ==>
        shipments == reply.data && pagination == Some(reply.pagination) && error == None
      ensures reply.Answered? && !reply.success ==>
        shipments == old(shipments) && pagination == old(pagination) && error == Some("Failed to fetch shipments")
      ensures reply.RequestThrew? ==>
        shipments == old(shipments) && pagination == old(pagination)
        && error == Some("Failed to fetch shipments. Please try again.")
    {
      loading := true;
      match reply {
        case RequestThrew =>
          error := Some("Failed to fetch shipments. Please try again.");
        case Answered(success, data, p) =>
          if success {
            shipments := data;
            pagination := Some(p);
            error := None;
          } else {
            error := Some("Failed to fetch shipments");
          }
      }
      loading := false;
    }
  }
}
