/** The dashboard overview: status counts, the "recent" lists and the fetch that sets them. */
module Dashboard {
  import opened Seqs
  import opened Text
  import opened ShipmentTypes

  datatype Stats = Stats(total: nat, inTransit: nat, delivered: nat, created: nat)

  datatype NetworkStatus = Checking | Connected | Disconnected

  predicate HasStatus(sh: ShipmentData, status: string)
  {
    Lower(sh.status) == status
  }

  /** `filter(s => s.status.toLowerCase() === status).length`. */
  function CountStatus(shipments: seq<ShipmentData>, status: string): (n: nat)
    ensures n <= |shipments|
    ensures n == |Filter(shipments, sh => HasStatus(sh, status))|
  {
    if shipments == [] then 0
    else (if HasStatus(shipments[0], status) then 1 else 0) + CountStatus(shipments[1..], status)
  }

  /** The stats block: all shipments, and those whose lower-cased status is "not delivered",
      "delivered" and "created". */
  function ComputeStats(shipments: seq<ShipmentData>): (st: Stats)
    ensures st.total == |shipments|
    ensures st.inTransit == CountStatus(shipments, "not delivered")
    ensures st.delivered == CountStatus(shipments, "delivered")
    ensures st.created == CountStatus(shipments, "created")
    ensures st.inTransit <= st.total && st.delivered <= st.total && st.created <= st.total
  {
    Stats(|shipments|,
          CountStatus(shipments, "not delivered"),
          CountStatus(shipments, "delivered"),
          CountStatus(shipments, "created"))
  }

  /** The three categories are disjoint, so together they never exceed the total. */
  lemma {:induction false} StatsCategoriesBounded(shipments: seq<ShipmentData>)
    ensures var st := ComputeStats(shipments); st.inTransit + st.delivered + st.created <= st.total
  {
    if shipments != [] {
      StatsCategoriesBounded(shipments[1..]);
    }
  }

  /** The first `n` shipments, or all of them when there are fewer. */
  function Recent(shipments: seq<ShipmentData>, n: nat): (r: seq<ShipmentData>)
    ensures |r| == if |shipments| < n then |shipments| else n
    ensures r == shipments[..|r|]
  {
    if |shipments| <= n then shipments else shipments[..n]
  }

  /** The "recent shipments" list: the first five. */
  function RecentShipments(shipments: seq<ShipmentData>): (r: seq<ShipmentData>)
    ensures |r| == if |shipments| < 5 then |shipments| else 5
    ensures r == shipments[..|r|]
  {
    Recent(shipments, 5)
  }

  /** The "recent activity" list: the first four. */
  function RecentActivity(shipments: seq<ShipmentData>): (r: seq<ShipmentData>)
    ensures |r| == if |shipments| < 4 then |shipments| else 4
    ensures r == shipments[..|r|]
  {
    Recent(shipments, 4)
  }

  /** The recent-activity list is a prefix of the recent-shipments list. */
  lemma RecentActivityPrefixOfRecentShipments(shipments: seq<ShipmentData>)
    ensures |RecentActivity(shipments)| <= |RecentShipments(shipments)|
    ensures RecentActivity(shipments) == RecentShipments(shipments)[..|RecentActivity(shipments)|]
  {
  }

  /** The dashboard's state. `Valid` says the stats always describe the list held. */
  class DashboardPage {
    var shipments: seq<ShipmentData>
    var loading: bool
    var networkStatus: NetworkStatus
    var stats: Stats

    ghost predicate Valid()
      reads this
    {
      stats == ComputeStats(shipments)
    }

    constructor ()
      ensures Valid()
      ensures shipments == [] && loading && networkStatus == Checking && stats == Stats(0, 0, 0, 0)
    {
      shipments := [];
      loading := true;
      networkStatus := Checking;
      stats := Stats(0, 0, 0, 0);
    }

    /** `fetchDashboardData`: a successful response replaces the list, recomputes the stats and
        marks the network connected; an unsuccessful response changes none of them; a thrown
        request marks the network disconnected. Loading is off afterwards in every case. */
    method FetchDashboardData(reply: FetchReply)
      requires Valid()
      modifies this
      ensures Valid()
      ensures !loading
      ensures reply.Answered? && reply.success ==>
        shipments == reply.data && stats == ComputeStats(reply.data) && networkStatus == Connected
      ensures reply.Answered? && !reply.success ==>
        shipments == old(shipments) && stats == old(stats) && networkStatus == old(networkStatus)
      ensures reply.RequestThrew? ==>
        shipments == old(shipments) && stats == old(stats) && networkStatus == Disconnected
    {
      loading := true;
      match reply {
        case RequestThrew =>
          networkStatus := Disconnected;
        case Answered(success, data, _) =>
          if success {
            shipments := data;
            stats := ComputeStats(data);
            networkStatus := Connected;
          }
      }
      loading := false;
    }
  }
}
