/** The shipment table: its search-and-status filter, the "Showing n of m" summary,
    the status colour classes and the status label. */
module ShipmentTable {
  import opened Seqs
  import opened Text
  import opened ShipmentTypes

  /** The status drop-down: "ALL" or one enum member. */
  datatype StatusFilter = All | Only(status: ShipmentStatus)

  /** The lower-cased search term occurs in one of the six searchable fields, each lower-cased. */
  predicate MatchesSearch(sh: Shipment, searchTerm: string)
  {
    var q := Lower(searchTerm);
    Contains(Lower(sh.shipmentId), q) || Contains(Lower(sh.tokenName), q)
    || Contains(Lower(sh.from), q) || Contains(Lower(sh.to), q)
    || Contains(Lower(sh.contents), q) || Contains(Lower(sh.receiverAccountId), q)
  }

  predicate MatchesStatus(sh: Shipment, statusFilter: StatusFilter)
  {
    statusFilter.All? || sh.status == statusFilter.status.Text()
  }

  predicate Keep(sh: Shipment, searchTerm: string, statusFilter: StatusFilter)
  {
    MatchesSearch(sh, searchTerm) && MatchesStatus(sh, statusFilter)
  }

  /** `filteredShipments`: one `filter` over the shipments with the search and status predicate. */
  function FilteredShipments(shipments: seq<Shipment>, searchTerm: string, statusFilter: StatusFilter): (r: seq<Shipment>)
    ensures |r| <= |shipments|
    ensures forall i :: 0 <= i < |r| ==> r[i] in shipments && Keep(r[i], searchTerm, statusFilter)
  {
    Filter(shipments, sh => Keep(sh, searchTerm, statusFilter))
  }

  /** The table lists the kept shipments in the order they were given. */
  lemma FilteredIsSubsequence(shipments: seq<Shipment>, searchTerm: string, statusFilter: StatusFilter)
    ensures IsSubsequence(FilteredShipments(shipments, searchTerm, statusFilter), shipments)
  {
    FilterIsSubsequence(shipments, sh => Keep(sh, searchTerm, statusFilter));
  }

  /** A shipment is listed exactly as often as it is given when its status matches and the search
      term occurs in one of its six fields, ignoring case; otherwise it is not listed. */
  lemma FilteredMultiplicity(shipments: seq<Shipment>, searchTerm: string, statusFilter: StatusFilter, sh: Shipment)
    ensures multiset(FilteredShipments(shipments, searchTerm, statusFilter))[sh]
         == if MatchesSearch(sh, searchTerm) && (statusFilter.All? || sh.status == statusFilter.status.Text())
            then multiset(shipments)[sh] else 0
  {
    FilterMultiplicity(shipments, sh => Keep(sh, searchTerm, statusFilter), sh);
  }

  /** With an empty search term and "ALL", the whole list is shown unchanged. */
  lemma EmptySearchShowsAll(shipments: seq<Shipment>)
    ensures FilteredShipments(shipments, "", All) == shipments
  {
    forall sh: Shipment | sh in shipments
      ensures Keep(sh, "", All)
    {
      ContainsEmpty(Lower(sh.shipmentId));
    }
    FilterKeepsAll(shipments, sh => Keep(sh, "", All));
  }

  /** The search term is not trimmed: a one-space term keeps exactly the shipments that have
      a space in one of the six fields. */
  lemma SpaceSearchNeedsSpace(sh: Shipment)
    ensures MatchesSearch(sh, " ")
        <==> (' ' in sh.shipmentId || ' ' in sh.tokenName || ' ' in sh.from || ' ' in sh.to
              || ' ' in sh.contents || ' ' in sh.receiverAccountId)
  {
    assert Lower(" ") == " ";
    LowerKeepsSpace(sh.shipmentId);
    LowerKeepsSpace(sh.tokenName);
    LowerKeepsSpace(sh.from);
    LowerKeepsSpace(sh.to);
    LowerKeepsSpace(sh.contents);
    LowerKeepsSpace(sh.receiverAccountId);
  }

  lemma LowerKeepsSpace(s: string)
    ensures Contains(Lower(s), " ") <==> ' ' in s
  {
    ContainsChar(Lower(s), ' ');
    if ' ' in Lower(s) {
      var i :| 0 <= i < |s| && Lower(s)[i] == ' ';
      assert s[i] == ' ';
    }
    if ' ' in s {
      var i :| 0 <= i < |s| && s[i] == ' ';
      assert Lower(s)[i] == ' ';
    }
  }

  /** Changing the letter case of the search term does not change the list. */
  lemma SearchIgnoresCase(shipments: seq<Shipment>, t1: string, t2: string, statusFilter: StatusFilter)
    requires Lower(t1) == Lower(t2)
    ensures FilteredShipments(shipments, t1, statusFilter) == FilteredShipments(shipments, t2, statusFilter)
  {
    FilterExtensional(shipments, sh => Keep(sh, t1, statusFilter), sh => Keep(sh, t2, statusFilter));
  }

  /** "Showing n of m shipments": n never exceeds m. */
  lemma ShownCountAtMostTotal(shipments: seq<Shipment>, searchTerm: string, statusFilter: StatusFilter)
    ensures |FilteredShipments(shipments, searchTerm, statusFilter)| <= |shipments|
  {
  }

  /** The string is the value of one of the four enum members. */
  predicate IsStatusValue(status: string)
  {
    status == Created.Text() || status == InTransit.Text() || status == Delivered.Text() || status == Cancelled.Text()
  }

  const DefaultColor := "bg-gray-100 text-gray-800"

  /** `getStatusColor`: the badge classes for a status string. */
  function StatusColor(status: string): (r: string)
    ensures status == Created.Text() ==> r == "bg-blue-100 text-blue-800"
    ensures status == InTransit.Text() ==> r == "bg-yellow-100 text-yellow-800"
    ensures status == Delivered.Text() ==> r == "bg-green-100 text-green-800"
    ensures status == Cancelled.Text() ==> r == "bg-red-100 text-red-800"
    ensures !IsStatusValue(status) ==> r == DefaultColor
  {
    match status
    case "CREATED" => "bg-blue-100 text-blue-800"
    case "IN_TRANSIT" => "bg-yellow-100 text-yellow-800"
    case "DELIVERED" => "bg-green-100 text-green-800"
    case "CANCELLED" => "bg-red-100 text-red-800"
    case _ => DefaultColor
  }

  /** The four enum values get four distinct colours, none of them the grey default. */
  lemma StatusColorsDistinct(a: ShipmentStatus, b: ShipmentStatus)
    ensures StatusColor(a.Text()) != DefaultColor
    ensures a != b ==> StatusColor(a.Text()) != StatusColor(b.Text())
  {
  }

  /** `s.replace(from, to)` with a one-character pattern: only the first occurrence is replaced,
      every other character stays as it was. */
  function ReplaceFirst(s: string, from: char, to: char): (r: string)
    ensures |r| == |s|
    ensures forall i :: 0 <= i < |s| ==> r[i] == if s[i] == from && from !in s[..i] then to else s[i]
  {
    if s == [] then []
    else if s[0] == from then
      assert forall i :: 0 < i < |s| ==> s[..i][0] == from;
      [to] + s[1..]
    else
      var rest := ReplaceFirst(s[1..], from, to);
      assert forall i :: 0 < i < |s| ==> (from in s[..i] <==> from in s[1..][..i - 1]) by {
        forall i | 0 < i < |s|
          ensures from in s[..i] <==> from in s[1..][..i - 1]
        {
          assert s[..i] == [s[0]] + s[1..][..i - 1];
        }
      }
      [s[0]] + rest
  }

  /** The status label shown in a table row: the first underscore becomes a space. */
  function StatusLabel(status: string): (r: string)
    ensures |r| == |status|
  {
    ReplaceFirst(status, '_', ' ')
  }

  /** A status without an underscore is shown as it is. */
  lemma LabelWithoutUnderscore(status: string)
    requires '_' !in status
    ensures StatusLabel(status) == status
  {
  }

  /** CREATED, DELIVERED and CANCELLED are shown unchanged. */
  lemma OtherStatusLabels(st: ShipmentStatus)
    requires st != InTransit
    ensures StatusLabel(st.Text()) == st.Text()
  {
    var t := st.Text();
    assert forall i | 0 <= i < |t| :: 'A' <= t[i] <= 'Z';
    LabelWithoutUnderscore(t);
  }

  /** IN_TRANSIT is shown as "IN TRANSIT". */
  lemma InTransitLabel()
    ensures StatusLabel(InTransit.Text()) == "IN TRANSIT"
  {
    var s := InTransit.Text();
    assert s[..2] == "IN";
    ReplaceAtFirst(s, '_', ' ', 2);
    assert StatusLabel(s) == s[..2] + [' '] + s[3..];
    assert s[3..] == "TRANSIT";
  }

  /** Replacing at the first occurrence, stated on slices. */
  lemma ReplaceAtFirst(s: string, from: char, to: char, i: nat)
    requires i < |s| && s[i] == from && from !in s[..i]
    ensures ReplaceFirst(s, from, to) == s[..i] + [to] + s[i + 1..]
  {
    var r := ReplaceFirst(s, from, to);
    forall j | i < j < |s|
      ensures from in s[..j]
    {
      assert s[..j][i] == from;
    }
  }

  /** Only the first underscore is replaced: "A_B_C" is shown as "A B_C". */
  lemma OnlyFirstUnderscore()
    ensures StatusLabel("A_B_C") == "A B_C"
  {
    var s := "A_B_C";
    assert s[..1] == "A";
    ReplaceAtFirst(s, '_', ' ', 1);
    assert s[..1] + " " + s[2..] == "A B_C";
  }
}
