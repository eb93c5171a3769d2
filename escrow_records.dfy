/** The records of the escrow page: the escrow being edited, the contracts and the contract form. */
module EscrowRecords {
  import opened Wrappers
  import opened Seqs
  import Text

  /** The escrow record. `status` is "Locked" or "Released" in the type, but the edit form writes
      whatever the select control yields, so it is kept as a string. */
  datatype EscrowData = EscrowData(
    tokenId: string,
    lockedAmount: string,
    supplier: string,
    receiver: string,
    status: string,
    lastUpdated: string,
    nftOwner: string)

  datatype EscrowField = TokenId | LockedAmount | Supplier | Receiver | Status | LastUpdated | NftOwner

  function EscrowGet(d: EscrowData, f: EscrowField): string
  {
    match f
    case TokenId => d.tokenId
    case LockedAmount => d.lockedAmount
    case Supplier => d.supplier
    case Receiver => d.receiver
    case Status => d.status
    case LastUpdated => d.lastUpdated
    case NftOwner => d.nftOwner
  }

  /** `{...prev, [field]: value}` on the escrow record. */
  function EscrowSet(d: EscrowData, f: EscrowField, v: string): (r: EscrowData)
    ensures EscrowGet(r, f) == v
    ensures forall g: EscrowField :: g != f ==> EscrowGet(r, g) == EscrowGet(d, g)
  {
    match f
    case TokenId => d.(tokenId := v)
    case LockedAmount => d.(lockedAmount := v)
    case Supplier => d.(supplier := v)
    case Receiver => d.(receiver := v)
    case Status => d.(status := v)
    case LastUpdated => d.(lastUpdated := v)
    case NftOwner => d.(nftOwner := v)
  }

  /** Writing back the value a field already has changes nothing. */
  lemma EscrowSetUnchanged(d: EscrowData, f: EscrowField)
    ensures EscrowSet(d, f, EscrowGet(d, f)) == d
  {
    var r := EscrowSet(d, f, EscrowGet(d, f));
    assert forall g: EscrowField :: EscrowGet(r, g) == EscrowGet(d, g);
    assert EscrowGet(r, TokenId) == EscrowGet(d, TokenId) && EscrowGet(r, LockedAmount) == EscrowGet(d, LockedAmount);
    assert EscrowGet(r, Supplier) == EscrowGet(d, Supplier) && EscrowGet(r, Receiver) == EscrowGet(d, Receiver);
    assert EscrowGet(r, Status) == EscrowGet(d, Status) && EscrowGet(r, LastUpdated) == EscrowGet(d, LastUpdated);
    assert EscrowGet(r, NftOwner) == EscrowGet(d, NftOwner);
  }

  const DefaultTokenId := "12345"
  const MockSupplier := "0x742d35Cc6634C0532925a3b8D4C9db96C4b4d8b6"
  const MockReceiver := "0x8ba1f109551bD432803012645Hac136c"

  /** The canned escrow the page loads: the route's token id (or "12345" when it is missing or
      empty), locked, owned by the supplier, stamped with `now`. */
  function MockEscrowData(tokenId: Option<string>, now: string): (d: EscrowData)
    ensures tokenId.Some? && tokenId.value != "" ==> d.tokenId == tokenId.value
    ensures tokenId.None? || tokenId.value == "" ==> d.tokenId == DefaultTokenId
    ensures d.status == "Locked" && d.lastUpdated == now && d.nftOwner == d.supplier
  {
    var id := if tokenId.Some? && tokenId.value != "" then tokenId.value else DefaultTokenId;
    EscrowData(id, "1000.00", MockSupplier, MockReceiver, "Locked", now, MockSupplier)
  }

  /** A contract. The ISO-8601 `createdAt`/`expiresAt` strings are kept as the millisecond times
      they render. */
  datatype ContractData = ContractData(
    contractId: string,
    partyA: string,
    partyB: string,
    amount: string,
    terms: string,
    status: string,
    createdAt: int,
    expiresAt: int)

  /** The new-contract form; `expiresIn` is a day count typed as text. */
  datatype ContractForm = ContractForm(partyA: string, partyB: string, amount: string, terms: string, expiresIn: string)

  datatype ContractField = PartyA | PartyB | Amount | Terms | ExpiresIn

  function FormGet(form: ContractForm, f: ContractField): string
  {
    match f
    case PartyA => form.partyA
    case PartyB => form.partyB
    case Amount => form.amount
    case Terms => form.terms
    case ExpiresIn => form.expiresIn
  }

  /** `{...prev, [field]: value}` on the contract form. */
  function FormSet(form: ContractForm, f: ContractField, v: string): (r: ContractForm)
    ensures FormGet(r, f) == v
    ensures forall g: ContractField :: g != f ==> FormGet(r, g) == FormGet(form, g)
  {
    match f
    case PartyA => form.(partyA := v)
    case PartyB => form.(partyB := v)
    case Amount => form.(amount := v)
    case Terms => form.(terms := v)
    case ExpiresIn => form.(expiresIn := v)
  }

  /** The form as it starts and as it is reset: empty, thirty days. */
  const EmptyForm := ContractForm("", "", "", "", "30")

  const DayMs := 24 * 60 * 60 * 1000
  const ActiveStatus := "Active"

  /** The largest distance from the epoch a `Date` can hold; `toISOString` throws a RangeError
      for a time beyond it. */
  const MaxTimeMs := 8_640_000_000_000_000

  predicate InDateRange(t: int)
  {
    -MaxTimeMs <= t <= MaxTimeMs
  }

  /** The contract `handleCreateContract` builds at clock reading `now`, with `days` the result of
      `parseInt(expiresIn)` (`None` for NaN). `None` when building it throws: an expiry that is NaN or
      outside the `Date` range. */
  function NewContract(form: ContractForm, now: nat, days: Option<int>): (r: Option<ContractData>)
    ensures r.Some? <==> days.Some? && InDateRange(now) && InDateRange(now + days.value * DayMs)
    ensures r.Some? ==>
      && r.value.contractId == "CONTRACT-" + Text.DecimalString(now)
      && r.value.partyA == form.partyA && r.value.partyB == form.partyB
      && r.value.amount == form.amount && r.value.terms == form.terms
      && r.value.status == ActiveStatus
      && r.value.createdAt == now
      && r.value.expiresAt - r.value.createdAt == days.value * DayMs
  {
    if days.None? || !InDateRange(now) || !InDateRange(now + days.value * DayMs) then None
    else Some(ContractData("CONTRACT-" + Text.DecimalString(now), form.partyA, form.partyB, form.amount, form.terms,
                           ActiveStatus, now, now + days.value * DayMs))
  }

  /** Contract ids are the decimal clock reading after a fixed prefix, so contracts created at
      different times have different ids. */
  lemma ContractIdsDistinct(n: nat, m: nat)
    requires n != m
    ensures "CONTRACT-" + Text.DecimalString(n) != "CONTRACT-" + Text.DecimalString(m)
  {
    var a, b := "CONTRACT-" + Text.DecimalString(n), "CONTRACT-" + Text.DecimalString(m);
    if a == b {
      assert a[9..] == Text.DecimalString(n) && b[9..] == Text.DecimalString(m);
      Text.DecimalRoundTrip(n);
      Text.DecimalRoundTrip(m);
    }
  }

  predicate IsActive(c: ContractData)
  {
    c.status == ActiveStatus
  }

  /** The "Active contracts" figure. */
  function ActiveCount(contracts: seq<ContractData>): (n: nat)
    ensures n <= |contracts|
  {
    |Filter(contracts, IsActive)|
  }

  /** Prepending a freshly created contract raises the active count by exactly one. */
  lemma CreatedContractCounts(form: ContractForm, now: nat, days: Option<int>, contracts: seq<ContractData>)
    requires NewContract(form, now, days).Some?
    ensures ActiveCount([NewContract(form, now, days).value] + contracts) == ActiveCount(contracts) + 1
  {
    var c := NewContract(form, now, days).value;
    assert ([c] + contracts)[1..] == contracts;
  }
}
