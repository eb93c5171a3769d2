/** The create-shipment form: seven text fields, a validity rule and the submit guard. */
module CreateForm {
  import opened ShipmentTypes
  import opened Text

  /** The keys of `CreateShipmentData`, one per input. */
  datatype Field = TokenName | TokenSymbol | ShipmentId | From | To | Contents | ReceiverAccountId

  function Get(d: CreateShipmentData, f: Field): string
  {
    match f
    case TokenName => d.tokenName
    case TokenSymbol => d.tokenSymbol
    case ShipmentId => d.shipmentId
    case From => d.from
    case To => d.to
    case Contents => d.contents
    case ReceiverAccountId => d.receiverAccountId
  }

  /** The record with one field replaced (`{...prev, [field]: value}`). */
  function Set(d: CreateShipmentData, f: Field, v: string): (r: CreateShipmentData)
    ensures Get(r, f) == v
    ensures forall g: Field :: g != f ==> Get(r, g) == Get(d, g)
  {
    match f
    case TokenName => d.(tokenName := v)
    case TokenSymbol => d.(tokenSymbol := v)
    case ShipmentId => d.(shipmentId := v)
    case From => d.(from := v)
    case To => d.(to := v)
    case Contents => d.(contents := v)
    case ReceiverAccountId => d.(receiverAccountId := v)
  }

  /** `Object.values(formData)`: the fields in the order the record was built. */
  function Values(d: CreateShipmentData): (r: seq<string>)
    ensures |r| == 7
  {
    [d.tokenName, d.tokenSymbol, d.shipmentId, d.from, d.to, d.contents, d.receiverAccountId]
  }

  /** `isFormValid`: every value still has content after trimming. */
  predicate IsFormValid(d: CreateShipmentData)
  {
    forall i | 0 <= i < |Values(d)| :: !IsBlank(Values(d)[i])
  }

  /** The field whose value `Object.values` lists at position `i`. */
  function FieldAt(i: nat): Field
    requires i < 7
  {
    [TokenName, TokenSymbol, ShipmentId, From, To, Contents, ReceiverAccountId][i]
  }

  /** The position of a field's value in `Object.values`. */
  function IndexOf(f: Field): (i: nat)
    ensures i < 7 && FieldAt(i) == f
  {
    match f
    case TokenName => 0
    case TokenSymbol => 1
    case ShipmentId => 2
    case From => 3
    case To => 4
    case Contents => 5
    case ReceiverAccountId => 6
  }

  lemma ValueAt(d: CreateShipmentData, i: nat)
    requires i < 7
    ensures Values(d)[i] == Get(d, FieldAt(i))
  {
  }

  /** The form is valid exactly when no field is blank. */
  lemma FormValidIff(d: CreateShipmentData)
    ensures IsFormValid(d) <==> forall f: Field :: !IsBlank(Get(d, f))
  {
    if forall f: Field :: !IsBlank(Get(d, f)) {
      forall i | 0 <= i < 7
        ensures !IsBlank(Values(d)[i])
      {
        ValueAt(d, i);
      }
    }
    if IsFormValid(d) {
      forall f: Field
        ensures !IsBlank(Get(d, f))
      {
        ValueAt(d, IndexOf(f));
      }
    }
  }

  const Initial := CreateShipmentData("", "", "", "", "", "", "")

  /** A form with any blank field is invalid. */
  lemma BlankFieldInvalid(d: CreateShipmentData, f: Field)
    requires IsBlank(Get(d, f))
    ensures !IsFormValid(d)
  {
    ValueAt(d, IndexOf(f));
    assert IsBlank(Values(d)[IndexOf(f)]);
  }

  /** The untouched form is invalid. */
  lemma InitialInvalid()
    ensures !IsFormValid(Initial)
  {
    assert Trim("") == "";
    BlankFieldInvalid(Initial, TokenName);
  }

  /** The submit button's `disabled` attribute. */
  predicate SubmitDisabled(d: CreateShipmentData, isLoading: bool)
  {
    !IsFormValid(d) || isLoading
  }

  /** The button is enabled only for a valid form while nothing is loading. */
  lemma EnabledMeansValid(d: CreateShipmentData, isLoading: bool)
    ensures !SubmitDisabled(d, isLoading) <==> !isLoading && forall f: Field :: !IsBlank(Get(d, f))
  {
    FormValidIff(d);
  }

  /** The component's state: the form record. */
  class CreateShipmentForm {
    var formData: CreateShipmentData

    constructor()
      ensures formData == Initial
    {
      formData := Initial;
    }

    /** `handleInputChange(field)` fed an input value: only that field changes. */
    method HandleInputChange(field: Field, value: string)
      modifies this
      ensures Get(formData, field) == value
      ensures forall g: Field :: g != field ==> Get(formData, g) == Get(old(formData), g)
    {
      formData := Set(formData, field, value);
    }

    /** `handleSubmit`: the record goes to `onSubmit` as it is, untrimmed, whether valid or not. */
    method HandleSubmit() returns (submitted: CreateShipmentData)
      ensures submitted == formData
    {
      submitted := formData;
    }
  }
}
