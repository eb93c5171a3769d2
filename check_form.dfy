/** The check-shipment form: inputs keyed by name and a trimmed-blank submit guard. */
module CheckForm {
  import opened Wrappers
  import opened Text

  /** The three values handed to `onSubmit`. */
  datatype CheckShipmentData = CheckShipmentData(shipmentId: string, tokenId: string, location: string)

  const ShipmentIdKey := "shipmentId"
  const TokenIdKey := "tokenId"
  const LocationKey := "location"

  /** The form state is an object keyed by input name; an input of any name may add a key. */
  type FormData = map<string, string>

  const Initial: FormData := map[ShipmentIdKey := "", TokenIdKey := "", LocationKey := ""]

  /** The three keys the guard reads are always present. */
  predicate HasKeys(d: FormData)
  {
    ShipmentIdKey in d && TokenIdKey in d && LocationKey in d
  }

  /** The guard of `handleSubmit` and of the button: some required value is blank after trimming. */
  predicate AnyBlank(d: FormData)
    requires HasKeys(d)
  {
    IsBlank(d[ShipmentIdKey]) || IsBlank(d[TokenIdKey]) || IsBlank(d[LocationKey])
  }

  /** The submit button's `disabled` attribute. */
  predicate SubmitDisabled(d: FormData, isLoading: bool)
    requires HasKeys(d)
  {
    isLoading || AnyBlank(d)
  }

  /** What `handleSubmit` passes to `onSubmit`, or `None` when it returns early. */
  function Submission(d: FormData): (r: Option<CheckShipmentData>)
    requires HasKeys(d)
    ensures r.None? <==> AnyBlank(d)
    ensures r.Some? ==> r.value == CheckShipmentData(d[ShipmentIdKey], d[TokenIdKey], d[LocationKey])
  {
    if AnyBlank(d) then None else Some(CheckShipmentData(d[ShipmentIdKey], d[TokenIdKey], d[LocationKey]))
  }

  /** Submission happens exactly when the button would be enabled with nothing loading. */
  lemma SubmitsWhenEnabled(d: FormData)
    requires HasKeys(d)
    ensures Submission(d).Some? <==> !SubmitDisabled(d, false)
    ensures SubmitDisabled(d, true)
  {
  }

  class CheckShipmentForm {
    var formData: FormData

    ghost predicate Valid()
      reads this
    {
      HasKeys(formData)
    }

    constructor()
      ensures formData == Initial && Valid()
    {
      formData := Initial;
    }

    /** `handleInputChange`: the key named by the input gets its value, nothing else changes. */
    method HandleInputChange(name: string, value: string)
      requires Valid()
      modifies this
      ensures Valid()
      ensures formData == old(formData)[name := value]
    {
      formData := formData[name := value];
    }

    /** `handleSubmit`: the untrimmed values, or nothing when a required one is blank. */
    method HandleSubmit() returns (submitted: Option<CheckShipmentData>)
      requires Valid()
      ensures submitted == Submission(formData)
    {
      if IsBlank(formData[ShipmentIdKey]) || IsBlank(formData[TokenIdKey]) || IsBlank(formData[LocationKey]) {
        return None;
      }
      submitted := Some(CheckShipmentData(formData[ShipmentIdKey], formData[TokenIdKey], formData[LocationKey]));
    }
  }

  /** The initial form cannot be submitted. */
  lemma InitialNotSubmittable()
    ensures HasKeys(Initial) && Submission(Initial).None?
  {
    assert Initial[ShipmentIdKey] == "";
  }
}
