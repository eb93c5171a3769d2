/** The escrow page's state: the loaded escrow, its edit buffer, and the in-memory contract list
    with its creation form. */
module Escrow {
  import opened Wrappers
  import opened EscrowRecords
  import opened EscrowGroups

  class EscrowPage {
    var escrowData: Option<EscrowData>
    var escrowFormData: Option<EscrowData>
    var isLoading: bool
    var error: Option<string>
    var showContractForm: bool
    var isCreatingContract: bool
    var contracts: seq<ContractData>
    var contractForm: ContractForm
    var isEditingEscrow: bool
    var isSavingEscrow: bool

    constructor()
      ensures escrowData == None && escrowFormData == None && isLoading && error == None
      ensures !showContractForm && !isCreatingContract && contracts == [] && contractForm == EmptyForm
      ensures !isEditingEscrow && !isSavingEscrow
    {
      escrowData := None;
      escrowFormData := None;
      isLoading := true;
      error := None;
      showContractForm := false;
      isCreatingContract := false;
      contracts := [];
      contractForm := EmptyForm;
      isEditingEscrow := false;
      isSavingEscrow := false;
    }

    /** `fetchEscrowData`: the canned record for the route's token id replaces the escrow, the
        error is cleared and loading ends. */
    method FetchEscrowData(tokenId: Option<string>, now: string)
      modifies this
      ensures escrowData == Some(MockEscrowData(tokenId, now)) && error == None && !isLoading
      ensures escrowFormData == old(escrowFormData) && contracts == old(contracts) && contractForm == old(contractForm)
      ensures showContractForm == old(showContractForm) && isCreatingContract == old(isCreatingContract)
      ensures isEditingEscrow == old(isEditingEscrow) && isSavingEscrow == old(isSavingEscrow)
    {
      isLoading := true;
      error := None;
      escrowData := Some(MockEscrowData(tokenId, now));
      isLoading := false;
    }

    /** The effect on `escrowData`: a loaded escrow is copied into the edit buffer. */
    method EscrowDataChanged()
      modifies this
      ensures escrowFormData == if escrowData.Some? then escrowData else old(escrowFormData)
      ensures escrowData == old(escrowData) && contracts == old(contracts) && contractForm == old(contractForm)
      ensures isLoading == old(isLoading) && error == old(error) && isEditingEscrow == old(isEditingEscrow)
      ensures showContractForm == old(showContractForm) && isCreatingContract == old(isCreatingContract)
      ensures isSavingEscrow == old(isSavingEscrow)
    {
      if escrowData.Some? {
        escrowFormData := escrowData;
      }
    }

    /** `handleContractInputChange(field)`: exactly that form field takes the value. */
    method HandleContractInputChange(field: ContractField, value: string)
      modifies this
      ensures FormGet(contractForm, field) == value
      ensures forall g: ContractField :: g != field ==> FormGet(contractForm, g) == FormGet(old(contractForm), g)
      ensures contracts == old(contracts) && escrowData == old(escrowData) && escrowFormData == old(escrowFormData)
      ensures showContractForm == old(showContractForm) && isCreatingContract == old(isCreatingContract)
      ensures isLoading == old(isLoading) && error == old(error)
      ensures isEditingEscrow == old(isEditingEscrow) && isSavingEscrow == old(isSavingEscrow)
    {
      contractForm := FormSet(contractForm, field, value);
    }

    /** `handleCreateContract` at clock reading `now`, with `days` the parsed `expiresIn`. On success
        the new contract is prepended, the form is reset and hidden; when building the contract
        throws, only the busy flag moves. The flag is clear afterwards either way. */
    method HandleCreateContract(now: nat, days: Option<int>)
      modifies this
      ensures !isCreatingContract
      ensures NewContract(old(contractForm), now, days).Some? ==>
        && contracts == [NewContract(old(contractForm), now, days).value] + old(contracts)
        && contractForm == EmptyForm && !showContractForm
      ensures NewContract(old(contractForm), now, days).None? ==>
        contracts == old(contracts) && contractForm == old(contractForm) && showContractForm == old(showContractForm)
      ensures escrowData == old(escrowData) && escrowFormData == old(escrowFormData)
      ensures isLoading == old(isLoading) && error == old(error)
      ensures isEditingEscrow == old(isEditingEscrow) && isSavingEscrow == old(isSavingEscrow)
    {
      isCreatingContract := true;
      var created := NewContract(contractForm, now, days);
      if created.Some? {
        contracts := [created.value] + contracts;
        contractForm := EmptyForm;
        showContractForm := false;
      }
      isCreatingContract := false;
    }

    /** The "New Contract" button toggles the form. */
    method ToggleContractForm()
      modifies this
      ensures showContractForm == !old(showContractForm)
      ensures contracts == old(contracts) && contractForm == old(contractForm) && isCreatingContract == old(isCreatingContract)
      ensures escrowData == old(escrowData) && escrowFormData == old(escrowFormData)
      ensures isLoading == old(isLoading) && error == old(error)
      ensures isEditingEscrow == old(isEditingEscrow) && isSavingEscrow == old(isSavingEscrow)
    {
      showContractForm := !showContractForm;
    }

    /** The form's "Cancel" button hides it and keeps what was typed. */
    method HideContractForm()
      modifies this
      ensures !showContractForm
      ensures contracts == old(contracts) && contractForm == old(contractForm) && isCreatingContract == old(isCreatingContract)
      ensures escrowData == old(escrowData) && escrowFormData == old(escrowFormData)
      ensures isLoading == old(isLoading) && error == old(error)
      ensures isEditingEscrow == old(isEditingEscrow) && isSavingEscrow == old(isSavingEscrow)
    {
      showContractForm := false;
    }

    /** The "Edit" button enters edit mode. */
    method StartEditing()
      modifies this
      ensures isEditingEscrow
      ensures escrowData == old(escrowData) && escrowFormData == old(escrowFormData)
      ensures contracts == old(contracts) && contractForm == old(contractForm)
      ensures showContractForm == old(showContractForm) && isCreatingContract == old(isCreatingContract)
      ensures isLoading == old(isLoading) && error == old(error) && isSavingEscrow == old(isSavingEscrow)
    {
      isEditingEscrow := true;
    }

    /** `handleEscrowInputChange(field)`: one field of a present buffer changes; an absent buffer
        stays absent. */
    method HandleEscrowInputChange(field: EscrowField, value: string)
      modifies this
      ensures old(escrowFormData).None? ==> escrowFormData == None
      ensures old(escrowFormData).Some? ==>
        && escrowFormData.Some?
        && EscrowGet(escrowFormData.value, field) == value
        && forall g: EscrowField :: g != field ==> EscrowGet(escrowFormData.value, g) == EscrowGet(old(escrowFormData).value, g)
      ensures escrowData == old(escrowData) && isEditingEscrow == old(isEditingEscrow) && isSavingEscrow == old(isSavingEscrow)
      ensures contracts == old(contracts) && contractForm == old(contractForm)
      ensures showContractForm == old(showContractForm) && isCreatingContract == old(isCreatingContract)
      ensures isLoading == old(isLoading) && error == old(error)
    {
      if escrowFormData.Some? {
        escrowFormData := Some(EscrowSet(escrowFormData.value, field, value));
      }
    }

    /** `handleSaveEscrow`: the buffer becomes the escrow and edit mode ends; nothing happens
        without a buffer. */
    method HandleSaveEscrow()
      modifies this
      ensures old(escrowFormData).None? ==>
        escrowData == old(escrowData) && isEditingEscrow == old(isEditingEscrow) && isSavingEscrow == old(isSavingEscrow)
      ensures old(escrowFormData).Some? ==> escrowData == old(escrowFormData) && !isEditingEscrow && !isSavingEscrow
      ensures escrowFormData == old(escrowFormData)
      ensures contracts == old(contracts) && contractForm == old(contractForm)
      ensures showContractForm == old(showContractForm) && isCreatingContract == old(isCreatingContract)
      ensures isLoading == old(isLoading) && error == old(error)
    {
      if escrowFormData.None? {
        return;
      }
      isSavingEscrow := true;
      escrowData := escrowFormData;
      isEditingEscrow := false;
      isSavingEscrow := false;
    }

    /** `handleCancelEdit`: the buffer is restored from a loaded escrow and edit mode ends. */
    method HandleCancelEdit()
      modifies this
      ensures escrowFormData == if old(escrowData).Some? then old(escrowData) else old(escrowFormData)
      ensures !isEditingEscrow
      ensures escrowData == old(escrowData) && isSavingEscrow == old(isSavingEscrow)
      ensures contracts == old(contracts) && contractForm == old(contractForm)
      ensures showContractForm == old(showContractForm) && isCreatingContract == old(isCreatingContract)
      ensures isLoading == old(isLoading) && error == old(error)
    {
      if escrowData.Some? {
        escrowFormData := escrowData;
      }
      isEditingEscrow := false;
    }

    /** The contract groups the page lists. */
    method ContractGroups() returns (groups: Groups)
      ensures groups == GroupsOf(contracts)
    {
      groups := GetContractGroups(contracts);
    }
  }

  /** An edit that is saved and then cancelled leaves buffer and escrow equal: editing a field,
      saving, and cancelling leaves the changed field in the escrow. */
  method EditSaveCancel(page: EscrowPage, field: EscrowField, value: string)
    requires page.escrowFormData.Some?
    modifies page
    ensures page.escrowData.Some? && page.escrowData == page.escrowFormData
    ensures EscrowGet(page.escrowData.value, field) == value
    ensures !page.isEditingEscrow
  {
    page.HandleEscrowInputChange(field, value);
    page.HandleSaveEscrow();
    page.HandleCancelEdit();
  }
}
