/** The update-pet modal: a draft form filled from the fetched pet, plus
    submitting and loading flags. The pet id is the page's prop and is
    passed to each handler that reads it. */
module UpdatePetModal {
  import opened Wrappers
  import opened Text
  import opened PetApi
  import opened PetForm

  class Modal {
    var form: Form
    var isSubmitting: bool
    var isLoading: bool

    constructor ()
      ensures form == Blank && !isSubmitting && !isLoading
    {
      form := Blank;
      isSubmitting := false;
      isLoading := false;
    }

    /** `loadPetData`. Without a usable id nothing happens. Otherwise the
        pet is fetched; on success the form shows it, on failure the form is
        kept; either way loading has ended. */
    method LoadPetData(petId: Option<nat>, reply: Result<Pet, ApiError>) returns (sent: Option<Request>)
      modifies this
      ensures sent.None? <==> !IsUsableId(petId)
      ensures sent.Some? ==> sent.value == FetchPetById(petId.value)
      ensures form == (if sent.Some? && reply.Success? then LoadPet(reply.value) else old(form))
      ensures isLoading == (if sent.Some? then false else old(isLoading))
      ensures isSubmitting == old(isSubmitting)
    {
      if !IsUsableId(petId) {
        return None;
      }
      isLoading := true;
      sent := Some(FetchPetById(petId.value));
      if reply.Success? {
        form := LoadPet(reply.value);
      }
      isLoading := false;
    }

    /** The modal's effect: whenever it is open with a usable id, it loads
        that pet. React re-runs the effect only when `isOpen` or `petId`
        changes, so callers invoke `Refresh` on such a change and not on
        every edit of the open form. */
    method Refresh(isOpen: bool, petId: Option<nat>, reply: Result<Pet, ApiError>) returns (sent: Option<Request>)
      modifies this
      ensures sent.None? <==> !(isOpen && IsUsableId(petId))
      ensures sent.Some? ==> sent.value == FetchPetById(petId.value)
      ensures form == (if sent.Some? && reply.Success? then LoadPet(reply.value) else old(form))
      ensures isLoading == (if sent.Some? then false else old(isLoading))
      ensures isSubmitting == old(isSubmitting)
    {
      sent := None;
      if isOpen && IsUsableId(petId) {
        sent := LoadPetData(petId, reply);
      }
    }

    /** `handleFormChange` on a text field. */
    method HandleFormChange(field: Field, value: string)
      modifies this
      ensures form == WithField(old(form), field, value)
      ensures isSubmitting == old(isSubmitting) && isLoading == old(isLoading)
    {
      form := WithField(form, field, value);
    }

    /** `handleFormChange('status', ...)` from a status button. */
    method HandleStatusChange(status: Status)
      modifies this
      ensures form == WithStatus(old(form), status)
      ensures isSubmitting == old(isSubmitting) && isLoading == old(isLoading)
    {
      form := WithStatus(form, status);
    }

    /** `handleClose`: every text field back to empty, status back to
        `available`. */
    method HandleClose()
      modifies this
      ensures form == Blank
      ensures isSubmitting == old(isSubmitting) && isLoading == old(isLoading)
    {
      form := Blank;
    }

    /** `handleSubmit`. A blank name, and then a missing or zero id, each
        stop before any request and change nothing. Otherwise the pet built
        from the form under that id is sent with `PUT`; on success the form
        is reset and the page's callbacks run (`done`), on failure the form
        is kept; either way the modal ends not submitting. */
    method HandleSubmit(petId: Option<nat>, reply: Result<Pet, ApiError>) returns (sent: Option<Request>, done: bool)
      modifies this
      ensures sent.None? <==> !CanSubmit(old(form)) || !IsUsableId(petId)
      ensures sent.Some? ==> sent.value == UpdatePet(BuildPet(old(form), petId.value))
      ensures done <==> sent.Some? && reply.Success?
      ensures form == (if done then Blank else old(form))
      ensures isSubmitting == (if sent.Some? then false else old(isSubmitting))
      ensures isLoading == old(isLoading)
    {
      if IsBlank(form.name) {
        return None, false;
      }
      if !IsUsableId(petId) {
        return None, false;
      }
      isSubmitting := true;
      var pet := BuildPet(form, petId.value);
      sent := Some(UpdatePet(pet));
      done := false;
      if reply.Success? {
        HandleClose();
        done := true;
      }
      isSubmitting := false;
    }
  }

  /** The modal as the page uses it: opened for `petId`, filled from the
      fetched pet `p`, and saved without edits. For a canonical pet with a
      name, what it sends is `p` itself under the id it was opened for. */
  method SaveUnedited(petId: nat, p: Pet, saveReply: Result<Pet, ApiError>) returns (sent: Option<Request>)
    requires petId != 0 && Canonical(p) && CanSubmit(LoadPet(p))
    ensures sent == Some(UpdatePet(p.(id := Some(petId))))
  {
    var modal := new Modal();
    var fetch := modal.Refresh(true, Some(petId), Success(p));
    LoadThenBuild(p, petId);
    var done;
    sent, done := modal.HandleSubmit(Some(petId), saveReply);
  }
}
