/** The create-pet modal: a draft form and a submitting flag, updated by
    its event handlers. The modal's `onClose`/`onSuccess` callbacks belong
    to the pet list page; here `HandleSubmit` reports whether it called
    them. */
module CreatePetModal {
  import opened Wrappers
  import opened Text
  import opened PetApi
  import opened PetForm

  class Modal {
    var form: Form
    var isSubmitting: bool

    constructor ()
      ensures form == Blank && !isSubmitting
    {
      form := Blank;
      isSubmitting := false;
    }

    /** `handleFormChange` on a text field. */
    method HandleFormChange(field: Field, value: string)
      modifies this
      ensures form == WithField(old(form), field, value)
      ensures isSubmitting == old(isSubmitting)
    {
      form := WithField(form, field, value);
    }

    /** `handleFormChange('status', ...)` from a status button. */
    method HandleStatusChange(status: Status)
      modifies this
      ensures form == WithStatus(old(form), status)
      ensures isSubmitting == old(isSubmitting)
    {
      form := WithStatus(form, status);
    }

    /** `handleClose`: every text field back to empty, status back to
        `available`. */
    method HandleClose()
      modifies this
      ensures form == Blank
      ensures isSubmitting == old(isSubmitting)
    {
      form := Blank;
    }

    /** `handleSubmit`. `now` is the clock reading used as the provisional
        id and `reply` is what the create request settles to. A blank name
        stops before any request and changes nothing. Otherwise the built
        pet is posted; on success the form is reset and the page's close
        and success callbacks run (`done`), on failure the form is kept;
        either way the modal ends not submitting. */
    method HandleSubmit(now: nat, reply: Result<Pet, ApiError>) returns (sent: Option<Request>, done: bool)
      modifies this
      ensures sent.None? <==> !CanSubmit(old(form))
      ensures sent.Some? ==> sent.value == CreatePet(BuildPet(old(form), now))
      ensures done <==> sent.Some? && reply.Success?
      ensures form == (if done then Blank else old(form))
      ensures isSubmitting == (if sent.Some? then false else old(isSubmitting))
    {
      if IsBlank(form.name) {
        return None, false;
      }
      isSubmitting := true;
      var pet := BuildPet(form, now);
      sent := Some(CreatePet(pet));
      done := false;
      if reply.Success? {
        HandleClose();
        done := true;
      }
      isSubmitting := false;
    }
  }
}
