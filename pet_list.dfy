/** The pet list page: its ten pieces of local state and the handlers that
    move them. Each request the page issues is returned, and what the
    request settles to is a parameter. */
module PetList {
  import opened Wrappers
  import opened PetApi

  /** The message the page keeps in `error` after a failed load. */
  const LoadFailedMessage: string := "Failed to load pets"

  /** The page's local state, one component per `useState`. */
  datatype PageState = PageState(
    pets: seq<Pet>,
    isLoading: bool,
    selectedStatus: Status,
    error: Option<string>,
    isCreateModalOpen: bool,
    isUpdateModalOpen: bool,
    isDeleteDialogOpen: bool,
    selectedPetId: Option<nat>,
    selectedPetName: string,
    isDeleting: bool)

  /** The state of a freshly mounted page: loading, filtered on `available`,
      nothing selected and nothing open. */
  const Initial: PageState :=
    PageState([], true, Available, None, false, false, false, None, "", false)

  /** The state after `fetchPets` settles with `reply`: the new list with
      the error cleared on success, the old list with the error set on
      failure, and loading over either way. */
  function Loaded(s: PageState, reply: Result<seq<Pet>, ApiError>): (t: PageState)
    ensures !t.isLoading
    ensures reply.Success? ==> t.pets == reply.value && t.error == None
    ensures reply.Failure? ==> t.pets == s.pets && t.error == Some(LoadFailedMessage)
    ensures t.(pets := s.pets, error := s.error, isLoading := s.isLoading) == s
  {
    match reply
    case Success(data) => s.(pets := data, error := None, isLoading := false)
    case Failure(_) => s.(error := Some(LoadFailedMessage), isLoading := false)
  }

  /** The position of the first pet whose id is `petId` (`pets.find`). */
  function FindById(pets: seq<Pet>, petId: nat): (r: Option<nat>)
    ensures r.Some? ==> r.value < |pets| && pets[r.value].id == Some(petId)
    ensures r.Some? ==> forall j :: 0 <= j < r.value ==> pets[j].id != Some(petId)
    ensures r.None? ==> forall j :: 0 <= j < |pets| ==> pets[j].id != Some(petId)
  {
    if pets == [] then None
    else if pets[0].id == Some(petId) then Some(0)
    else match FindById(pets[1..], petId)
      case Some(k) => Some(k + 1)
      case None => None
  }

  /** `pet?.name || ''`: the name of the first pet with that id, or the
      empty string when no pet has it. */
  function SelectedName(pets: seq<Pet>, petId: nat): (name: string)
    ensures (forall j :: 0 <= j < |pets| ==> pets[j].id != Some(petId)) ==> name == ""
    ensures forall k :: (0 <= k < |pets| && pets[k].id == Some(petId)
                         && forall j :: 0 <= j < k ==> pets[j].id != Some(petId)) ==> name == pets[k].name
  {
    match FindById(pets, petId)
    case Some(k) => pets[k].name
    case None => ""
  }

  /** `error` as a condition: a non-empty message. */
  predicate HasError(s: PageState) {
    s.error.Some? && s.error.value != ""
  }

  predicate ShowsSpinner(s: PageState) {
    s.isLoading
  }

  predicate ShowsErrorBox(s: PageState) {
    HasError(s) && !s.isLoading
  }

  predicate ShowsTable(s: PageState) {
    !s.isLoading && !HasError(s)
  }

  /** The page always shows exactly one of the spinner, the error box and
      the table. */
  lemma ExactlyOneView(s: PageState)
    ensures ShowsSpinner(s) || ShowsErrorBox(s) || ShowsTable(s)
    ensures !(ShowsSpinner(s) && ShowsErrorBox(s)) && !(ShowsSpinner(s) && ShowsTable(s))
    ensures !(ShowsErrorBox(s) && ShowsTable(s))
  {
  }

  /** After a load settles, the table is shown exactly when it succeeded
      and the error box exactly when it failed. */
  lemma {:induction false} LoadedView(s: PageState, reply: Result<seq<Pet>, ApiError>)
    ensures ShowsTable(Loaded(s, reply)) <==> reply.Success?
    ensures ShowsErrorBox(Loaded(s, reply)) <==> reply.Failure?
  {
    var t := Loaded(s, reply);
    if reply.Failure? {
      assert t.error == Some(LoadFailedMessage);
      assert LoadFailedMessage[0] == 'F';
    }
  }

  class Page {
    var pets: seq<Pet>
    var isLoading: bool
    var selectedStatus: Status
    var error: Option<string>
    var isCreateModalOpen: bool
    var isUpdateModalOpen: bool
    var isDeleteDialogOpen: bool
    var selectedPetId: Option<nat>
    var selectedPetName: string
    var isDeleting: bool

    function State(): PageState
      reads this
    {
      PageState(pets, isLoading, selectedStatus, error, isCreateModalOpen, isUpdateModalOpen,
                isDeleteDialogOpen, selectedPetId, selectedPetName, isDeleting)
    }

    /** Between handlers: the only error message is the load failure, no
        pet is selected under id 0, and no delete is in progress. */
    ghost predicate Valid()
      reads this
    {
      (error == None || error == Some(LoadFailedMessage)) && selectedPetId != Some(0) && !isDeleting
    }

    constructor ()
      ensures Valid() && State() == Initial
    {
      pets, isLoading, selectedStatus, error := [], true, Available, None;
      isCreateModalOpen, isUpdateModalOpen, isDeleteDialogOpen := false, false, false;
      selectedPetId, selectedPetName, isDeleting := None, "", false;
    }

    /** `fetchPets(status)`: asks for the pets with that status and records
        how the request settled. */
    method FetchPets(status: Status, reply: Result<seq<Pet>, ApiError>) returns (sent: Request)
      requires Valid()
      modifies this
      ensures Valid()
      ensures sent == FindPetsByStatus(Some(status))
      ensures State() == Loaded(old(State()), reply)
    {
      isLoading := true;
      error := None;
      sent := FindPetsByStatus(Some(status));
      match reply {
        case Success(data) =>
          pets := data;
        case Failure(_) =>
          error := Some(LoadFailedMessage);
      }
      isLoading := false;
    }

    /** The effect on first render: load the pets of the selected status. */
    method Mount(reply: Result<seq<Pet>, ApiError>) returns (sent: Request)
      requires Valid()
      modifies this
      ensures Valid()
      ensures sent == FindPetsByStatus(Some(old(selectedStatus)))
      ensures State() == Loaded(old(State()), reply)
    {
      sent := FetchPets(selectedStatus, reply);
    }

    /** `handleStatusFilter` followed by the effect it triggers: choosing a
        different status selects it and loads its pets; choosing the status
        already selected leaves the state as it is, so nothing is
        fetched. */
    method HandleStatusFilter(status: Status, reply: Result<seq<Pet>, ApiError>) returns (sent: Option<Request>)
      requires Valid()
      modifies this
      ensures Valid()
      ensures sent.Some? <==> status != old(selectedStatus)
      ensures sent.Some? ==> sent.value == FindPetsByStatus(Some(status))
      ensures State() == if sent.Some? then Loaded(old(State()).(selectedStatus := status), reply)
                         else old(State())
    {
      if status == selectedStatus {
        return None;
      }
      selectedStatus := status;
      var r := FetchPets(status, reply);
      sent := Some(r);
    }

    /** `handleUpdate(petId)`: an absent or zero id changes nothing;
        otherwise the pet is selected and the update modal opens. */
    method HandleUpdate(petId: Option<nat>)
      requires Valid()
      modifies this
      ensures Valid()
      ensures State() == if IsUsableId(petId) then old(State()).(selectedPetId := petId, isUpdateModalOpen := true)
                         else old(State())
    {
      if !IsUsableId(petId) {
        return;
      }
      selectedPetId := petId;
      isUpdateModalOpen := true;
    }

    /** `handleDelete(petId)`: an absent or zero id changes nothing;
        otherwise the pet is selected, its name looked up in the loaded
        list, and the delete dialog opens. */
    method HandleDelete(petId: Option<nat>)
      requires Valid()
      modifies this
      ensures Valid()
      ensures State() == if IsUsableId(petId)
                         then old(State()).(selectedPetId := petId,
                                            selectedPetName := SelectedName(old(pets), petId.value),
                                            isDeleteDialogOpen := true)
                         else old(State())
    {
      if !IsUsableId(petId) {
        return;
      }
      var name := SelectedName(pets, petId.value);
      selectedPetId := petId;
      selectedPetName := name;
      isDeleteDialogOpen := true;
    }

    /** `handleDeleteConfirm`, with `deleteReply` what the delete settles to
        and `listReply` what the follow-up load settles to. Without a
        selected pet nothing happens. A failed delete leaves the dialog
        open and the state as it was. A successful one closes the dialog
        and reloads the selected status. Either way deleting has ended. */
    method HandleDeleteConfirm(deleteReply: Result<(), ApiError>, listReply: Result<seq<Pet>, ApiError>)
      returns (sent: seq<Request>)
      requires Valid()
      modifies this
      ensures Valid()
      ensures !IsUsableId(old(selectedPetId)) ==> sent == [] && State() == old(State())
      ensures IsUsableId(old(selectedPetId)) && deleteReply.Failure? ==>
                sent == [DeletePet(old(selectedPetId).value)] && State() == old(State())
      ensures IsUsableId(old(selectedPetId)) && deleteReply.Success? ==>
                && sent == [DeletePet(old(selectedPetId).value), FindPetsByStatus(Some(old(selectedStatus)))]
                && State() == Loaded(old(State()).(isDeleteDialogOpen := false), listReply)
    {
      if !IsUsableId(selectedPetId) {
        return [];
      }
      isDeleting := true;
      sent := [DeletePet(selectedPetId.value)];
      if deleteReply.Success? {
        isDeleteDialogOpen := false;
        // the `finally` reset, made before the reload, which does not touch it
        isDeleting := false;
        var r := FetchPets(selectedStatus, listReply);
        sent := sent + [r];
      }
      isDeleting := false;
    }

    /** `handleCreatePet`: opens the create modal. */
    method HandleCreatePet()
      requires Valid()
      modifies this
      ensures Valid()
      ensures State() == old(State()).(isCreateModalOpen := true)
    {
      isCreateModalOpen := true;
    }

    /** `handleCloseCreateModal`: closes the create modal. */
    method HandleCloseCreateModal()
      requires Valid()
      modifies this
      ensures Valid()
      ensures State() == old(State()).(isCreateModalOpen := false)
    {
      isCreateModalOpen := false;
    }

    /** `handleCloseUpdateModal`: closes the update modal and forgets the
        selected id. */
    method HandleCloseUpdateModal()
      requires Valid()
      modifies this
      ensures Valid()
      ensures State() == old(State()).(isUpdateModalOpen := false, selectedPetId := None)
    {
      isUpdateModalOpen := false;
      selectedPetId := None;
    }

    /** `handleCloseDeleteDialog`: closes the dialog and forgets the
        selected id and name. */
    method HandleCloseDeleteDialog()
      requires Valid()
      modifies this
      ensures Valid()
      ensures State() == old(State()).(isDeleteDialogOpen := false, selectedPetId := None, selectedPetName := "")
    {
      isDeleteDialogOpen := false;
      selectedPetId := None;
      selectedPetName := "";
    }

    /** `handleModalSuccess`: reloads the selected status. */
    method HandleModalSuccess(reply: Result<seq<Pet>, ApiError>) returns (sent: Request)
      requires Valid()
      modifies this
      ensures Valid()
      ensures sent == FindPetsByStatus(Some(old(selectedStatus)))
      ensures State() == Loaded(old(State()), reply)
    {
      sent := FetchPets(selectedStatus, reply);
    }
  }
}
