/** The locations page: its selection, the form dialog's mode and target,
    the pending delete confirmation, and the requests its handlers send out. */
module LocationsView {

  import opened Domain
  import LocationMap
  import LocationForm

  /** `[latitude, longitude]` from the geolocation hook when both are known,
      nothing otherwise. */
  function UserLocation(latitude: Option<real>, longitude: Option<real>): (r: Option<(real, real)>)
    ensures r.Some? <==> latitude.Some? && longitude.Some?
    ensures r.Some? ==> r.value == (latitude.value, longitude.value)
  {
    if latitude.Some? && longitude.Some? then Some((latitude.value, longitude.value)) else None
  }

  /** The page builds the user location latitude first and the map swaps it
      back: the route starts at the user's longitude and latitude. */
  lemma RouteStartsAtUser(latitude: real, longitude: real)
    ensures var u := UserLocation(Some(latitude), Some(longitude));
      u.Some? && LocationMap.Origin(u.value) == Coord(longitude, latitude)
  {
  }

  /** A request the page sends to the outside world. */
  datatype Effect =
    | RequestGeolocation
    | DeleteLocation(id: string)
    | CreateLocation(draft: LocationDraft)
    | UpdateLocation(id: string, draft: LocationDraft)
    | Refetch

  /** A delete in flight: the id, and the selection as it was when the delete
      was confirmed, which the success callback closes over. */
  datatype PendingDelete = PendingDelete(id: string, selectedThen: Option<Location>)

  /** What `handleSubmit` sends: a create or update request, or nothing when
      edit mode has no location to edit (reading `editingLocation!.id` then
      throws). */
  datatype SubmitCall = Issued(request: Effect) | MissingEditTarget

  /** The request `handleSubmit` makes for `draft`: a create in create mode,
      an update of the edited location's id in edit mode. */
  function SubmitRequest(mode: ModalMode, editing: Option<Location>, draft: LocationDraft): (r: SubmitCall)
    ensures mode == Create ==> r == Issued(CreateLocation(draft))
    ensures mode == Edit && editing.Some? ==> r == Issued(UpdateLocation(editing.value.id, draft))
    ensures mode == Edit && editing.None? ==> r == MissingEditTarget
  {
    match mode
    case Create => Issued(CreateLocation(draft))
    case Edit => if editing.Some? then Issued(UpdateLocation(editing.value.id, draft)) else MissingEditTarget
  }

  /** The page's `handleSubmit` as written: it starts the request but
      neither awaits nor returns it, so the promise the form awaits resolves
      whatever becomes of the request. */
  function SubmitHandlerAsWritten(request: Settlement): Settlement {
    Resolved
  }

  /** A save that fails, whatever it throws, still closes the dialog as
      written, and the dialog shows no error. */
  lemma FailedSaveClosesDialog(cause: Thrown)
    ensures LocationForm.SubmitEnded(SubmitHandlerAsWritten(Rejected(cause))) == (true, None)
  {
  }

  /** `handleSubmit` returning the request's promise: the form awaits the
      request itself. */
  function SubmitHandler(request: Settlement): Settlement {
    request
  }

  /** With the request's promise returned, the dialog closes exactly when the
      save succeeds and otherwise shows the save error. */
  lemma DialogReportsSave(request: Settlement)
    ensures LocationForm.SubmitEnded(SubmitHandler(request)).0 <==> request.Resolved?
    ensures request.Rejected? ==>
      LocationForm.SubmitEnded(SubmitHandler(request)).1 == Some(MessageOr(request.cause, LocationForm.SaveErrorFallback))
  {
  }

  /** The page's state cells, and the requests sent so far. */
  class LocationsPage {
    var selected: Option<Location>
    var modalOpen: bool
    var mode: ModalMode
    var editing: Option<Location>
    var deleteConfirm: Option<Location>
    /** The requests the handlers have sent, oldest first. */
    var effects: seq<Effect>

    /** Only edit mode has a location to edit, and an open dialog in edit
        mode always has one. */
    ghost predicate Valid()
      reads this
    {
      && (editing.Some? ==> mode == Edit)
      && (modalOpen && mode == Edit ==> editing.Some?)
    }

    constructor ()
      ensures Valid()
      ensures selected == None && !modalOpen && mode == Create && editing == None
      ensures deleteConfirm == None && effects == []
    {
      selected := None;
      modalOpen := false;
      mode := Create;
      editing := None;
      deleteConfirm := None;
      effects := [];
    }

    /** A location card's `onSelectLocation`. */
    method Select(l: Location)
      requires Valid()
      modifies this`selected
      ensures Valid() && selected == Some(l)
    {
      selected := Some(l);
    }

    /** `handleStartRoute`: asks for the user's position, but only with a
        location selected. */
    method StartRoute()
      modifies this`effects
      ensures selected.None? ==> effects == old(effects)
      ensures selected.Some? ==> effects == old(effects) + [RequestGeolocation]
    {
      if selected.None? {
        return;
      }
      effects := effects + [RequestGeolocation];
    }

    /** `handleCancelRoute`: the selection is dropped, which clears the
        route on the map. */
    method CancelRoute()
      requires Valid()
      modifies this`selected
      ensures Valid() && selected == None
    {
      selected := None;
    }

    /** `handleCreateNew`: the dialog opens empty, in create mode. */
    method CreateNew()
      requires Valid()
      modifies this`mode, this`editing, this`modalOpen
      ensures Valid()
      ensures mode == Create && editing == None && modalOpen
    {
      mode := Create;
      editing := None;
      modalOpen := true;
    }

    /** `handleEdit`: the dialog opens on `l`, in edit mode. */
    method EditLocation(l: Location)
      requires Valid()
      modifies this`mode, this`editing, this`modalOpen
      ensures Valid()
      ensures mode == Edit && editing == Some(l) && modalOpen
    {
      mode := Edit;
      editing := Some(l);
      modalOpen := true;
    }

    /** The dialog's `onClose`: closed, with nothing to edit. */
    method CloseModal()
      requires Valid()
      modifies this`modalOpen, this`editing
      ensures Valid() && !modalOpen && editing == None
    {
      modalOpen := false;
      editing := None;
    }

    /** `handleDelete`: asks for confirmation of deleting `l`. */
    method AskDelete(l: Location)
      modifies this`deleteConfirm
      ensures deleteConfirm == Some(l)
    {
      deleteConfirm := Some(l);
    }

    /** The confirmation's backdrop and cancel button. */
    method CancelDelete()
      modifies this`deleteConfirm
      ensures deleteConfirm == None
    {
      deleteConfirm := None;
    }

    /** `confirmDelete`: with nothing awaiting confirmation nothing happens;
        otherwise the confirmation is dismissed and the delete request sent. */
    method ConfirmDelete() returns (pending: Option<PendingDelete>)
      modifies this`deleteConfirm, this`effects
      ensures old(deleteConfirm).None? ==>
        pending == None && deleteConfirm == None && effects == old(effects)
      ensures old(deleteConfirm).Some? ==>
        && pending == Some(PendingDelete(old(deleteConfirm).value.id, selected))
        && deleteConfirm == None
        && effects == old(effects) + [DeleteLocation(old(deleteConfirm).value.id)]
    {
      if deleteConfirm.None? {
        return None;
      }
      var id := deleteConfirm.value.id;
      deleteConfirm := None;
      effects := effects + [DeleteLocation(id)];
      pending := Some(PendingDelete(id, selected));
    }

    /** The delete request's success callback: the selection is dropped when
        the selection seen at confirmation was the deleted location, and the
        list is fetched again. */
    method DeleteSucceeded(p: PendingDelete)
      requires Valid()
      modifies this`selected, this`effects
      ensures Valid()
      ensures p.selectedThen.Some? && p.selectedThen.value.id == p.id ==> selected == None
      ensures !(p.selectedThen.Some? && p.selectedThen.value.id == p.id) ==> selected == old(selected)
      ensures effects == old(effects) + [Refetch]
    {
      if p.selectedThen.Some? && p.selectedThen.value.id == p.id {
        selected := None;
      }
      effects := effects + [Refetch];
    }

    /** `handleSubmit(draft)`: sends the create or update request. An open
        dialog always has its edit target, so from the form the request is
        always sent. */
    method Submit(draft: LocationDraft) returns (call: SubmitCall)
      requires Valid()
      modifies this`effects
      ensures call == SubmitRequest(mode, editing, draft)
      ensures modalOpen ==> call.Issued?
      ensures call.Issued? ==> effects == old(effects) + [call.request]
      ensures call.MissingEditTarget? ==> effects == old(effects)
    {
      call := SubmitRequest(mode, editing, draft);
      if call.Issued? {
        effects := effects + [call.request];
      }
    }

    /** The save request's success callback: the dialog closes and the list
        is fetched again. */
    method SaveSucceeded()
      requires Valid()
      modifies this`modalOpen, this`editing, this`effects
      ensures Valid() && !modalOpen && editing == None
      ensures effects == old(effects) + [Refetch]
    {
      modalOpen := false;
      editing := None;
      effects := effects + [Refetch];
    }

    /** Submitting the open dialog, with the save request's outcome as an
        input and the page's handler returning the request's promise: the
        request for the form's record is sent; on success the list is
        fetched again and the dialog closes; on failure the dialog stays open
        on the same target and shows the save error. */
    method SubmitDialog(form: LocationForm.FormState, request: Settlement) returns (call: SubmitCall)
      requires Valid() && modalOpen
      modifies this`modalOpen, this`editing, this`effects, form`loading, form`error
      ensures Valid()
      ensures call == SubmitRequest(old(mode), old(editing), form.formData) && call.Issued?
      ensures request.Resolved? ==>
        !modalOpen && editing == None && effects == old(effects) + [call.request, Refetch] && form.error == None
      ensures request.Rejected? ==>
        && modalOpen && editing == old(editing) && effects == old(effects) + [call.request]
        && form.error == Some(MessageOr(request.cause, LocationForm.SaveErrorFallback))
      ensures !form.loading
    {
      call := Submit(form.formData);
      if request.Resolved? {
        SaveSucceeded();
      }
      DialogReportsSave(request);
      var submitted, busy, shownError, close := form.Submit(SubmitHandler(request));
      if close {
        CloseModal();
      }
    }
  }
}
