/** The `useLocations` hook: one state record holding the location list, two
    busy flags and an error text, driven by `fetchLocations`. */
module LocationsHook {

  import opened Domain

  /** Shown when the list request rejects with something that is not an
      `Error`. */
  const LoadErrorFallback := "Erro ao carregar locais"

  /** The hook's state record. */
  datatype Snapshot = Snapshot(
    locations: seq<Location>,
    loading: bool,
    refetching: bool,
    error: Option<string>)

  /** How the list request ends: the fetched list, or a rejection. */
  datatype Fetched = Loaded(data: seq<Location>) | Failed(cause: Thrown)

  /** The state right after a fetch starts: the matching busy flag is raised
      and the error cleared; the list and the other flag are as they were. */
  function Started(s: Snapshot, isRefetch: bool): (r: Snapshot)
    ensures r.error == None && r.locations == s.locations
    ensures isRefetch ==> r.refetching && r.loading == s.loading
    ensures !isRefetch ==> r.loading && r.refetching == s.refetching
  {
    if isRefetch then s.(refetching := true, error := None)
    else s.(loading := true, error := None)
  }

  /** The state once the request has ended. It does not depend on the state
      before: the list is the fetched one, or empty after a failure (even
      when a list was on screen during a refetch); both flags are down; the
      error text is present exactly after a failure. */
  function Settled(outcome: Fetched): (r: Snapshot)
    ensures !r.loading && !r.refetching
    ensures r.error.Some? <==> outcome.Failed?
    ensures outcome.Loaded? ==> r.locations == outcome.data
    ensures outcome.Failed? ==> r.locations == [] && r.error == Some(MessageOr(outcome.cause, LoadErrorFallback))
  {
    match outcome
    case Loaded(data) => Snapshot(data, false, false, None)
    case Failed(cause) => Snapshot([], false, false, Some(MessageOr(cause, LoadErrorFallback)))
  }

  /** An error text is only ever on display with no list and nothing in
      flight. */
  ghost predicate Consistent(s: Snapshot)
  {
    s.error.Some? ==> s.locations == [] && !s.loading && !s.refetching
  }

  /** Starting a fetch and settling it both keep `Consistent`. */
  lemma TransitionsKeepConsistent(s: Snapshot, isRefetch: bool, outcome: Fetched)
    requires Consistent(s)
    ensures Consistent(Started(s, isRefetch)) && Consistent(Settled(outcome))
  {
  }

  /** The state cell of the hook. */
  class LocationsState {
    var locations: seq<Location>
    var loading: bool
    var refetching: bool
    var error: Option<string>

    function State(): Snapshot
      reads this
    {
      Snapshot(locations, loading, refetching, error)
    }

    /** The initial record: no list, loading, no error. */
    constructor ()
      ensures locations == [] && loading && !refetching && error == None
      ensures Consistent(State())
    {
      locations := [];
      loading := true;
      refetching := false;
      error := None;
    }

    /** The first `setState` of `fetchLocations`. */
    method Start(isRefetch: bool)
      modifies this
      ensures State() == Started(old(State()), isRefetch)
    {
      if isRefetch {
        refetching := true;
        error := None;
      } else {
        loading := true;
        error := None;
      }
    }

    /** The `setState` after the request ends. */
    method Settle(outcome: Fetched)
      modifies this
      ensures State() == Settled(outcome)
    {
      match outcome
      case Loaded(data) =>
        locations, loading, refetching, error := data, false, false, None;
      case Failed(cause) =>
        locations, loading, refetching, error := [], false, false, Some(MessageOr(cause, LoadErrorFallback));
    }

    /** `fetchLocations(isRefetch)`, with the request's outcome as an input:
        the state passes through `Started` and ends at `Settled`. `during` is
        the record the page sees while the request is in flight. */
    method FetchLocations(isRefetch: bool, outcome: Fetched) returns (during: Snapshot)
      requires Consistent(State())
      modifies this
      ensures during == Started(old(State()), isRefetch) && Consistent(during)
      ensures State() == Settled(outcome) && Consistent(State())
    {
      TransitionsKeepConsistent(State(), isRefetch, outcome);
      Start(isRefetch);
      during := State();
      Settle(outcome);
    }

    /** `refetch`: always a fetch in refetch mode, so the list stays on
        screen while the request is in flight. */
    method Refetch(outcome: Fetched) returns (during: Snapshot)
      requires Consistent(State())
      modifies this
      ensures during.refetching && during.locations == old(locations) && during.loading == old(loading)
      ensures during.error == None
      ensures State() == Settled(outcome) && Consistent(State())
    {
      during := FetchLocations(true, outcome);
    }
  }
}
