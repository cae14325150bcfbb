/**
 * The service-type assignment page reachable with or without a volunteer
 * id in its route: the visible list, and the confirm-then-apply update of
 * one volunteer's service type.
 */
module Balaji {
  import opened Common
  import opened Roster

  /** Whether one volunteer is listed for the route id and the search text. */
  predicate IsVisible(v: Volunteer, routeId: Option<string>, searchTerm: string)
  {
    if Truthy(routeId) then v.id == routeId.value
    else v.whatsappNumber.Some? && Includes(Lower(v.whatsappNumber.value), Lower(searchTerm))
  }

  /**
   * `filteredVolunteers`: with a route id exactly the volunteers with that
   * `_id`, otherwise those whose WhatsApp number contains the search text,
   * ignoring ASCII case.
   */
  function Visible(vs: seq<Volunteer>, routeId: Option<string>, searchTerm: string): (r: seq<Volunteer>)
    ensures Truthy(routeId) ==> forall v :: v in r <==> v in vs && v.id == routeId.value
    ensures !Truthy(routeId) ==> forall v :: v in r <==>
      v in vs && v.whatsappNumber.Some? && Includes(Lower(v.whatsappNumber.value), Lower(searchTerm))
    ensures IsSubsequence(r, vs)
  {
    Filter(vs, v => IsVisible(v, routeId, searchTerm))
  }

  /**
   * Without a route id an empty search lists exactly the volunteers that
   * have a WhatsApp number: entries without one are dropped even then.
   */
  lemma EmptySearchListsNumbered(vs: seq<Volunteer>, routeId: Option<string>)
    requires !Truthy(routeId)
    ensures forall v | v in vs :: v in Visible(vs, routeId, "") <==> v.whatsappNumber.Some?
  {
    forall v | v in vs && v.whatsappNumber.Some? ensures IsVisible(v, routeId, "") {
      assert Lower("") == "";
      assert "" <= Lower(v.whatsappNumber.value);
    }
  }

  /** The search runs on ASCII-lowercased text, so the case of the search text never matters. */
  lemma SearchIgnoresCase(vs: seq<Volunteer>, a: string, b: string)
    requires Lower(a) == Lower(b)
    ensures Visible(vs, None, a) == Visible(vs, None, b)
  {
    FilterSameTest(vs, v => IsVisible(v, None, a), v => IsVisible(v, None, b));
  }

  /** The update waiting for the confirmation dialog. */
  datatype PendingUpdate = PendingUpdate(id: string, newType: string)

  class BalajiPage {
    const routeId: Option<string>
    var volunteers: seq<Volunteer>
    var loading: bool
    var selectedUpdate: Option<PendingUpdate>
    var isDialogOpen: bool
    var searchTerm: string

    constructor (routeId: Option<string>)
      ensures this.routeId == routeId
      ensures volunteers == [] && loading && selectedUpdate == None && !isDialogOpen && searchTerm == ""
    {
      this.routeId := routeId;
      volunteers, loading, selectedUpdate, isDialogOpen, searchTerm := [], true, None, false, "";
    }

    function Shown(): seq<Volunteer>
      reads this
    {
      Visible(volunteers, routeId, searchTerm)
    }

    /**
     * The first load: `fetched` is the decoded list, or `None` when the
     * request or its decoding threw (the list then stays as it was).
     */
    method Load(fetched: Option<seq<Volunteer>>)
      modifies this`volunteers, this`loading
      ensures !loading
      ensures volunteers == if fetched.Some? then fetched.value else old(volunteers)
    {
      loading := true;
      if fetched.Some? {
        volunteers := fetched.value;
      }
      loading := false;
    }

    /** A service type was picked: the update is only recorded and the dialog opened. */
    method ConfirmServiceTypeChange(id: string, newType: string)
      modifies this`selectedUpdate, this`isDialogOpen
      ensures selectedUpdate == Some(PendingUpdate(id, newType)) && isDialogOpen
    {
      selectedUpdate := Some(PendingUpdate(id, newType));
      isDialogOpen := true;
    }

    /** Cancel: the dialog closes and nothing else changes. */
    method Cancel()
      modifies this`isDialogOpen
      ensures !isDialogOpen
    {
      isDialogOpen := false;
    }

    /**
     * Confirm. `request` is the PATCH sent; `completed` says whether it
     * resolved (whatever its status) rather than threw. Without a pending
     * update the handler fails before its `try` and nothing changes.
     */
    method PerformUpdate(completed: bool) returns (request: Option<PendingUpdate>)
      modifies this`volunteers, this`isDialogOpen
      ensures request == old(selectedUpdate)
      ensures old(selectedUpdate).None? ==> volunteers == old(volunteers) && isDialogOpen == old(isDialogOpen)
      ensures old(selectedUpdate).Some? ==> !isDialogOpen
      ensures old(selectedUpdate).Some? && completed ==>
        volunteers == PatchServiceType(old(volunteers), old(selectedUpdate).value.id, old(selectedUpdate).value.newType)
      ensures !completed ==> volunteers == old(volunteers)
    {
      request := selectedUpdate;
      if selectedUpdate.None? {
        return;
      }
      var PendingUpdate(id, newType) := selectedUpdate.value;
      if completed {
        volunteers := PatchServiceType(volunteers, id, newType);
      }
      isDialogOpen := false;
    }
  }

  /**
   * Choosing a type and confirming it, with a PATCH that resolves, sends
   * that update and changes the service type of the chosen volunteer and
   * of no other.
   */
  method ConfirmThenApply(page: BalajiPage, id: string, newType: string) returns (request: Option<PendingUpdate>)
    modifies page
    ensures request == Some(PendingUpdate(id, newType))
    ensures page.volunteers == PatchServiceType(old(page.volunteers), id, newType)
    ensures !page.isDialogOpen
  {
    page.ConfirmServiceTypeChange(id, newType);
    request := page.PerformUpdate(true);
  }
}
