/**
 * The plain service-type manager: the volunteer list with one service-type
 * select per volunteer, applied immediately.
 */
module ServiceTypeManager {
  import opened Common
  import opened Roster

  class ServiceTypeManagerPage {
    var volunteers: seq<Volunteer>
    var loading: bool

    constructor ()
      ensures volunteers == [] && loading
    {
      volunteers, loading := [], true;
    }

    /**
     * `fetchVolunteers`: `fetched` is the decoded list, or `None` when the
     * request or its decoding threw; `loading` is cleared in either case.
     */
    method Load(fetched: Option<seq<Volunteer>>)
      modifies this`volunteers, this`loading
      ensures !loading
      ensures fetched.Some? ==> volunteers == fetched.value
      ensures fetched.None? ==> volunteers == old(volunteers)
    {
      if fetched.Some? {
        volunteers := fetched.value;
      }
      loading := false;
    }

    /**
     * A service type was picked. The PATCH is sent whatever happens next;
     * its status is not checked, so the local list is patched whenever the
     * request resolves (`completed`) and left alone when it throws.
     */
    method ChangeServiceType(id: string, newType: string, completed: bool) returns (request: (string, string))
      modifies this`volunteers
      ensures request == (id, newType)
      ensures completed ==> volunteers == PatchServiceType(old(volunteers), id, newType)
      ensures !completed ==> volunteers == old(volunteers)
    {
      request := (id, newType);
      if completed {
        volunteers := PatchServiceType(volunteers, id, newType);
      }
    }
  }

  /** Picking the same type twice leaves the list as picking it once does. */
  method ChangeTwice(page: ServiceTypeManagerPage, id: string, newType: string)
    modifies page
    ensures page.volunteers == PatchServiceType(old(page.volunteers), id, newType)
  {
    var _ := page.ChangeServiceType(id, newType, true);
    var _ := page.ChangeServiceType(id, newType, true);
    PatchIdempotent(old(page.volunteers), id, newType);
  }
}
