/**
 * The page listing the users that have a status: the fetch, the filter on
 * `status !== null`, and which of its four views the page shows.
 */
module StatusUsers {
  import opened Common

  const FetchError := "Error fetching users."

  /** A user's `status` as the server sends it. */
  datatype Status =
    | Null            // `null`
    | Missing         // the property is absent (`undefined`)
    | Given(text: string)

  datatype User = User(id: string, name: string, phone: string, status: Status)

  /** The test `user.status !== null`. */
  function HasStatus(): User -> bool
  {
    (u: User) => u.status != Null
  }

  /** `data.filter(user => user.status !== null)`. */
  function KeepWithStatus(users: seq<User>): (r: seq<User>)
    ensures forall u :: u in r <==> u in users && u.status != Null
    ensures IsSubsequence(r, users)
  {
    Filter(users, HasStatus())
  }

  /**
   * The strict comparison with `null` keeps users whose status is absent
   * altogether, as often as they were listed.
   */
  lemma MissingStatusIsKept(users: seq<User>)
    ensures forall u: User | u.status.Missing? :: multiset(KeepWithStatus(users))[u] == multiset(users)[u]
    ensures forall u: User | u.status.Null? :: multiset(KeepWithStatus(users))[u] == 0
  {
    FilterMultiplicity(users, HasStatus());
  }

  /** What the page renders. */
  datatype View =
    | Spinner
    | ErrorAlert(message: string)
    | NoUsers                      // "No users with status available."
    | Table(rows: seq<User>)

  /** The render: the spinner first, then the error, then the empty notice, then the table. */
  function Render(loading: bool, error: string, users: seq<User>): (v: View)
    ensures v.Spinner? <==> loading
    ensures v.ErrorAlert? <==> !loading && error != ""
    ensures v.ErrorAlert? ==> v.message == error
    ensures v.NoUsers? <==> !loading && error == "" && users == []
    ensures v.Table? ==> v.rows == users && users != []
  {
    if loading then Spinner
    else if error != "" then ErrorAlert(error)
    else if |users| == 0 then NoUsers
    else Table(users)
  }

  /** The page's state. */
  class StatusUsersPage {
    var users: seq<User>
    var loading: bool
    var error: string

    constructor ()
      ensures users == [] && loading && error == ""
    {
      users, loading, error := [], true, "";
    }

    function Shown(): View
      reads this
    {
      Render(loading, error, users)
    }

    /**
     * `fetchUsers`: `response` is the decoded list (`Ok`), a status
     * outside 2xx (`NotOk`) or a thrown request, decoding or filter
     * (`Failed`). `loading` is cleared in every case.
     */
    method Load(response: Outcome<seq<User>>)
      modifies this
      ensures !loading
      ensures response.Ok? ==> users == KeepWithStatus(response.data) && error == old(error)
      ensures !response.Ok? ==> users == old(users) && error == FetchError
    {
      if response.Ok? {
        users := KeepWithStatus(response.data);
      } else {
        error := FetchError;
      }
      loading := false;
    }
  }

  /**
   * After the one fetch of a mount the page shows the error when the fetch
   * failed, the empty notice when no user has a non-null status, and
   * otherwise a table of exactly those users, in order.
   */
  method FirstLoad(response: Outcome<seq<User>>) returns (v: View)
    ensures !response.Ok? ==> v == ErrorAlert(FetchError)
    ensures response.Ok? && (forall u | u in response.data :: u.status == Null) ==> v == NoUsers
    ensures response.Ok? && (exists u | u in response.data :: u.status != Null) ==>
      v == Table(KeepWithStatus(response.data))
  {
    var page := new StatusUsersPage();
    page.Load(response);
    v := page.Shown();
    if response.Ok? && (exists u | u in response.data :: u.status != Null) {
      var u :| u in response.data && u.status != Null;
      assert u in KeepWithStatus(response.data);
    }
  }
}
