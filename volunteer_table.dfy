/**
 * The paginated volunteer table with its per-row "assign coordinator"
 * dropdown: page arithmetic, the query sent for a page, the value shown in
 * a row's dropdown, and the view state that the filter inputs, the Prev/Next
 * buttons and an assignment update.
 */
module VolunteerTable {
  import opened Common

  /** Rows per page, also sent to the server as `pageSize`. */
  const PageSize: nat := 20

  /** How a volunteer record carries its assigned coordinator. */
  datatype AssignedService =
    | Unassigned                    // null or absent
    | Embedded(id: Option<string>)  // an object, possibly without `_id`
    | Raw(rawId: string)            // a bare id, in its string form

  datatype Volunteer = Volunteer(id: string, assignedService: AssignedService)

  /** A service coordinator entry; these four fields are also the PATCH body. */
  datatype Coordinator = Coordinator(id: string, serviceName: string, coordinatorName: string, coordinatorNumber: string)

  /** One page of the volunteer list as the server returns it. */
  datatype VolunteerPage = VolunteerPage(data: Option<seq<Volunteer>>, totalCount: Option<nat>)

  datatype ParamValue = Number(n: int) | Text(s: string)

  type Params = map<string, ParamValue>

  /** The assigned id in its string form, if the record carries one. */
  function AssignedId(a: AssignedService): Option<string>
  {
    match a
    case Unassigned => None
    case Embedded(id) => id
    case Raw(id) => Some(id)
  }

  /** Whether some coordinator has the given id (`Array.prototype.some`). */
  function HasCoordinator(cs: seq<Coordinator>, id: string): (b: bool)
    ensures b <==> exists c :: c in cs && c.id == id
  {
    if cs == [] then false
    else
      assert forall c :: c in cs <==> c == cs[0] || c in cs[1..];
      cs[0].id == id || HasCoordinator(cs[1..], id)
  }

  /** The first coordinator with the given id (`Array.prototype.find`). */
  function FindCoordinator(cs: seq<Coordinator>, id: string): (r: Option<Coordinator>)
    ensures r.None? <==> forall k | 0 <= k < |cs| :: cs[k].id != id
    ensures r.Some? ==> exists k | 0 <= k < |cs| :: cs[k] == r.value && r.value.id == id
                                                  && forall j | 0 <= j < k :: cs[j].id != id
  {
    if cs == [] then None
    else if cs[0].id == id then Some(cs[0])
    else
      var r := FindCoordinator(cs[1..], id);
      assert forall k | 1 <= k < |cs| :: cs[k] == cs[1..][k - 1];
      if r.Some? then
        var k :| 0 <= k < |cs[1..]| && cs[1..][k] == r.value && r.value.id == id
                 && forall j | 0 <= j < k :: cs[1..][j].id != id;
        assert cs[k + 1] == r.value && forall j | 0 <= j < k + 1 :: cs[j].id != id;
        r
      else
        r
  }

  /**
   * The value of a row's dropdown: the local selection when there is one,
   * otherwise the assigned id when it names a known coordinator, otherwise
   * the empty placeholder.
   */
  function DropdownValue(selection: map<string, string>, cs: seq<Coordinator>, vol: Volunteer): (r: string)
    ensures vol.id in selection ==> r == selection[vol.id]
    ensures vol.id !in selection ==>
      (r != "" <==> Truthy(AssignedId(vol.assignedService))
                    && exists c :: c in cs && c.id == AssignedId(vol.assignedService).value)
    ensures vol.id !in selection && r != "" ==> r == AssignedId(vol.assignedService).value
  {
    if vol.id in selection then selection[vol.id]
    else
      var assignedId := AssignedId(vol.assignedService);
      if Truthy(assignedId) && HasCoordinator(cs, assignedId.value) then assignedId.value else ""
  }

  /** The query parameters of a page request. */
  function FetchParams(page: int, name: string, whatsapp: string): (p: Params)
    ensures "page" in p && p["page"] == Number(page)
    ensures "pageSize" in p && p["pageSize"] == Number(PageSize)
    ensures ("name" in p <==> name != "") && ("name" in p ==> p["name"] == Text(name))
    ensures ("whatsapp" in p <==> whatsapp != "") && ("whatsapp" in p ==> p["whatsapp"] == Text(whatsapp))
    ensures p.Keys <= {"page", "pageSize", "name", "whatsapp"}
  {
    map["page" := Number(page), "pageSize" := Number(PageSize)]
    + (if name != "" then map["name" := Text(name)] else map[])
    + (if whatsapp != "" then map["whatsapp" := Text(whatsapp)] else map[])
  }

  /** `Math.ceil(total / PageSize)`: the fewest pages that hold `total` rows. */
  function PageCount(total: nat): (n: nat)
    ensures n * PageSize >= total
    ensures n > 0 ==> (n - 1) * PageSize < total
  {
    (total + PageSize - 1) / PageSize
  }

  /** `Math.max(p - 1, 1)`. */
  function Prev(p: int): (r: int)
    ensures r >= 1 && r >= p - 1
    ensures r == 1 || r == p - 1
  {
    if p - 1 > 1 then p - 1 else 1
  }

  /** `Math.min(p + 1, pageCount)`. */
  function Next(p: int, pageCount: nat): (r: int)
    ensures r <= pageCount && r <= p + 1
    ensures r == pageCount || r == p + 1
  {
    if p + 1 < pageCount then p + 1 else pageCount
  }

  /** Prev and Next stay within the pages and undo each other. */
  lemma PrevNextInRange(p: int, pageCount: nat)
    requires 1 <= p <= pageCount
    ensures 1 <= Prev(p) <= pageCount && 1 <= Next(p, pageCount) <= pageCount
    ensures p > 1 ==> Next(Prev(p), pageCount) == p
    ensures p < pageCount ==> Prev(Next(p, pageCount)) == p
  {
  }

  /**
   * The "S.No" column: every row received is numbered, after the rows of
   * the earlier pages; a row within the page size stays in its page's block.
   */
  function SerialNumber(page: int, index: nat): (n: int)
    ensures n > (page - 1) * PageSize
    ensures index < PageSize ==> n <= page * PageSize
  {
    (page - 1) * PageSize + index + 1
  }

  /** Rows of one page are numbered consecutively, however many the page holds. */
  lemma SerialNumbersConsecutive(page: int, index: nat)
    ensures SerialNumber(page, index + 1) == SerialNumber(page, index) + 1
  {
  }

  /** The last row of a page and the first row of the next are numbered consecutively. */
  lemma SerialNumbersContiguous(page: int)
    ensures SerialNumber(page, PageSize - 1) + 1 == SerialNumber(page + 1, 0)
  {
  }

  /**
   * Numbers are distinct only while pages hold at most `PageSize` rows: a
   * page that came back longer shares a number with the next page.
   */
  lemma OversizedPageRepeatsNumbers(page: int)
    ensures SerialNumber(page, PageSize) == SerialNumber(page + 1, 0)
  {
  }

  /** Different rows of pages within the page size, on the same or different pages, never share a number. */
  lemma SerialNumbersDistinct(p1: int, i1: nat, p2: int, i2: nat)
    requires i1 < PageSize && i2 < PageSize
    requires SerialNumber(p1, i1) == SerialNumber(p2, i2)
    ensures p1 == p2 && i1 == i2
  {
  }

  /** The view state of the table page. */
  class TableView {
    var volunteers: seq<Volunteer>
    var totalVolunteers: nat
    var coordinators: seq<Coordinator>
    var filterName: string
    var filterWhatsapp: string
    var currentPage: int
    var serviceSelection: map<string, string>
    var assigning: map<string, bool>

    ghost predicate Valid()
      reads this
    {
      currentPage >= 1
    }

    constructor ()
      ensures Valid()
      ensures volunteers == [] && totalVolunteers == 0 && coordinators == []
      ensures filterName == "" && filterWhatsapp == "" && currentPage == 1
      ensures serviceSelection == map[] && assigning == map[]
    {
      volunteers, totalVolunteers, coordinators := [], 0, [];
      filterName, filterWhatsapp, currentPage := "", "", 1;
      serviceSelection, assigning := map[], map[];
    }

    /** The page count shown between the Prev and Next buttons. */
    function Pages(): nat
      reads this
    {
      PageCount(totalVolunteers)
    }

    /** Whether a row's dropdown is disabled while its update is in flight. */
    predicate IsAssigning(volId: string)
      reads this
    {
      volId in assigning && assigning[volId]
    }

    /** A page response arrived (`None`: the request threw, nothing changes). */
    method ReceivePage(response: Option<VolunteerPage>)
      modifies this`volunteers, this`totalVolunteers
      ensures response.None? ==> volunteers == old(volunteers) && totalVolunteers == old(totalVolunteers)
      ensures response.Some? ==>
        && volunteers == (if response.value.data.Some? then response.value.data.value else [])
        && totalVolunteers == (if response.value.totalCount.Some? then response.value.totalCount.value else 0)
    {
      if response.Some? {
        volunteers := if response.value.data.Some? then response.value.data.value else [];
        totalVolunteers := if response.value.totalCount.Some? then response.value.totalCount.value else 0;
      }
    }

    /** The coordinator list arrived (`None`: the request failed and the list stays). */
    method ReceiveCoordinators(response: Option<seq<Coordinator>>)
      modifies this`coordinators
      ensures coordinators == if response.Some? then response.value else old(coordinators)
    {
      if response.Some? {
        coordinators := response.value;
      }
    }

    /**
     * The filter inputs changed. When either value differs from before, the
     * filter effect runs: page 1 is requested with the new filters, the page
     * goes back to 1 and every local selection is forgotten.
     */
    method SetFilters(name: string, whatsapp: string) returns (request: Option<Params>)
      requires Valid()
      modifies this`filterName, this`filterWhatsapp, this`currentPage, this`serviceSelection
      ensures Valid()
      ensures filterName == name && filterWhatsapp == whatsapp
      ensures (name, whatsapp) != (old(filterName), old(filterWhatsapp)) ==>
        && currentPage == 1 && serviceSelection == map[]
        && request == Some(FetchParams(1, name, whatsapp))
      ensures (name, whatsapp) == (old(filterName), old(filterWhatsapp)) ==>
        && currentPage == old(currentPage) && serviceSelection == old(serviceSelection)
        && request == None
    {
      var changed := (name, whatsapp) != (filterName, filterWhatsapp);
      filterName, filterWhatsapp := name, whatsapp;
      request := None;
      if changed {
        request := Some(FetchParams(1, filterName, filterWhatsapp));
        currentPage := 1;
        serviceSelection := map[];
      }
    }

    /** The Prev button: disabled on page 1, otherwise one page back and a fetch of it. */
    method PrevPage() returns (request: Option<Params>)
      requires Valid()
      modifies this`currentPage
      ensures Valid()
      ensures old(currentPage) == 1 ==> currentPage == 1 && request == None
      ensures old(currentPage) != 1 ==>
        && currentPage == Prev(old(currentPage)) == old(currentPage) - 1
        && request == Some(FetchParams(currentPage, filterName, filterWhatsapp))
    {
      request := None;
      if currentPage != 1 {
        currentPage := Prev(currentPage);
        request := Some(FetchParams(currentPage, filterName, filterWhatsapp));
      }
    }

    /** The Next button: disabled on the last page, otherwise one page on and a fetch of it. */
    method NextPage() returns (request: Option<Params>)
      requires Valid()
      modifies this`currentPage
      ensures Valid()
      ensures old(currentPage) >= Pages() ==> currentPage == old(currentPage) && request == None
      ensures old(currentPage) < Pages() ==>
        && currentPage == Next(old(currentPage), Pages()) == old(currentPage) + 1
        && currentPage <= Pages()
        && request == Some(FetchParams(currentPage, filterName, filterWhatsapp))
    {
      request := None;
      if currentPage < Pages() {
        currentPage := Next(currentPage, Pages());
        request := Some(FetchParams(currentPage, filterName, filterWhatsapp));
      }
    }

    /**
     * A coordinator was chosen in a row's dropdown: the choice is recorded
     * and the row is marked in flight before anything else. The result is
     * the `assignedService` body of the PATCH, or `None` when no coordinator
     * has that id and no request is sent.
     */
    method BeginAssign(volId: string, coordinatorId: string) returns (body: Option<Coordinator>)
      modifies this`serviceSelection, this`assigning
      ensures serviceSelection == old(serviceSelection)[volId := coordinatorId]
      ensures assigning == old(assigning)[volId := true]
      ensures body.None? <==> forall k | 0 <= k < |coordinators| :: coordinators[k].id != coordinatorId
      ensures body.Some? ==> body.value in coordinators && body.value.id == coordinatorId
    {
      serviceSelection := serviceSelection[volId := coordinatorId];
      assigning := assigning[volId := true];
      body := FindCoordinator(coordinators, coordinatorId);
    }

    /**
     * The assignment settled, successfully (`patched`) or not: the row is no
     * longer in flight either way, and a success re-fetches the current page.
     */
    method FinishAssign(volId: string, patched: bool) returns (refetch: Option<Params>)
      modifies this`assigning
      ensures assigning == old(assigning)[volId := false]
      ensures !IsAssigning(volId)
      ensures refetch == if patched then Some(FetchParams(currentPage, filterName, filterWhatsapp)) else None
    {
      refetch := if patched then Some(FetchParams(currentPage, filterName, filterWhatsapp)) else None;
      assigning := assigning[volId := false];
    }
  }
}
