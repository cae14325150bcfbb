/**
 * The "Check My Seva Assignment" page: a volunteer types a WhatsApp
 * number, the page strips it to digits, looks the volunteer up, and shows
 * the assigned service only when the assignment is complete.
 */
module CheckServiceAssignment {
  import opened Common

  /** `num.replace(/\D/g, "")`: every character that is not 0-9 is deleted. */
  function NormalizeWhatsapp(s: string): (r: string)
    ensures forall i | 0 <= i < |r| :: IsDigit(r[i])
    ensures IsSubsequence(r, s)
    ensures forall c | IsDigit(c) :: multiset(r)[c] == multiset(s)[c]
  {
    FilterMultiplicity(s, IsDigit);
    Filter(s, IsDigit)
  }

  lemma NormalizeWhatsappIdempotent(s: string)
    ensures NormalizeWhatsapp(NormalizeWhatsapp(s)) == NormalizeWhatsapp(s)
  {
    FilterIdempotent(s, IsDigit);
  }

  /** A number typed as digits only is looked up exactly as typed. */
  lemma DigitsOnlyUnchanged(s: string)
    requires forall i | 0 <= i < |s| :: IsDigit(s[i])
    ensures NormalizeWhatsapp(s) == s
  {
    FilterKeepsAll(s, IsDigit);
  }

  /** Normalising a number typed in two pieces is normalising each piece. */
  lemma NormalizeWhatsappConcat(a: string, b: string)
    ensures NormalizeWhatsapp(a + b) == NormalizeWhatsapp(a) + NormalizeWhatsapp(b)
  {
    FilterConcat(a, b, IsDigit);
  }

  /** The Check button is disabled while nothing is left after normalising, or while a check runs. */
  predicate CheckDisabled(whatsapp: string, checking: bool)
  {
    NormalizeWhatsapp(whatsapp) == "" || checking
  }

  /** Outside a running check, the button is disabled exactly when the input holds no digit. */
  lemma CheckDisabledIffNoDigit(whatsapp: string)
    ensures CheckDisabled(whatsapp, false) <==> forall i | 0 <= i < |whatsapp| :: !IsDigit(whatsapp[i])
  {
    var r := NormalizeWhatsapp(whatsapp);
    if i :| 0 <= i < |whatsapp| && IsDigit(whatsapp[i]) {
      assert whatsapp[i] in multiset(whatsapp);
      assert multiset(r)[whatsapp[i]] > 0;
    }
  }

  /** `assignedService` as the server returns it; any part may be missing. */
  datatype AssignedService = AssignedService(
    id: Option<string>,
    serviceName: Option<string>,
    coordinatorName: Option<string>,
    coordinatorNumber: Option<string>)

  datatype VolunteerData = VolunteerData(assignedService: Option<AssignedService>)

  /** What the page shows for a complete assignment. */
  datatype ServiceInfo = ServiceInfo(serviceName: string, coordinatorName: string, coordinatorNumber: string)

  /**
   * `fetchVolunteerData`: the decoded body of a 2xx response; `null` for a
   * 404, for any other status (the thrown error is caught) and for a
   * request that throws.
   */
  function FetchVolunteerData(response: Outcome<VolunteerData>): (d: Option<VolunteerData>)
    ensures d.Some? <==> response.Ok?
    ensures response.Ok? ==> d.value == response.data
  {
    match response
    case Ok(data) => Some(data)
    case NotOk(_) => None
    case Failed(_) => None
  }

  /** A field the server left as the spreadsheet's "nan" or empty. */
  predicate IsPlaceholder(field: Option<string>)
  {
    field == Some("nan") || !Truthy(field)
  }

  /** The four ways a check ends. */
  datatype Lookup =
    | NotFound                   // no volunteer data
    | NoService                  // no `assignedService`, or it has no `_id`
    | NotYetAssigned             // a name or number is "nan" or empty
    | Assigned(info: ServiceInfo)

  /** The branches of `handleCheck` after the lookup, in their order. */
  function Classify(d: Option<VolunteerData>): (c: Lookup)
    ensures c.NotFound? <==> d.None?
    ensures c.NoService? <==>
      d.Some? && (d.value.assignedService.None? || !Truthy(d.value.assignedService.value.id))
    ensures c.NotYetAssigned? <==>
      && d.Some? && d.value.assignedService.Some? && Truthy(d.value.assignedService.value.id)
      && var a := d.value.assignedService.value;
         IsPlaceholder(a.serviceName) || IsPlaceholder(a.coordinatorName) || IsPlaceholder(a.coordinatorNumber)
    ensures c.Assigned? ==>
      && var a := d.value.assignedService.value;
         && a.serviceName == Some(c.info.serviceName)
         && a.coordinatorName == Some(c.info.coordinatorName)
         && a.coordinatorNumber == Some(c.info.coordinatorNumber)
  {
    if d.None? then NotFound
    else if d.value.assignedService.None? || !Truthy(d.value.assignedService.value.id) then NoService
    else
      var a := d.value.assignedService.value;
      if IsPlaceholder(a.serviceName) || IsPlaceholder(a.coordinatorName) || IsPlaceholder(a.coordinatorNumber) then
        NotYetAssigned
      else
        Assigned(ServiceInfo(a.serviceName.value, a.coordinatorName.value, a.coordinatorNumber.value))
  }

  /** A service is only ever shown with three real, non-placeholder values. */
  lemma AssignedServiceIsComplete(d: Option<VolunteerData>)
    requires Classify(d).Assigned?
    ensures var info := Classify(d).info;
      && info.serviceName != "" && info.serviceName != "nan"
      && info.coordinatorName != "" && info.coordinatorName != "nan"
      && info.coordinatorNumber != "" && info.coordinatorNumber != "nan"
  {
  }

  /** The page's state. */
  class AssignmentCheck {
    var whatsapp: string
    var checking: bool
    var service: Option<ServiceInfo>
    var notFound: bool

    constructor ()
      ensures whatsapp == "" && !checking && service == None && !notFound
    {
      whatsapp, checking, service, notFound := "", false, None, false;
    }

    /**
     * The Check button. `requested` is the number looked up; `response`
     * stands for the lookup's answer. The service is shown exactly for a
     * complete assignment, "not found" exactly when there was no data, and
     * `checking` is false again on every path.
     */
    method Check(response: Outcome<VolunteerData>) returns (requested: string)
      modifies this`checking, this`service, this`notFound
      ensures requested == NormalizeWhatsapp(whatsapp)
      ensures !checking
      ensures var c := Classify(FetchVolunteerData(response));
        && (notFound <==> c.NotFound?)
        && (service.Some? <==> c.Assigned?)
        && (c.Assigned? ==> service == Some(c.info))
    {
      checking := true;
      service := None;
      notFound := false;
      requested := NormalizeWhatsapp(whatsapp);
      var data := FetchVolunteerData(response);
      if data.None? {
        notFound := true;
      } else if data.value.assignedService.None? || !Truthy(data.value.assignedService.value.id) {
        service := None;
      } else {
        var a := data.value.assignedService.value;
        if a.serviceName == Some("nan") || a.coordinatorName == Some("nan") || a.coordinatorNumber == Some("nan")
           || !Truthy(a.serviceName) || !Truthy(a.coordinatorName) || !Truthy(a.coordinatorNumber)
        {
          service := None;
        } else {
          service := Some(ServiceInfo(a.serviceName.value, a.coordinatorName.value, a.coordinatorNumber.value));
        }
      }
      checking := false;
    }
  }
}
