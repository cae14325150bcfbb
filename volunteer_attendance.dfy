/**
 * The daily attendance pass: look a volunteer up by WhatsApp number, show
 * whether they have already attended today for their assigned service, and
 * mark attendance.
 */
module VolunteerAttendance {
  import opened Common

  /** The service type used when a volunteer has no assigned service name. */
  const DefaultServiceType := "General"

  const NotFoundMessage := "Volunteer not found"
  const MarkErrorMessage := "Attendance error"

  datatype AttendanceRecord = AttendanceRecord(date: string, serviceType: Option<string>, attended: bool)

  datatype Volunteer = Volunteer(
    whatsappNumber: string,
    assignedServiceName: Option<string>,  // `assignedService?.serviceName`
    attendance: Option<seq<AttendanceRecord>>)

  /** The body POSTed to record attendance. */
  datatype AttendanceRequest = AttendanceRequest(whatsappNumber: string, date: string, serviceType: string)

  /** The answer to the attendance POST. */
  datatype MarkResponse =
    | Marked(volunteer: Option<Volunteer>)  // 2xx, with the server's copy of the volunteer
    | Refused(reason: Option<string>)       // non-2xx, with the body's message
    | MarkFailed(thrown: string)            // the request or its body threw

  /** The service type attendance is recorded and checked under. */
  function ServiceTypeOf(v: Volunteer): (t: string)
    ensures t != ""
    ensures Truthy(v.assignedServiceName) ==> t == v.assignedServiceName.value
    ensures !Truthy(v.assignedServiceName) ==> t == DefaultServiceType
  {
    OrElse(v.assignedServiceName, DefaultServiceType)
  }

  /** A record counts for today: same date, the volunteer's service type, attended. */
  predicate CountsToday(a: AttendanceRecord, today: string, serviceType: string)
  {
    a.date == today && a.serviceType == Some(serviceType) && a.attended
  }

  /** `records.some(...)`, scanning from the front. */
  function AnyCountsToday(records: seq<AttendanceRecord>, today: string, serviceType: string): (b: bool)
    ensures b <==> exists i | 0 <= i < |records| :: CountsToday(records[i], today, serviceType)
  {
    if records == [] then false
    else
      assert forall i | 1 <= i < |records| :: records[i] == records[1..][i - 1];
      CountsToday(records[0], today, serviceType) || AnyCountsToday(records[1..], today, serviceType)
  }

  /**
   * Whether the Mark button shows "Attendance Marked" and is disabled: a mark
   * succeeded in this session, or the loaded volunteer has a record for today
   * under their service type with `attended` set.
   */
  function AlreadyAttended(volunteer: Option<Volunteer>, attendanceMarked: bool, today: string): (b: bool)
    ensures b <==> attendanceMarked
                   || (volunteer.Some? && volunteer.value.attendance.Some?
                       && exists i | 0 <= i < |volunteer.value.attendance.value| ::
                            CountsToday(volunteer.value.attendance.value[i], today, ServiceTypeOf(volunteer.value)))
  {
    (volunteer.Some? && volunteer.value.attendance.Some?
     && AnyCountsToday(volunteer.value.attendance.value, today, ServiceTypeOf(volunteer.value)))
    || attendanceMarked
  }

  /** A record for another date, another service type, or not attended never makes the pass count. */
  lemma OtherRecordsDoNotCount(v: Volunteer, records: seq<AttendanceRecord>, today: string)
    requires v.attendance == Some(records)
    requires forall i | 0 <= i < |records| ::
               records[i].date != today || records[i].serviceType != Some(ServiceTypeOf(v)) || !records[i].attended
    ensures !AlreadyAttended(Some(v), false, today)
  {
  }

  /** The page's state. `today` stands for the browser's formatted date. */
  class AttendancePage {
    const today: string
    var whatsappNumber: string
    var volunteer: Option<Volunteer>
    var loading: bool
    var attendanceLoading: bool
    var attendanceMarked: bool
    var error: string

    constructor (today: string)
      ensures this.today == today
      ensures whatsappNumber == "" && volunteer == None && error == ""
      ensures !loading && !attendanceLoading && !attendanceMarked
    {
      this.today := today;
      whatsappNumber, volunteer, error := "", None, "";
      loading, attendanceLoading, attendanceMarked := false, false, false;
    }

    function Attended(): bool
      reads this
    {
      AlreadyAttended(volunteer, attendanceMarked, today)
    }

    /** The WhatsApp number input. */
    method SetWhatsappNumber(n: string)
      modifies this`whatsappNumber
      ensures whatsappNumber == n
    {
      whatsappNumber := n;
    }

    /**
     * The Fetch button: error and volunteer are cleared first, and the
     * number typed, as it is, is the one `requested`; a 2xx response loads
     * the volunteer, any other status reports "Volunteer not found", and a
     * thrown request reports its message.
     */
    method Fetch(response: Outcome<Volunteer>) returns (requested: string)
      modifies this`loading, this`error, this`volunteer
      ensures requested == whatsappNumber
      ensures !loading
      ensures response.Ok? ==> volunteer == Some(response.data) && error == ""
      ensures response.NotOk? ==> volunteer == None && error == NotFoundMessage
      ensures response.Failed? ==> volunteer == None && error == response.message
    {
      loading := true;
      error := "";
      volunteer := None;
      requested := whatsappNumber;
      match response {
        case Ok(v) => volunteer := Some(v);
        case NotOk(_) => error := NotFoundMessage;
        case Failed(m) => error := m;
      }
      loading := false;
    }

    /**
     * The Mark Attendance button. Without a loaded volunteer nothing happens
     * and nothing is sent. Otherwise `request` is the POST body; a 2xx answer
     * sets `attendanceMarked` and replaces the volunteer with the server's
     * copy, and an error answer leaves both and reports a message.
     */
    method MarkAttendance(response: MarkResponse) returns (request: Option<AttendanceRequest>)
      modifies this`attendanceLoading, this`error, this`attendanceMarked, this`volunteer
      ensures old(volunteer).None? ==>
        && request == None && volunteer == None && error == old(error)
        && attendanceMarked == old(attendanceMarked) && attendanceLoading == old(attendanceLoading)
      ensures old(volunteer).Some? ==>
        && request == Some(AttendanceRequest(old(volunteer).value.whatsappNumber, today,
                                             ServiceTypeOf(old(volunteer).value)))
        && !attendanceLoading
      ensures old(volunteer).Some? && response.Marked? ==>
        && attendanceMarked && volunteer == response.volunteer && error == ""
        && Attended()
      ensures old(volunteer).Some? && response.Refused? ==>
        && attendanceMarked == old(attendanceMarked) && volunteer == old(volunteer)
        && error == OrElse(response.reason, MarkErrorMessage)
      ensures old(volunteer).Some? && response.MarkFailed? ==>
        && attendanceMarked == old(attendanceMarked) && volunteer == old(volunteer)
        && error == response.thrown
    {
      if volunteer.None? {
        return None;
      }
      attendanceLoading := true;
      error := "";
      var v := volunteer.value;
      request := Some(AttendanceRequest(v.whatsappNumber, today, ServiceTypeOf(v)));
      match response {
        case Marked(updated) =>
          attendanceMarked := true;
          volunteer := updated;
        case Refused(message) =>
          error := OrElse(message, MarkErrorMessage);
        case MarkFailed(message) =>
          error := message;
      }
      attendanceLoading := false;
    }
  }

  /** The number looked up is the one last typed, untouched by any normalisation. */
  method TypeThenFetch(page: AttendancePage, n: string, response: Outcome<Volunteer>) returns (requested: string)
    modifies page
    ensures requested == n
    ensures response.NotOk? ==> page.volunteer == None && page.error == NotFoundMessage
  {
    page.SetWhatsappNumber(n);
    requested := page.Fetch(response);
  }
}
