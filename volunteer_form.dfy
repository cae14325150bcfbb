/**
 * The festival volunteer registration form: the availability radio groups,
 * the ordered validator with its conditional requirements, and the payload
 * the form POSTs after renaming, deleting and defaulting fields.
 */
module VolunteerForm {
  import opened Common

  const FullDay := "Full Day"

  const NameRequired := "Name is required"
  const WhatsappRequired := "WhatsApp Number is required"
  const BirthDateRequired := "Date of Birth is required"
  const AgeRequired := "Valid Age is required"
  const GenderRequired := "Gender is required"
  const ContactRequired := "Contact person is required"
  const ProfessionRequired := "Profession is required"
  const MaritalStatusRequired := "Marital Status is required"
  const CollegeRequired := "College or Company name is required"
  const TShirtRequired := "T-Shirt Size is required"
  const AccommodationRequired := "Accommodation info is required"

  /** The availability chosen for one festival date. */
  datatype Slot = Slot(date: string, timeSlot: string)

  /** The form's fields; `age` is `None` while the age input is empty. */
  datatype FormData = FormData(
    name: string,
    whatsappNumber: string,
    dateOfBirth: string,
    age: Option<int>,
    gender: string,
    maritalStatus: string,
    profession: string,
    collegeOrCompany: string,
    location: string,
    contactPerson: string,
    infoSource: string,
    serviceAvailability: seq<Slot>,
    tShirtSize: string,
    needAccommodation: string)

  const EmptyForm := FormData("", "", "", None, "", "", "", "", "", "", "", [], "", "")

  /** A JSON value of the registration payload. */
  datatype Value = Text(s: string) | Number(n: int) | Slots(slots: seq<Slot>)

  /** Under 30 (and over 0) and male: the extra profession fields apply. */
  predicate IsYoungBoy(f: FormData)
  {
    f.age.Some? && 0 < f.age.value < 30 && f.gender == "Male"
  }

  /** Some chosen slot is a full day: the T-shirt and accommodation fields apply. */
  predicate IsFullDayVolunteer(f: FormData)
  {
    exists i | 0 <= i < |f.serviceAvailability| :: f.serviceAvailability[i].timeSlot == FullDay
  }

  // ---------------------------------------------------------------------
  // Availability

  /** The slot chosen for a date, as the date's radio group shows it (`find`). */
  function SlotFor(slots: seq<Slot>, date: string): Option<string>
  {
    if slots == [] then None
    else if slots[0].date == date then Some(slots[0].timeSlot)
    else SlotFor(slots[1..], date)
  }

  /** No date has two entries. */
  predicate OneSlotPerDate(slots: seq<Slot>)
  {
    forall i, j | 0 <= i < j < |slots| :: slots[i].date != slots[j].date
  }

  /** Choosing `timeSlot` for `date`: drop that date's entries, append the new one. */
  function ChooseSlot(slots: seq<Slot>, date: string, timeSlot: string): (r: seq<Slot>)
    ensures |r| > 0 && r[|r| - 1] == Slot(date, timeSlot)
    ensures forall i | 0 <= i < |r| - 1 :: r[i].date != date
    ensures forall s :: s in r[..|r| - 1] <==> s in slots && s.date != date
    ensures IsSubsequence(r[..|r| - 1], slots)
  {
    var kept := Filter(slots, (s: Slot) => s.date != date);
    var r := kept + [Slot(date, timeSlot)];
    assert r[..|r| - 1] == kept;
    assert forall i | 0 <= i < |kept| :: kept[i] in kept;
    r
  }

  lemma {:induction false} SlotForAppend(slots: seq<Slot>, s: Slot, date: string)
    ensures SlotFor(slots + [s], date)
            == if SlotFor(slots, date).Some? then SlotFor(slots, date)
               else if s.date == date then Some(s.timeSlot) else None
  {
    if slots != [] {
      assert (slots + [s])[1..] == slots[1..] + [s];
      SlotForAppend(slots[1..], s, date);
    }
  }

  lemma {:induction false} SlotForWithoutDate(slots: seq<Slot>, date: string, other: string)
    requires other != date
    ensures SlotFor(Filter(slots, (s: Slot) => s.date != date), other) == SlotFor(slots, other)
  {
    if slots != [] {
      SlotForWithoutDate(slots[1..], date, other);
    }
  }

  /**
   * After choosing, the date's radio group shows the new choice and every
   * other date's group shows what it showed before.
   */
  lemma ChooseSlotShown(slots: seq<Slot>, date: string, timeSlot: string, other: string)
    ensures SlotFor(ChooseSlot(slots, date, timeSlot), date) == Some(timeSlot)
    ensures other != date ==> SlotFor(ChooseSlot(slots, date, timeSlot), other) == SlotFor(slots, other)
  {
    var kept := Filter(slots, (s: Slot) => s.date != date);
    SlotForAppend(kept, Slot(date, timeSlot), date);
    SlotForAppend(kept, Slot(date, timeSlot), other);
    assert SlotFor(kept, date) == None by {
      assert forall i | 0 <= i < |kept| :: kept[i] in kept;
      SlotForNone(kept, date);
    }
    if other != date {
      SlotForWithoutDate(slots, date, other);
    }
  }

  lemma {:induction false} SlotForNone(slots: seq<Slot>, date: string)
    requires forall i | 0 <= i < |slots| :: slots[i].date != date
    ensures SlotFor(slots, date) == None
  {
    if slots != [] {
      SlotForNone(slots[1..], date);
    }
  }

  lemma {:induction false} FilterKeepsOneSlotPerDate(slots: seq<Slot>, date: string)
    requires OneSlotPerDate(slots)
    ensures OneSlotPerDate(Filter(slots, (s: Slot) => s.date != date))
  {
    if slots != [] {
      FilterKeepsOneSlotPerDate(slots[1..], date);
      var rest := Filter(slots[1..], (s: Slot) => s.date != date);
      forall s | s in rest ensures s.date != slots[0].date {
        var k :| 0 <= k < |slots[1..]| && slots[1..][k] == s;
        assert slots[k + 1] == s;
      }
    }
  }

  /** Choosing a slot keeps the one-entry-per-date shape of the availability list. */
  lemma ChooseSlotKeepsOneSlotPerDate(slots: seq<Slot>, date: string, timeSlot: string)
    requires OneSlotPerDate(slots)
    ensures OneSlotPerDate(ChooseSlot(slots, date, timeSlot))
  {
    FilterKeepsOneSlotPerDate(slots, date);
  }

  /** Choosing the same slot again changes nothing. */
  lemma ChooseSlotIdempotent(slots: seq<Slot>, date: string, timeSlot: string)
    ensures ChooseSlot(ChooseSlot(slots, date, timeSlot), date, timeSlot) == ChooseSlot(slots, date, timeSlot)
  {
    var p := (s: Slot) => s.date != date;
    var kept := Filter(slots, p);
    FilterConcat(kept, [Slot(date, timeSlot)], p);
    FilterIdempotent(slots, p);
    assert Filter([Slot(date, timeSlot)], p) == [];
  }

  // ---------------------------------------------------------------------
  // Validation

  /** Every requirement of the form holds, the conditional ones included. */
  predicate Complete(f: FormData)
  {
    && !IsBlank(f.name)
    && !IsBlank(f.whatsappNumber)
    && f.dateOfBirth != ""
    && f.age.Some? && f.age.value > 0
    && f.gender != ""
    && f.contactPerson != ""
    && (IsYoungBoy(f) ==> f.profession != "" && f.maritalStatus != "" && !IsBlank(f.collegeOrCompany))
    && (IsFullDayVolunteer(f) ==> f.tShirtSize != "" && f.needAccommodation != "")
  }

  function When(failed: bool, message: string): seq<string>
  {
    if failed then [message] else []
  }

  /** Every message the form deserves, in the order the validator checks them. */
  function Failures(f: FormData): seq<string>
  {
    When(IsBlank(f.name), NameRequired)
    + When(IsBlank(f.whatsappNumber), WhatsappRequired)
    + When(f.dateOfBirth == "", BirthDateRequired)
    + When(f.age.None? || f.age.value <= 0, AgeRequired)
    + When(f.gender == "", GenderRequired)
    + When(f.contactPerson == "", ContactRequired)
    + When(IsYoungBoy(f) && f.profession == "", ProfessionRequired)
    + When(IsYoungBoy(f) && f.maritalStatus == "", MaritalStatusRequired)
    + When(IsYoungBoy(f) && IsBlank(f.collegeOrCompany), CollegeRequired)
    + When(IsFullDayVolunteer(f) && f.tShirtSize == "", TShirtRequired)
    + When(IsFullDayVolunteer(f) && f.needAccommodation == "", AccommodationRequired)
  }

  /**
   * The validator: the first failed check's message, or `None` when the
   * form may be sent.
   */
  function Validate(f: FormData): (r: Option<string>)
    ensures r.None? <==> Complete(f)
    ensures r == if Failures(f) == [] then None else Some(Failures(f)[0])
    ensures IsBlank(f.name) ==> r == Some(NameRequired)
  {
    if IsBlank(f.name) then Some(NameRequired)
    else if IsBlank(f.whatsappNumber) then Some(WhatsappRequired)
    else if f.dateOfBirth == "" then Some(BirthDateRequired)
    else if f.age.None? || f.age.value <= 0 then Some(AgeRequired)
    else if f.gender == "" then Some(GenderRequired)
    else if f.contactPerson == "" then Some(ContactRequired)
    else if IsYoungBoy(f) && f.profession == "" then Some(ProfessionRequired)
    else if IsYoungBoy(f) && f.maritalStatus == "" then Some(MaritalStatusRequired)
    else if IsYoungBoy(f) && IsBlank(f.collegeOrCompany) then Some(CollegeRequired)
    else if IsFullDayVolunteer(f) && f.tShirtSize == "" then Some(TShirtRequired)
    else if IsFullDayVolunteer(f) && f.needAccommodation == "" then Some(AccommodationRequired)
    else None
  }

  /** Profession, marital status and college are never looked at unless the volunteer is a young boy. */
  lemma YoungBoyFieldsIgnoredOtherwise(f: FormData, profession: string, maritalStatus: string, college: string)
    requires !IsYoungBoy(f)
    ensures Validate(f.(profession := profession, maritalStatus := maritalStatus, collegeOrCompany := college))
            == Validate(f)
  {
  }

  /** T-shirt size and accommodation are never looked at unless some slot is a full day. */
  lemma FullDayFieldsIgnoredOtherwise(f: FormData, tShirtSize: string, needAccommodation: string)
    requires !IsFullDayVolunteer(f)
    ensures Validate(f.(tShirtSize := tShirtSize, needAccommodation := needAccommodation)) == Validate(f)
  {
  }

  /**
   * The T-shirt and accommodation inputs render only while the volunteer
   * is a young boy with a full-day slot, yet the validator asks them of
   * every full-day volunteer: one who is not a young boy is refused unless
   * the size was chosen while those inputs were shown.
   */
  lemma FullDayWithoutTShirtInputRefused(f: FormData)
    requires IsFullDayVolunteer(f) && !IsYoungBoy(f) && f.tShirtSize == ""
    ensures Validate(f).Some?
  {
  }

  /**
   * Nothing clears the size and accommodation when the age or gender
   * changes: a form that passed as a young boy's still passes once the
   * gender is switched, although the inputs are then hidden.
   */
  lemma HiddenSizeCarriesOver(f: FormData, gender: string)
    requires Validate(f).None? && IsYoungBoy(f) && gender != ""
    ensures Validate(f.(gender := gender)).None?
    ensures IsFullDayVolunteer(f) && gender != "Male" ==>
      !IsYoungBoy(f.(gender := gender)) && f.(gender := gender).tShirtSize != ""
  {
  }

  // ---------------------------------------------------------------------
  // Payload

  /**
   * The JSON object POSTed on submit, one component per property it can
   * carry; a property that is absent (never set, or deleted) is `None`.
   * The form's `tShirtSize` and the payload's `tshirtSize` are two
   * different properties.
   */
  datatype Payload = Payload(
    name: Option<Value>,
    whatsappNumber: Option<Value>,
    dateOfBirth: Option<Value>,
    age: Option<Value>,
    gender: Option<Value>,
    maritalStatus: Option<Value>,
    profession: Option<Value>,
    collegeOrCompany: Option<Value>,
    location: Option<Value>,
    contactPerson: Option<Value>,
    infoSource: Option<Value>,
    serviceAvailability: Option<Value>,
    tShirtSize: Option<Value>,
    needAccommodation: Option<Value>,
    referredBy: Option<Value>,
    locality: Option<Value>,
    tshirtSize: Option<Value>)

  /** `!payload.x` for a text property: absent or the empty string. */
  predicate Falsy(v: Option<Value>)
  {
    v.None? || v == Some(Text(""))
  }

  function AgeValue(age: Option<int>): Value
  {
    if age.Some? then Number(age.value) else Text("")
  }

  /** `{ ...formData }`: every field of the form under its own name, nothing else. */
  function Fields(f: FormData): (p: Payload)
    ensures p.referredBy == None && p.locality == None && p.tshirtSize == None
    ensures p.contactPerson == Some(Text(f.contactPerson)) && p.location == Some(Text(f.location))
  {
    Payload(
      Some(Text(f.name)), Some(Text(f.whatsappNumber)), Some(Text(f.dateOfBirth)), Some(AgeValue(f.age)),
      Some(Text(f.gender)), Some(Text(f.maritalStatus)), Some(Text(f.profession)),
      Some(Text(f.collegeOrCompany)), Some(Text(f.location)), Some(Text(f.contactPerson)),
      Some(Text(f.infoSource)), Some(Slots(f.serviceAvailability)), Some(Text(f.tShirtSize)),
      Some(Text(f.needAccommodation)), None, None, None)
  }

  /** `Some(v)` when `present`, otherwise absent. */
  function If(present: bool, v: Value): Option<Value>
  {
    if present then Some(v) else None
  }

  /**
   * The shape of the POSTed payload: `contactPerson` becomes `referredBy`
   * (default "Other"), `location` becomes `locality`, `tShirtSize` becomes
   * `tshirtSize` (always present), `infoSource` defaults to "Other", the
   * young-boy fields appear only for young boys (profession defaulting to
   * "Student"), and `needAccommodation` only for full-day volunteers.
   */
  predicate IsRegistrationPayload(f: FormData, p: Payload)
  {
    var young, fullDay := IsYoungBoy(f), IsFullDayVolunteer(f);
    && p.name == Some(Text(f.name))
    && p.whatsappNumber == Some(Text(f.whatsappNumber))
    && p.dateOfBirth == Some(Text(f.dateOfBirth))
    && p.age == Some(AgeValue(f.age))
    && p.gender == Some(Text(f.gender))
    && p.serviceAvailability == Some(Slots(f.serviceAvailability))
    && p.infoSource == Some(Text(if f.infoSource != "" then f.infoSource else "Other"))
    && p.referredBy == Some(Text(if f.contactPerson != "" then f.contactPerson else "Other"))
    && p.locality == Some(Text(f.location))
    && p.tshirtSize == Some(Text(f.tShirtSize))
    && p.profession == If(young, Text(if f.profession != "" then f.profession else "Student"))
    && p.maritalStatus == If(young, Text(f.maritalStatus))
    && p.collegeOrCompany == If(young, Text(f.collegeOrCompany))
    && p.needAccommodation == If(fullDay, Text(f.needAccommodation))
    && p.location == None && p.contactPerson == None && p.tShirtSize == None
  }

  /** The payload, built by the same deletes and assignments as the form's submit handler. */
  method ShapePayload(f: FormData) returns (payload: Payload)
    ensures IsRegistrationPayload(f, payload)
  {
    var young, fullDay := IsYoungBoy(f), IsFullDayVolunteer(f);
    payload := Fields(f);
    if !young {
      payload := payload.(profession := None, maritalStatus := None, collegeOrCompany := None);
    }
    if !fullDay {
      payload := payload.(tShirtSize := None, needAccommodation := None);
    }
    if Falsy(payload.profession) && young {
      payload := payload.(profession := Some(Text("Student")));
    }
    if Falsy(payload.infoSource) {
      payload := payload.(infoSource := Some(Text("Other")));
    }
    payload := payload.(referredBy := Some(Text(if f.contactPerson != "" then f.contactPerson else "Other")));
    payload := payload.(contactPerson := None);
    payload := payload.(locality := Some(Text(f.location)));
    payload := payload.(location := None);
    payload := payload.(tshirtSize := Some(Text(f.tShirtSize)));
    payload := payload.(tShirtSize := None);
  }

  /**
   * A form that passed validation sends the profession as typed: the
   * "Student" default of the payload step can never apply, and the
   * referrer is never defaulted either.
   */
  lemma ValidPayloadKeepsTypedValues(f: FormData, p: Payload)
    requires Validate(f).None? && IsRegistrationPayload(f, p)
    ensures IsYoungBoy(f) ==> p.profession == Some(Text(f.profession))
    ensures p.referredBy == Some(Text(f.contactPerson))
  {
  }

  datatype SubmitResult = Rejected(message: string) | Posted(payload: Payload)

  /** The form as the page holds it. */
  class RegistrationForm {
    var data: FormData

    constructor ()
      ensures data == EmptyForm
    {
      data := EmptyForm;
    }

    /** A radio button of one date's availability group was chosen. */
    method SelectSlot(date: string, timeSlot: string)
      modifies this
      ensures data == old(data).(serviceAvailability := ChooseSlot(old(data).serviceAvailability, date, timeSlot))
    {
      var updated := ChooseSlot(data.serviceAvailability, date, timeSlot);
      data := data.(serviceAvailability := updated);
    }

    /**
     * The Submit button: a validation error sends nothing and keeps the
     * form; otherwise the shaped payload is POSTed and a successful POST
     * empties the form.
     */
    method Submit(postSucceeded: bool) returns (result: SubmitResult)
      modifies this
      ensures Validate(old(data)).Some? ==> result == Rejected(Validate(old(data)).value) && data == old(data)
      ensures Validate(old(data)).None? ==> result.Posted? && IsRegistrationPayload(old(data), result.payload)
      ensures Validate(old(data)).None? ==> data == if postSucceeded then EmptyForm else old(data)
    {
      var error := Validate(data);
      if error.Some? {
        return Rejected(error.value);
      }
      var payload := ShapePayload(data);
      result := Posted(payload);
      if postSucceeded {
        data := EmptyForm;
      }
    }
  }
}
