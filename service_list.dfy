/**
 * The list of services: loading it, deleting a service, and the reporting
 * time label with a space put before its AM/PM marker.
 */
module ServiceList {
  import opened Common

  datatype Service = Service(id: string, name: string, reportingTime: Option<string>)

  /** The test `s._id !== id`. */
  function OtherThan(id: string): Service -> bool
  {
    (s: Service) => s.id != id
  }

  /** `prev.filter(s => s._id !== id)`. */
  function DeleteById(services: seq<Service>, id: string): (r: seq<Service>)
    ensures forall s :: s in r <==> s in services && s.id != id
    ensures IsSubsequence(r, services)
  {
    Filter(services, OtherThan(id))
  }

  /** Every service with another id stays, as often as it was listed; none with the id does. */
  lemma DeleteRemovesExactlyThatId(services: seq<Service>, id: string)
    ensures forall s :: multiset(DeleteById(services, id))[s] == if s.id != id then multiset(services)[s] else 0
  {
    FilterMultiplicity(services, OtherThan(id));
  }

  /** Deleting the same id a second time changes nothing. */
  lemma DeleteIdempotent(services: seq<Service>, id: string)
    ensures DeleteById(DeleteById(services, id), id) == DeleteById(services, id)
  {
    FilterIdempotent(services, OtherThan(id));
  }

  /** "AM" or "PM" starts at position `i` of `t`. */
  predicate MeridiemAt(t: string, i: nat)
  {
    i + 1 < |t| && (t[i] == 'A' || t[i] == 'P') && t[i + 1] == 'M'
  }

  /** Where the regular expression `/(AM|PM)/` first matches, if anywhere. */
  function FirstMeridiem(t: string): (k: Option<nat>)
    ensures k.None? <==> forall i | 0 <= i < |t| :: !MeridiemAt(t, i)
    ensures k.Some? ==> MeridiemAt(t, k.value) && forall j | 0 <= j < k.value :: !MeridiemAt(t, j)
  {
    if |t| < 2 then None
    else if MeridiemAt(t, 0) then Some(0)
    else
      var rest := FirstMeridiem(t[1..]);
      assert forall i | 1 <= i < |t| :: MeridiemAt(t, i) == MeridiemAt(t[1..], i - 1);
      if rest.None? then None
      else
        assert MeridiemAt(t, rest.value + 1);
        Some(rest.value + 1)
  }

  /**
   * `t.replace(/(AM|PM)/, ' $1')`: a space before the first "AM" or "PM";
   * every later occurrence is left as it was.
   */
  function SpaceBeforeMeridiem(t: string): (r: string)
    ensures FirstMeridiem(t).None? ==> r == t
    ensures FirstMeridiem(t).Some? ==>
      var i := FirstMeridiem(t).value;
      r == t[..i] + " " + t[i..]
  {
    if |t| < 2 then t
    else if MeridiemAt(t, 0) then " " + t
    else
      var r := [t[0]] + SpaceBeforeMeridiem(t[1..]);
      assert FirstMeridiem(t).Some? ==> t[..FirstMeridiem(t).value] == [t[0]] + t[1..][..FirstMeridiem(t).value - 1];
      r
  }

  /** "7:30AM" gains its space. */
  lemma SpacedTimeExample()
    ensures SpaceBeforeMeridiem("7:30AM") == "7:30 AM"
  {
    var t := "7:30AM";
    assert !MeridiemAt(t, 0) && !MeridiemAt(t, 1) && !MeridiemAt(t, 2) && !MeridiemAt(t, 3) && MeridiemAt(t, 4);
    assert FirstMeridiem(t) == Some(4);
    assert t[..4] + " " + t[4..] == "7:30 AM";
  }

  /** A time without a marker is left alone. */
  lemma UnmarkedTimeExample()
    ensures SpaceBeforeMeridiem("7:30") == "7:30"
  {
    var t := "7:30";
    assert !MeridiemAt(t, 0) && !MeridiemAt(t, 1) && !MeridiemAt(t, 2) && !MeridiemAt(t, 3);
  }

  /**
   * A time whose marker is already spaced gains a second space: the
   * replacement does not look at what precedes the marker.
   */
  lemma AlreadySpacedTimeExample()
    ensures SpaceBeforeMeridiem("7:30 AM") == "7:30  AM"
  {
    var u := "7:30 AM";
    assert !MeridiemAt(u, 0) && !MeridiemAt(u, 1) && !MeridiemAt(u, 2) && !MeridiemAt(u, 3) && !MeridiemAt(u, 4);
    assert MeridiemAt(u, 5);
    assert FirstMeridiem(u) == Some(5);
    assert u[..5] + " " + u[5..] == "7:30  AM";
  }

  /** The inserted space sits right before the marker, and deleting it gives the time back. */
  lemma InsertedSpaceRemovable(t: string)
    ensures FirstMeridiem(t).Some? ==>
      var i, r := FirstMeridiem(t).value, SpaceBeforeMeridiem(t);
      && |r| == |t| + 1 && r[i] == ' ' && MeridiemAt(r, i + 1)
      && r[..i] + r[i + 1..] == t
  {
    if FirstMeridiem(t).Some? {
      var i, r := FirstMeridiem(t).value, SpaceBeforeMeridiem(t);
      assert r[..i] == t[..i] && r[i + 1..] == t[i..];
      assert r[i + 1] == t[i] && r[i + 2] == t[i + 1];
    }
  }

  /**
   * The "Report Time" line: shown only for a present, non-empty reporting
   * time; it is that time with at most one character added, a space just
   * before the first marker, and removing that space gives the time back.
   */
  function ReportingTimeLabel(s: Service): (text: Option<string>)
    ensures text.Some? <==> Truthy(s.reportingTime)
    ensures text.Some? && FirstMeridiem(s.reportingTime.value).None? ==> text.value == s.reportingTime.value
    ensures text.Some? && FirstMeridiem(s.reportingTime.value).Some? ==>
      var i := FirstMeridiem(s.reportingTime.value).value;
      && |text.value| == |s.reportingTime.value| + 1
      && text.value[i] == ' ' && MeridiemAt(text.value, i + 1)
      && text.value[..i] + text.value[i + 1..] == s.reportingTime.value
  {
    if Truthy(s.reportingTime) then
      InsertedSpaceRemovable(s.reportingTime.value);
      Some(SpaceBeforeMeridiem(s.reportingTime.value))
    else None
  }

  /** The page's state. */
  class ServiceListPage {
    var services: seq<Service>
    var loading: bool

    constructor ()
      ensures services == [] && loading
    {
      services, loading := [], true;
    }

    /**
     * `fetchServices`: `fetched` is the decoded list, or `None` when the
     * request or its decoding threw; only a successful fetch clears `loading`.
     */
    method Load(fetched: Option<seq<Service>>)
      modifies this
      ensures fetched.Some? ==> services == fetched.value && !loading
      ensures fetched.None? ==> services == old(services) && loading == old(loading)
    {
      if fetched.Some? {
        services := fetched.value;
        loading := false;
      }
    }

    /** The Delete button: `ok` says whether the DELETE answered with a 2xx status. */
    method Delete(id: string, ok: bool)
      modifies this`services
      ensures services == if ok then DeleteById(old(services), id) else old(services)
    {
      if ok {
        services := DeleteById(services, id);
      }
    }
  }
}
