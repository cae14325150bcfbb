/**
 * The volunteer dashboard: the service-type choices of its filter drop-down
 * and the list shown for a phone search and a service-type filter.
 */
module VolunteerDashboard {
  import opened Common

  datatype Volunteer = Volunteer(whatsappNumber: string, serviceType: Option<string>)

  /** `type && type.trim() !== ""`. */
  predicate IsListedType(t: Option<string>)
  {
    t.Some? && !IsBlank(t.value)
  }

  /** The non-blank service types of the volunteers, in list order, repeats included. */
  function ListedTypes(vs: seq<Volunteer>): (ts: seq<string>)
    ensures forall t :: t in ts <==> exists i | 0 <= i < |vs| :: vs[i].serviceType == Some(t) && !IsBlank(t)
  {
    if vs == [] then []
    else
      var rest := ListedTypes(vs[1..]);
      assert forall i | 1 <= i < |vs| :: vs[i] == vs[1..][i - 1];
      if IsListedType(vs[0].serviceType) then [vs[0].serviceType.value] + rest else rest
  }

  /**
   * `serviceTypes`: each non-blank service type once, in the order in which
   * it first occurs among the volunteers.
   */
  function ServiceTypes(vs: seq<Volunteer>): (r: seq<string>)
    ensures forall t :: t in r <==> exists i | 0 <= i < |vs| :: vs[i].serviceType == Some(t) && !IsBlank(t)
    ensures NoDuplicates(r)
    ensures forall i, j | 0 <= i < j < |r| ::
              FirstIndex(ListedTypes(vs), r[i]) < FirstIndex(ListedTypes(vs), r[j])
  {
    Distinct(ListedTypes(vs))
  }

  /** A missing or whitespace-only type is never offered, whatever the list. */
  lemma BlankTypesNotOffered(vs: seq<Volunteer>, t: string)
    requires IsBlank(t)
    ensures t !in ServiceTypes(vs)
  {
  }

  /** The phone search and the exact service-type filter of one volunteer. */
  predicate Matches(v: Volunteer, searchPhone: string, filterServiceType: string)
  {
    Includes(v.whatsappNumber, searchPhone)
    && (filterServiceType == "" || v.serviceType == Some(filterServiceType))
  }

  /** `filteredVolunteers`. */
  function FilteredVolunteers(vs: seq<Volunteer>, searchPhone: string, filterServiceType: string): (r: seq<Volunteer>)
    ensures forall v :: v in r <==> v in vs && Matches(v, searchPhone, filterServiceType)
    ensures IsSubsequence(r, vs) && |r| <= |vs|
  {
    Filter(vs, v => Matches(v, searchPhone, filterServiceType))
  }

  /** With no search text and no filter every volunteer is shown, in order. */
  lemma EmptyCriteriaShowAll(vs: seq<Volunteer>)
    ensures FilteredVolunteers(vs, "", "") == vs
  {
    forall v | v in vs ensures Matches(v, "", "") {
      assert "" <= v.whatsappNumber;
    }
    FilterKeepsAll(vs, v => Matches(v, "", ""));
  }

  /** "No volunteers found matching your criteria." */
  predicate ShowsNoMatch(vs: seq<Volunteer>, searchPhone: string, filterServiceType: string)
  {
    |FilteredVolunteers(vs, searchPhone, filterServiceType)| == 0 && |vs| > 0
  }

  /** The no-match message appears exactly when there is data and no volunteer matches. */
  lemma ShowsNoMatchIff(vs: seq<Volunteer>, searchPhone: string, filterServiceType: string)
    ensures ShowsNoMatch(vs, searchPhone, filterServiceType) <==>
      vs != [] && forall i | 0 <= i < |vs| :: !Matches(vs[i], searchPhone, filterServiceType)
  {
    var r := FilteredVolunteers(vs, searchPhone, filterServiceType);
    if r != [] {
      assert r[0] in r;
    }
    if i :| 0 <= i < |vs| && Matches(vs[i], searchPhone, filterServiceType) {
      assert vs[i] in r;
    }
  }
}
