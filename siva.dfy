/**
 * The attendance records page: per-service-type counts, the list of
 * service types, and the service-type and free-text filters of the table.
 */
module Siva {
  import opened Common

  /** The key under which records without a service type are counted and filtered. */
  const NoServiceType := "N/A"

  /** The filter value that keeps every service type. */
  const AllServices := "All"

  datatype EntryVolunteer = EntryVolunteer(
    name: Option<string>,
    whatsappNumber: Option<string>,
    serviceType: Option<string>)

  /** One attendance record; its volunteer may be missing. */
  datatype AttendanceEntry = AttendanceEntry(volunteer: Option<EntryVolunteer>)

  /** `entry.volunteer?.serviceType || "N/A"`. */
  function ServiceKey(e: AttendanceEntry): (k: string)
    ensures k != ""
    ensures e.volunteer.Some? && Truthy(e.volunteer.value.serviceType) ==> k == e.volunteer.value.serviceType.value
    ensures e.volunteer.None? || !Truthy(e.volunteer.value.serviceType) ==> k == NoServiceType
  {
    if e.volunteer.Some? then OrElse(e.volunteer.value.serviceType, NoServiceType) else NoServiceType
  }

  /** The number of records carrying key `k`. */
  function Occurrences(data: seq<AttendanceEntry>, k: string): (n: nat)
    ensures n <= |data|
    ensures n > 0 <==> exists i | 0 <= i < |data| :: ServiceKey(data[i]) == k
  {
    if data == [] then 0
    else
      var init := data[..|data| - 1];
      assert forall i | 0 <= i < |init| :: init[i] == data[i];
      Occurrences(init, k) + if ServiceKey(data[|data| - 1]) == k then 1 else 0
  }

  /** Taking in one more record adds one to its own key's count and leaves the rest. */
  lemma OccurrencesStep(data: seq<AttendanceEntry>, i: nat, k: string)
    requires i < |data|
    ensures Occurrences(data[..i + 1], k) == Occurrences(data[..i], k) + if ServiceKey(data[i]) == k then 1 else 0
  {
    assert data[..i + 1][..i] == data[..i];
  }

  /**
   * `countServiceTypes`: a dictionary from each key that occurs to the
   * number of records carrying it.
   */
  method CountServiceTypes(data: seq<AttendanceEntry>) returns (counts: map<string, nat>)
    ensures forall k :: k in counts <==> exists i | 0 <= i < |data| :: ServiceKey(data[i]) == k
    ensures forall k | k in counts :: counts[k] == Occurrences(data, k)
  {
    counts := map[];
    for i := 0 to |data|
      invariant forall k :: k in counts <==> Occurrences(data[..i], k) > 0
      invariant forall k | k in counts :: counts[k] == Occurrences(data[..i], k)
    {
      var key := ServiceKey(data[i]);
      var previous := if key in counts then counts[key] else 0;
      counts := counts[key := previous + 1];
      forall k
        ensures k in counts <==> Occurrences(data[..i + 1], k) > 0
        ensures k in counts ==> counts[k] == Occurrences(data[..i + 1], k)
      {
        OccurrencesStep(data, i, k);
      }
    }
    assert data[..|data|] == data;
  }

  /** The key of every record, in order. */
  function Keys(data: seq<AttendanceEntry>): (ks: seq<string>)
    ensures |ks| == |data| && forall i | 0 <= i < |data| :: ks[i] == ServiceKey(data[i])
  {
    seq(|data|, i requires 0 <= i < |data| => ServiceKey(data[i]))
  }

  /** `uniqueServiceTypes`: each key once, in the order of its first record. */
  function UniqueServiceTypes(data: seq<AttendanceEntry>): (r: seq<string>)
    ensures forall k :: k in r <==> k in Keys(data)
    ensures forall k :: k in r <==> exists i | 0 <= i < |data| :: ServiceKey(data[i]) == k
    ensures NoDuplicates(r)
    ensures forall i, j | 0 <= i < j < |r| :: FirstIndex(Keys(data), r[i]) < FirstIndex(Keys(data), r[j])
  {
    var ks := Keys(data);
    assert forall k :: k in ks <==> exists i | 0 <= i < |data| :: ServiceKey(data[i]) == k by {
      forall k | k in ks ensures exists i | 0 <= i < |data| :: ServiceKey(data[i]) == k {
        var i :| 0 <= i < |ks| && ks[i] == k;
      }
    }
    Distinct(ks)
  }

  /** The counts of the keys in `ks`, added up. */
  function SumOfCounts(ks: seq<string>, data: seq<AttendanceEntry>): nat
  {
    if ks == [] then 0 else Occurrences(data, ks[0]) + SumOfCounts(ks[1..], data)
  }

  /** How often `x` occurs in `ks`. */
  function CountOf(ks: seq<string>, x: string): nat
  {
    if ks == [] then 0 else (if ks[0] == x then 1 else 0) + CountOf(ks[1..], x)
  }

  lemma {:induction false} CountOfDistinct(ks: seq<string>, x: string)
    requires NoDuplicates(ks)
    ensures CountOf(ks, x) == if x in ks then 1 else 0
  {
    if ks != [] {
      assert NoDuplicates(ks[1..]) by {
        forall i, j | 0 <= i < j < |ks| - 1 ensures ks[1..][i] != ks[1..][j] {
          assert ks[1..][i] == ks[i + 1] && ks[1..][j] == ks[j + 1];
        }
      }
      CountOfDistinct(ks[1..], x);
      if ks[0] == x {
        assert x !in ks[1..] by {
          forall j | 0 <= j < |ks| - 1 ensures ks[1..][j] != x {
            assert ks[1..][j] == ks[j + 1];
          }
        }
      }
    }
  }

  /** One more record adds one to the sum for each listing of its key. */
  lemma {:induction false} SumOfCountsAppend(ks: seq<string>, data: seq<AttendanceEntry>, e: AttendanceEntry)
    ensures SumOfCounts(ks, data + [e]) == SumOfCounts(ks, data) + CountOf(ks, ServiceKey(e))
  {
    if ks != [] {
      SumOfCountsAppend(ks[1..], data, e);
      assert (data + [e])[..|data + [e]| - 1] == data;
    }
  }

  /** Over a list of distinct keys that covers every record, the counts add up to the number of records. */
  lemma {:induction false} SumOfCountsCovers(ks: seq<string>, data: seq<AttendanceEntry>)
    requires NoDuplicates(ks)
    requires forall i | 0 <= i < |data| :: ServiceKey(data[i]) in ks
    ensures SumOfCounts(ks, data) == |data|
  {
    if data == [] {
      SumOfCountsEmpty(ks);
    } else {
      var init, e := data[..|data| - 1], data[|data| - 1];
      assert data == init + [e];
      SumOfCountsCovers(ks, init);
      SumOfCountsAppend(ks, init, e);
      CountOfDistinct(ks, ServiceKey(e));
    }
  }

  lemma {:induction false} SumOfCountsEmpty(ks: seq<string>)
    ensures SumOfCounts(ks, []) == 0
  {
    if ks != [] {
      SumOfCountsEmpty(ks[1..]);
    }
  }

  /** The counts of the listed service types add up to the number of records. */
  lemma CountsSumToRecords(data: seq<AttendanceEntry>)
    ensures SumOfCounts(UniqueServiceTypes(data), data) == |data|
  {
    var ks := UniqueServiceTypes(data);
    assert forall i | 0 <= i < |data| :: ServiceKey(data[i]) in ks;
    SumOfCountsCovers(ks, data);
  }

  /** The service-type filter: "All", or the record's key equals the filter. */
  predicate KeptByService(e: AttendanceEntry, serviceFilter: string)
  {
    serviceFilter == AllServices || ServiceKey(e) == serviceFilter
  }

  /** `x?.toLowerCase() || ""` for a text field of the record's volunteer. */
  function LowerOrEmpty(field: Option<string>): string
  {
    if field.Some? then Lower(field.value) else ""
  }

  /** Name, WhatsApp number or service type contains the (already lowercased) term. */
  predicate SearchMatches(e: AttendanceEntry, term: string)
  {
    e.volunteer.Some? &&
    var v := e.volunteer.value;
    Includes(LowerOrEmpty(v.name), term) || Includes(LowerOrEmpty(v.whatsappNumber), term)
    || Includes(LowerOrEmpty(v.serviceType), term)
  }

  /**
   * The free-text filter: inactive while the term is blank; otherwise the
   * lowercased term, untrimmed, must occur in one of the fields.
   */
  predicate KeptBySearch(e: AttendanceEntry, searchTerm: string)
  {
    IsBlank(searchTerm) || SearchMatches(e, Lower(searchTerm))
  }

  predicate Kept(e: AttendanceEntry, serviceFilter: string, searchTerm: string)
  {
    KeptByService(e, serviceFilter) && KeptBySearch(e, searchTerm)
  }

  function ByService(serviceFilter: string): AttendanceEntry -> bool
  {
    e => KeptByService(e, serviceFilter)
  }

  function BySearch(searchTerm: string): AttendanceEntry -> bool
  {
    e => KeptBySearch(e, searchTerm)
  }

  function ByBoth(serviceFilter: string, searchTerm: string): AttendanceEntry -> bool
  {
    e => Kept(e, serviceFilter, searchTerm)
  }

  /** The table's rows: the records that pass both filters, in their order. */
  function FilteredEntries(data: seq<AttendanceEntry>, serviceFilter: string, searchTerm: string): (r: seq<AttendanceEntry>)
    ensures forall e :: e in r <==> e in data && Kept(e, serviceFilter, searchTerm)
    ensures IsSubsequence(r, data)
  {
    Filter(data, ByBoth(serviceFilter, searchTerm))
  }

  /** With "All" and a blank search every record is listed. */
  lemma NoFilterListsAll(data: seq<AttendanceEntry>, searchTerm: string)
    requires IsBlank(searchTerm)
    ensures FilteredEntries(data, AllServices, searchTerm) == data
  {
    FilterKeepsAll(data, ByBoth(AllServices, searchTerm));
  }

  /** Filtering by service type and then by the search is filtering once by both. */
  lemma TwoStages(data: seq<AttendanceEntry>, serviceFilter: string, searchTerm: string)
    ensures Filter(Filter(data, ByService(serviceFilter)), BySearch(searchTerm))
         == FilteredEntries(data, serviceFilter, searchTerm)
  {
    var byService, bySearch := ByService(serviceFilter), BySearch(searchTerm);
    FilterFilter(data, byService, bySearch);
    FilterSameTest(data, e => byService(e) && bySearch(e), ByBoth(serviceFilter, searchTerm));
  }

  /**
   * The filter effect: a copy of the records, narrowed by the service type
   * unless it is "All", then by the search unless the term is blank.
   */
  method ApplyFilters(data: seq<AttendanceEntry>, serviceFilter: string, searchTerm: string)
    returns (updated: seq<AttendanceEntry>)
    ensures updated == FilteredEntries(data, serviceFilter, searchTerm)
  {
    var byService, bySearch := ByService(serviceFilter), BySearch(searchTerm);
    updated := data;
    if serviceFilter != AllServices {
      updated := Filter(updated, byService);
    } else {
      FilterKeepsAll(data, byService);
    }
    if !IsBlank(searchTerm) {
      updated := Filter(updated, bySearch);
    } else {
      FilterKeepsAll(updated, bySearch);
    }
    TwoStages(data, serviceFilter, searchTerm);
  }

  /** The page's state. */
  class SivaPage {
    var attendanceData: seq<AttendanceEntry>
    var filteredData: seq<AttendanceEntry>
    var loading: bool
    var searchTerm: string
    var serviceFilter: string
    var serviceCounts: map<string, nat>

    /** The table and the counts agree with the records and the filters. */
    ghost predicate Valid()
      reads this
    {
      && filteredData == FilteredEntries(attendanceData, serviceFilter, searchTerm)
      && (forall k :: k in serviceCounts <==> k in UniqueServiceTypes(attendanceData))
      && (forall k | k in serviceCounts :: serviceCounts[k] == Occurrences(attendanceData, k))
    }

    constructor ()
      ensures Valid()
      ensures attendanceData == [] && loading && searchTerm == "" && serviceFilter == AllServices
    {
      attendanceData, filteredData, loading := [], [], true;
      searchTerm, serviceFilter, serviceCounts := "", AllServices, map[];
    }

    /** The filter effect, run whenever the records, the search or the filter change. */
    method Refilter()
      modifies this`filteredData
      ensures filteredData == FilteredEntries(attendanceData, serviceFilter, searchTerm)
    {
      filteredData := ApplyFilters(attendanceData, serviceFilter, searchTerm);
    }

    /**
     * The fetch: `fetched` is the decoded list, or `None` when the request
     * or its decoding failed; `loading` is cleared either way.
     */
    method Load(fetched: Option<seq<AttendanceEntry>>)
      requires Valid()
      modifies this`attendanceData, this`filteredData, this`serviceCounts, this`loading
      ensures Valid() && !loading
      ensures attendanceData == if fetched.Some? then fetched.value else old(attendanceData)
    {
      if fetched.Some? {
        attendanceData := fetched.value;
        filteredData := fetched.value;
        serviceCounts := CountServiceTypes(fetched.value);
        Refilter();
      }
      loading := false;
    }

    method SetSearchTerm(term: string)
      requires Valid()
      modifies this`searchTerm, this`filteredData
      ensures Valid() && searchTerm == term
    {
      searchTerm := term;
      Refilter();
    }

    method SetServiceFilter(filter: string)
      requires Valid()
      modifies this`serviceFilter, this`filteredData
      ensures Valid() && serviceFilter == filter
    {
      serviceFilter := filter;
      Refilter();
    }
  }
}
