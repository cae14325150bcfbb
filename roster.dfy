/**
 * The volunteer records served by the root endpoint and the local service
 * type patch applied after a PATCH request, shared by the pages that list
 * and re-assign them.
 */
module Roster {
  import opened Common

  datatype Volunteer = Volunteer(
    id: string,                     // `_id`
    name: Option<string>,
    whatsappNumber: Option<string>,
    serviceType: Option<string>)

  /**
   * `prev.map(v => v._id === id ? { ...v, serviceType: newType } : v)`:
   * the entries with that id get the new service type, every other entry
   * and every other field stays as it was, in the same order.
   */
  function PatchServiceType(vs: seq<Volunteer>, id: string, newType: string): (r: seq<Volunteer>)
    ensures |r| == |vs|
    ensures forall i | 0 <= i < |vs| && vs[i].id == id :: r[i] == vs[i].(serviceType := Some(newType))
    ensures forall i | 0 <= i < |vs| && vs[i].id != id :: r[i] == vs[i]
  {
    if vs == [] then []
    else
      var head := if vs[0].id == id then vs[0].(serviceType := Some(newType)) else vs[0];
      [head] + PatchServiceType(vs[1..], id, newType)
  }

  /** The patch never changes which volunteers are listed, only their service types. */
  lemma PatchKeepsIds(vs: seq<Volunteer>, id: string, newType: string)
    ensures var r := PatchServiceType(vs, id, newType);
      forall i | 0 <= i < |vs| :: r[i].id == vs[i].id && r[i].name == vs[i].name
                                  && r[i].whatsappNumber == vs[i].whatsappNumber
  {
  }

  /** Applying the same update twice gives the list that applying it once gives. */
  lemma {:induction false} PatchIdempotent(vs: seq<Volunteer>, id: string, newType: string)
    ensures PatchServiceType(PatchServiceType(vs, id, newType), id, newType) == PatchServiceType(vs, id, newType)
  {
    if vs != [] {
      PatchIdempotent(vs[1..], id, newType);
    }
  }

  /** Of two updates to the same volunteer, the later one is what the list shows. */
  lemma {:induction false} PatchLaterWins(vs: seq<Volunteer>, id: string, first: string, second: string)
    ensures PatchServiceType(PatchServiceType(vs, id, first), id, second) == PatchServiceType(vs, id, second)
  {
    if vs != [] {
      PatchLaterWins(vs[1..], id, first, second);
    }
  }

  /** Updates to two different volunteers can be applied in either order. */
  lemma {:induction false} PatchesCommute(vs: seq<Volunteer>, id1: string, t1: string, id2: string, t2: string)
    requires id1 != id2
    ensures PatchServiceType(PatchServiceType(vs, id1, t1), id2, t2)
         == PatchServiceType(PatchServiceType(vs, id2, t2), id1, t1)
  {
    if vs != [] {
      PatchesCommute(vs[1..], id1, t1, id2, t2);
    }
  }
}
