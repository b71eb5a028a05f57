/** The neighbours list: a roster of residents, each tagged with the apartment code
    passed in, without the current user's own flat. */
module Neighbors {
  import opened Common
  import opened Seqs

  /** A roster entry before it is tagged with an apartment code. */
  datatype Contact = Contact(id: string, name: string, phone: string, email: string, flatNumber: string)

  datatype Neighbor = Neighbor(id: string, name: string, phone: string, email: string, flatNumber: string, apartmentCode: string)

  function Tag(c: Contact, apartmentCode: string): Neighbor {
    Neighbor(c.id, c.name, c.phone, c.email, c.flatNumber, apartmentCode)
  }

  function TagAll(roster: seq<Contact>, apartmentCode: string): (r: seq<Neighbor>)
    ensures |r| == |roster|
    ensures forall i :: 0 <= i < |roster| ==> r[i] == Tag(roster[i], apartmentCode)
  {
    seq(|roster|, i requires 0 <= i < |roster| => Tag(roster[i], apartmentCode))
  }

  /** An undefined current flat differs from every flat number. */
  predicate OtherFlat(currentUserFlatNumber: Option<string>, n: Neighbor) {
    Some(n.flatNumber) != currentUserFlatNumber
  }

  /** The filter's test: the entry is not of the current user's flat. */
  function NotOwnFlat(currentUserFlatNumber: Option<string>): Neighbor -> bool {
    n => OtherFlat(currentUserFlatNumber, n)
  }

  function NeighborsOf(roster: seq<Contact>, apartmentCode: string, currentUserFlatNumber: Option<string>): (r: seq<Neighbor>)
    ensures forall n :: n in r ==> n.apartmentCode == apartmentCode
    ensures currentUserFlatNumber.Some? ==> forall n :: n in r ==> n.flatNumber != currentUserFlatNumber.value
    ensures IsSubseq(r, TagAll(roster, apartmentCode))
    ensures forall c :: c in roster && Some(c.flatNumber) != currentUserFlatNumber ==> Tag(c, apartmentCode) in r
    ensures |r| == Count(NotOwnFlat(currentUserFlatNumber), TagAll(roster, apartmentCode))
    ensures currentUserFlatNumber.None? ==> r == TagAll(roster, apartmentCode)
  {
    var tagged := TagAll(roster, apartmentCode);
    var r := Filter(NotOwnFlat(currentUserFlatNumber), tagged);
    forall c | c in roster && Some(c.flatNumber) != currentUserFlatNumber
      ensures Tag(c, apartmentCode) in tagged
    {
      var i :| 0 <= i < |roster| && roster[i] == c;
      assert tagged[i] == Tag(c, apartmentCode);
    }
    if currentUserFlatNumber.None? then
      FilterAll(NotOwnFlat(currentUserFlatNumber), tagged);
      r
    else
      r
  }
}
