/** The tenant directory: a case-insensitive search over name, apartment and email,
    the summary figures, and the open-ticket badge on each tenant's card. */
module Tenants {
  import opened Common
  import opened Text
  import opened Seqs

  datatype Status = Active | Inactive

  datatype Tenant = Tenant(
    id: string,
    name: string,
    email: string,
    phone: string,
    apartment: string,
    moveInDate: string,
    status: Status,
    activeTickets: int)

  /** The fields the search box looks in. */
  function Fields(t: Tenant): seq<string> {
    [t.name, t.apartment, t.email]
  }

  predicate MatchesSearch(term: string, t: Tenant) {
    MatchesAny(Fields(t), term)
  }

  /** `filteredTenants`: an order-preserving selection of the tenants whose name,
      apartment or email contains the term, ignoring case; an empty term keeps everyone. */
  function Search(tenants: seq<Tenant>, term: string): (r: seq<Tenant>)
    ensures IsSubseq(r, tenants)
    ensures forall t :: t in r <==>
      && t in tenants
      && (Includes(Lower(t.name), Lower(term)) || Includes(Lower(t.apartment), Lower(term)) || Includes(Lower(t.email), Lower(term)))
    ensures term == "" ==> r == tenants
    ensures |r| == Count(Matcher(Fields, term), tenants)
  {
    forall t: Tenant
      ensures MatchesSearch(term, t) <==>
        (Includes(Lower(t.name), Lower(term)) || Includes(Lower(t.apartment), Lower(term)) || Includes(Lower(t.email), Lower(term)))
    {
      var f := Fields(t);
      assert f[0] == t.name && f[1] == t.apartment && f[2] == t.email;
    }
    Text.Search(tenants, Fields, term)
  }

  /** `activeTenants`, never more than `totalTenants`. */
  function ActiveCount(tenants: seq<Tenant>): (n: nat)
    ensures n <= |tenants|
    ensures n == |Filter((t: Tenant) => t.status == Active, tenants)|
  {
    Count((t: Tenant) => t.status == Active, tenants)
  }

  function Tickets(t: Tenant): int {
    t.activeTickets
  }

  /** `totalActiveTickets`: the sum over every tenant, whatever the search shows. */
  function TotalActiveTickets(tenants: seq<Tenant>): int {
    Sum(Tickets, tenants)
  }

  /** The total is the active tenants' tickets plus the inactive tenants' tickets. */
  lemma {:induction false} TotalSplitsByStatus(tenants: seq<Tenant>)
    ensures TotalActiveTickets(tenants) ==
      Sum(Tickets, Filter((t: Tenant) => t.status == Active, tenants))
      + Sum(Tickets, Filter((t: Tenant) => t.status == Inactive, tenants))
  {
    SumSplits(Tickets, (t: Tenant) => t.status == Active, (t: Tenant) => t.status == Inactive, tenants);
  }

  /** With no negative counts, each tenant's badge number is at most the total. */
  lemma {:induction false} TotalBoundsEachTenant(tenants: seq<Tenant>, i: nat)
    requires i < |tenants|
    requires forall t :: t in tenants ==> t.activeTickets >= 0
    ensures tenants[i].activeTickets <= TotalActiveTickets(tenants)
  {
    assert forall t :: t in tenants[1..] ==> t in tenants;
    SumNonNegative(Tickets, tenants[1..]);
    if i > 0 {
      TotalBoundsEachTenant(tenants[1..], i - 1);
    }
  }

  /** The badge "<n> Open Ticket(s)". */
  datatype Badge = Badge(count: int, noun: string)

  function TicketBadge(activeTickets: int): (b: Option<Badge>)
    ensures b.Some? <==> activeTickets > 0
    ensures b.Some? ==> b.value.count == activeTickets
    ensures b.Some? ==> |b.value.noun| >= 11 && b.value.noun[..11] == "Open Ticket"
    ensures b.Some? ==> (b.value.noun[|b.value.noun| - 1] == 's' <==> activeTickets > 1)
    ensures b.Some? ==> |b.value.noun| == if activeTickets > 1 then 12 else 11
  {
    if activeTickets > 0 then
      Some(Badge(activeTickets, "Open Ticket" + (if activeTickets > 1 then "s" else "")))
    else None
  }
}
