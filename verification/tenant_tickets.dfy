/** The tenant's ticket list: a filter chosen by a string value and the count shown
    next to each option of the filter menu. */
module TenantTickets {
  import opened Seqs

  datatype Status = Unassigned | InProgress | Resolved

  datatype Ticket = Ticket(
    id: string,
    title: string,
    description: string,
    category: string,
    status: Status,
    createdAt: string,
    tenant: string,
    apartment: string)

  /** Whether filter value `filter` keeps `t`; an unrecognised value keeps everything. */
  predicate Keeps(filter: string, userName: string, t: Ticket) {
    if filter == "my-tickets" then t.tenant == userName
    else if filter == "unassigned" then t.status == Unassigned
    else if filter == "in-progress" then t.status == InProgress
    else if filter == "completed" then t.status == Resolved
    else true
  }

  /** `getFilteredTickets`. */
  function FilteredTickets(tickets: seq<Ticket>, filter: string, userName: string): (r: seq<Ticket>)
    ensures IsSubseq(r, tickets)
    ensures forall t :: t in r <==> t in tickets && Keeps(filter, userName, t)
    ensures |r| == Count(t => Keeps(filter, userName, t), tickets)
    ensures filter !in {"my-tickets", "unassigned", "in-progress", "completed"} ==> r == tickets
  {
    match filter
    case "my-tickets" =>
      FilterExt((t: Ticket) => t.tenant == userName, t => Keeps(filter, userName, t), tickets);
      Filter((t: Ticket) => t.tenant == userName, tickets)
    case "unassigned" =>
      FilterExt((t: Ticket) => t.status == Unassigned, t => Keeps(filter, userName, t), tickets);
      Filter((t: Ticket) => t.status == Unassigned, tickets)
    case "in-progress" =>
      FilterExt((t: Ticket) => t.status == InProgress, t => Keeps(filter, userName, t), tickets);
      Filter((t: Ticket) => t.status == InProgress, tickets)
    case "completed" =>
      FilterExt((t: Ticket) => t.status == Resolved, t => Keeps(filter, userName, t), tickets);
      Filter((t: Ticket) => t.status == Resolved, tickets)
    case _ =>
      IsSubseqRefl(tickets);
      FilterAll(t => Keeps(filter, userName, t), tickets);
      tickets
  }

  /** The number shown beside each menu option, computed as the menu computes it. */
  function OptionCount(tickets: seq<Ticket>, option: string, userName: string): nat {
    match option
    case "my-tickets" => |Filter((t: Ticket) => t.tenant == userName, tickets)|
    case "unassigned" => |Filter((t: Ticket) => t.status == Unassigned, tickets)|
    case "in-progress" => |Filter((t: Ticket) => t.status == InProgress, tickets)|
    case "completed" => |Filter((t: Ticket) => t.status == Resolved, tickets)|
    case _ => |tickets|
  }

  /** Each option's count is the length of the list that option shows. */
  lemma {:induction false} CountsMatchLists(tickets: seq<Ticket>, userName: string, option: string)
    requires option in {"all", "my-tickets", "unassigned", "in-progress", "completed"}
    ensures OptionCount(tickets, option, userName) == |FilteredTickets(tickets, option, userName)|
  {
  }

  /** "completed" shows exactly the resolved tickets, and "my-tickets" exactly the user's own. */
  lemma {:induction false} CompletedMeansResolved(tickets: seq<Ticket>, userName: string, t: Ticket)
    requires t in tickets
    ensures t in FilteredTickets(tickets, "completed", userName) <==> t.status == Resolved
    ensures t in FilteredTickets(tickets, "my-tickets", userName) <==> t.tenant == userName
  {
  }
}
