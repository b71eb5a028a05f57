/** The admin ticket board: a status update by id, the three per-ticket buttons,
    and the three tabs that split the tickets by status. */
module TicketBoard {
  import opened Common
  import opened Seqs

  datatype Status = Unassigned | Assigned | Cleared

  datatype Ticket = Ticket(
    id: string,
    title: string,
    description: string,
    category: string,
    priority: string,
    status: Status,
    tenant: string,
    apartment: string,
    createdAt: string,
    assignedTo: Option<string>)

  const AutoAssignee := "Auto-assigned"

  /** `updateTicketStatus`: every ticket with that id takes the new status and
      assignee (an omitted assignee clears it); every other ticket is untouched. */
  function UpdateTicketStatus(tickets: seq<Ticket>, ticketId: string, status: Status, assignedTo: Option<string>): (r: seq<Ticket>)
    ensures |r| == |tickets|
    ensures forall i :: 0 <= i < |tickets| && tickets[i].id != ticketId ==> r[i] == tickets[i]
    ensures forall i :: 0 <= i < |tickets| && tickets[i].id == ticketId ==>
      && r[i].status == status && r[i].assignedTo == assignedTo
      && r[i].(status := tickets[i].status, assignedTo := tickets[i].assignedTo) == tickets[i]
  {
    seq(|tickets|, i requires 0 <= i < |tickets| =>
      if tickets[i].id == ticketId then tickets[i].(status := status, assignedTo := assignedTo) else tickets[i])
  }

  /** The buttons on a ticket's card: one per status other than its current one. */
  function Buttons(t: Ticket): (targets: set<Status>)
    ensures Unassigned in targets <==> t.status != Unassigned
    ensures Assigned in targets <==> t.status != Assigned
    ensures Cleared in targets <==> t.status != Cleared
    ensures |targets| == 2
  {
    match t.status
    case Unassigned => {Assigned, Cleared}
    case Assigned => {Unassigned, Cleared}
    case Cleared => {Unassigned, Assigned}
  }

  /** The action behind each button of the card of `t`. */
  function Press(tickets: seq<Ticket>, t: Ticket, target: Status): (r: seq<Ticket>)
    ensures |r| == |tickets|
    ensures forall i :: 0 <= i < |tickets| && tickets[i].id == t.id ==>
      && r[i].status == target
      && (target == Unassigned ==> r[i].assignedTo.None?)
      && (target == Assigned ==> r[i].assignedTo == Some(AutoAssignee))
      && (target == Cleared ==> r[i].assignedTo == t.assignedTo)
    ensures forall i :: 0 <= i < |tickets| && tickets[i].id == t.id ==>
      r[i] == tickets[i].(status := r[i].status, assignedTo := r[i].assignedTo)
    ensures forall i :: 0 <= i < |tickets| && tickets[i].id != t.id ==> r[i] == tickets[i]
  {
    match target
    case Unassigned => UpdateTicketStatus(tickets, t.id, Unassigned, None)
    case Assigned => UpdateTicketStatus(tickets, t.id, Assigned, Some(AutoAssignee))
    case Cleared => UpdateTicketStatus(tickets, t.id, Cleared, t.assignedTo)
  }

  /** The tickets of one tab. */
  function Tab(tickets: seq<Ticket>, s: Status): (r: seq<Ticket>)
    ensures IsSubseq(r, tickets)
    ensures forall t :: t in r <==> t in tickets && t.status == s
  {
    Filter((t: Ticket) => t.status == s, tickets)
  }

  /** The three tabs partition the board: every ticket is in exactly one of them and
      the three counts add up to the number of tickets. */
  lemma {:induction false} TabsPartition(tickets: seq<Ticket>)
    ensures |Tab(tickets, Unassigned)| + |Tab(tickets, Assigned)| + |Tab(tickets, Cleared)| == |tickets|
    ensures forall t :: t in tickets ==>
      && t in Tab(tickets, t.status)
      && (forall s: Status :: s != t.status ==> t !in Tab(tickets, s))
  {
    if tickets != [] {
      TabsPartition(tickets[1..]);
      var t := tickets[0];
      assert Tab(tickets, t.status) == [t] + Tab(tickets[1..], t.status);
      forall s: Status | s != t.status ensures Tab(tickets, s) == Tab(tickets[1..], s) { }
    }
  }

  /** Clearing a ticket from its own card keeps its assignee. */
  lemma {:induction false} ClearKeepsAssignee(tickets: seq<Ticket>, i: nat)
    requires i < |tickets|
    ensures Press(tickets, tickets[i], Cleared)[i] == tickets[i].(status := Cleared)
  {
  }
}
