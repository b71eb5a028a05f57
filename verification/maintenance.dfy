/** The maintenance payment history: which records a user sees, submitting a new
    request, and an admin's approve/reject decision. The record id and the dates
    come from the clock and are parameters; the amount is kept as the submitted text
    (`Amount`), standing for its parsed value. */
module Maintenance {
  import opened Common
  import opened Seqs

  datatype Status = Pending | Approved | Rejected

  datatype Decision = Approve | Reject

  datatype Amount = Amount(text: string)

  datatype Record = Record(
    id: string,
    description: string,
    amount: Amount,
    status: Status,
    submittedBy: string,
    flatNumber: string,
    submittedDate: string,
    approvedBy: Option<string>,
    approvedDate: Option<string>)

  const Approver := "Admin User"

  /** An undefined flat number equals no record's flat number. */
  predicate OwnedBy(userFlatNumber: Option<string>, r: Record) {
    userFlatNumber == Some(r.flatNumber)
  }

  /** Admins see every record; others see the records of their own flat, in order. */
  function Visible(records: seq<Record>, isAdmin: bool, userFlatNumber: Option<string>): (r: seq<Record>)
    ensures isAdmin ==> r == records
    ensures IsSubseq(r, records)
    ensures !isAdmin ==> forall x :: x in r <==> x in records && OwnedBy(userFlatNumber, x)
    ensures !isAdmin ==> |r| == Count(x => OwnedBy(userFlatNumber, x), records)
    ensures !isAdmin && userFlatNumber.None? ==> r == []
  {
    if isAdmin then
      IsSubseqRefl(records);
      records
    else
      var r := Filter(x => OwnedBy(userFlatNumber, x), records);
      assert r != [] ==> r[0] in r;
      r
  }

  datatype Request = Request(description: string, amount: string)

  /** `handleSubmitRequest`: an empty description or amount is refused; otherwise a
      pending record for the user's flat (or "" when it is undefined) goes in front. */
  function SubmitRequest(records: seq<Record>, req: Request, userName: string, userFlatNumber: Option<string>,
                         id: string, today: string): (r: Option<seq<Record>>)
    ensures r.None? <==> req.description == "" || req.amount == ""
    ensures r.Some? ==>
      && |r.value| == |records| + 1
      && r.value[1..] == records
      && r.value[0].id == id && r.value[0].submittedDate == today
      && r.value[0].status == Pending
      && r.value[0].description == req.description && r.value[0].amount == Amount(req.amount)
      && r.value[0].submittedBy == userName
      && r.value[0].flatNumber == userFlatNumber.GetOr("")
      && r.value[0].approvedBy.None? && r.value[0].approvedDate.None?
  {
    if req.description == "" || req.amount == "" then None
    else
      var rec := Record(id, req.description, Amount(req.amount), Pending, userName, userFlatNumber.GetOr(""), today, None, None);
      Some([rec] + records)
  }

  function StatusOf(d: Decision): Status {
    match d
    case Approve => Approved
    case Reject => Rejected
  }

  /** `handleStatusChange`: every record with that id takes the decision, "Admin User"
      as approver and today's date; nothing else changes. */
  function Decide(records: seq<Record>, recordId: string, d: Decision, today: string): (r: seq<Record>)
    ensures |r| == |records|
    ensures forall i :: 0 <= i < |records| && records[i].id != recordId ==> r[i] == records[i]
    ensures forall i :: 0 <= i < |records| && records[i].id == recordId ==>
      && r[i].status == StatusOf(d) && r[i].status != Pending
      && r[i].approvedBy == Some(Approver) && r[i].approvedDate == Some(today)
      && r[i].(status := records[i].status, approvedBy := records[i].approvedBy, approvedDate := records[i].approvedDate) == records[i]
  {
    seq(|records|, i requires 0 <= i < |records| =>
      if records[i].id == recordId
      then records[i].(status := StatusOf(d), approvedBy := Some(Approver), approvedDate := Some(today))
      else records[i])
  }

  /** Approve and Reject are offered to admins, on pending records only. */
  predicate OffersDecision(isAdmin: bool, r: Record) {
    isAdmin && r.status == Pending
  }

  /** A decided record no longer offers a decision, and deciding it again the same way changes nothing. */
  lemma {:induction false} DecisionIsFinal(records: seq<Record>, recordId: string, d: Decision, today: string, isAdmin: bool)
    ensures var r := Decide(records, recordId, d, today);
      && (forall i :: 0 <= i < |r| && r[i].id == recordId ==> !OffersDecision(isAdmin, r[i]))
      && Decide(r, recordId, d, today) == r
  {
    var r := Decide(records, recordId, d, today);
    var r2 := Decide(r, recordId, d, today);
    assert |r2| == |r|;
    forall i | 0 <= i < |r| ensures r2[i] == r[i] {
      if records[i].id == recordId {
        assert r[i].id == recordId;
      } else {
        assert r[i] == records[i];
      }
    }
  }

  /** A resident sees their own new request at the top of their list. */
  lemma {:induction false} SubmittedIsVisibleToItsFlat(records: seq<Record>, req: Request, userName: string,
                                                       flat: string, id: string, today: string)
    requires SubmitRequest(records, req, userName, Some(flat), id, today).Some?
    ensures var r := SubmitRequest(records, req, userName, Some(flat), id, today).value;
      Visible(r, false, Some(flat)) == [r[0]] + Visible(records, false, Some(flat))
  {
    var r := SubmitRequest(records, req, userName, Some(flat), id, today).value;
    assert r == [r[0]] + records;
    assert r[1..] == records;
  }
}
