/** The technician directory: a case-insensitive search over name, specialty and
    email, and the three figures on the summary cards. */
module Technicians {
  import opened Text
  import opened Seqs

  datatype Status = Available | Busy | Offline

  datatype Technician = Technician(
    id: string,
    name: string,
    email: string,
    phone: string,
    specialty: string,
    status: Status,
    completedJobs: int,
    activeJobs: int)

  /** The fields the search box looks in. */
  function Fields(t: Technician): seq<string> {
    [t.name, t.specialty, t.email]
  }

  predicate MatchesSearch(term: string, t: Technician) {
    MatchesAny(Fields(t), term)
  }

  /** `filteredTechnicians`: an order-preserving selection of the technicians whose name,
      specialty or email contains the term, ignoring case; an empty term keeps everyone. */
  function Search(technicians: seq<Technician>, term: string): (r: seq<Technician>)
    ensures IsSubseq(r, technicians)
    ensures forall t :: t in r <==>
      && t in technicians
      && (Includes(Lower(t.name), Lower(term)) || Includes(Lower(t.specialty), Lower(term)) || Includes(Lower(t.email), Lower(term)))
    ensures term == "" ==> r == technicians
    ensures |r| == Count(Matcher(Fields, term), technicians)
  {
    forall t: Technician
      ensures MatchesSearch(term, t) <==>
        (Includes(Lower(t.name), Lower(term)) || Includes(Lower(t.specialty), Lower(term)) || Includes(Lower(t.email), Lower(term)))
    {
      var f := Fields(t);
      assert f[0] == t.name && f[1] == t.specialty && f[2] == t.email;
    }
    Text.Search(technicians, Fields, term)
  }

  /** `availableTechnicians`, never more than `totalTechnicians`. */
  function AvailableCount(technicians: seq<Technician>): (n: nat)
    ensures n <= |technicians|
    ensures n == |Filter((t: Technician) => t.status == Available, technicians)|
  {
    Count((t: Technician) => t.status == Available, technicians)
  }

  /** A technician's open jobs. */
  function Jobs(t: Technician): int {
    t.activeJobs
  }

  /** `activeTasks`: the sum of `activeJobs` over the whole directory. */
  function ActiveTasks(technicians: seq<Technician>): int {
    Sum(Jobs, technicians)
  }

  /** The active-task figure ignores the search: it is the sum over the technicians
      shown plus the sum over those the search hides. */
  lemma {:induction false} ActiveTasksIgnoresSearch(technicians: seq<Technician>, term: string)
    ensures ActiveTasks(technicians) ==
      Sum(Jobs, Search(technicians, term)) + Sum(Jobs, Filter((t: Technician) => !MatchesSearch(term, t), technicians))
  {
    SearchSplitsSum(Jobs, technicians, Fields, term, (t: Technician) => !MatchesSearch(term, t));
    assert Search(technicians, term) == Text.Search(technicians, Fields, term);
  }
}
