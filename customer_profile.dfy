/** The customer's "My Services" page: the status tabs over the customer's
    bookings, their counts, and how a status is displayed. */
module CustomerProfile {
  import opened Seqs
  import Text

  /** A booking as the page lists it (only the fields the tab logic reads). */
  datatype BookedService = BookedService(id: nat, serviceType: string, status: string)

  function HasStatus(status: string): BookedService -> bool
  {
    (s: BookedService) => s.status == status
  }

  /** `getFilteredServices` for the selected tab. */
  function FilteredServices(services: seq<BookedService>, filter: string): (r: seq<BookedService>)
    ensures Subseq(r, services)
    ensures filter != "completed" && filter != "pending" ==> r == services
    ensures filter == "completed" || filter == "pending" ==>
      (forall k :: 0 <= k < |r| ==> r[k].status == filter)
      && forall x :: multiset(r)[x] == if x.status == filter then multiset(services)[x] else 0
  {
    if filter == "completed" || filter == "pending" then
      FilterSubseq(services, HasStatus(filter));
      FilterAll(services, HasStatus(filter));
      FilterCountsAll(services, HasStatus(filter));
      Filter(services, HasStatus(filter))
    else
      SubseqReflexive(services);
      services
  }

  /** The numbers on the three tabs. */
  function AllCount(services: seq<BookedService>): nat { |services| }
  function CompletedCount(services: seq<BookedService>): nat { |Filter(services, HasStatus("completed"))| }
  function PendingCount(services: seq<BookedService>): nat { |Filter(services, HasStatus("pending"))| }

  /** The completed and pending tabs never count more than the "All" tab,
      and each tab's count is the length of the list it shows. */
  lemma TabCounts(services: seq<BookedService>)
    ensures CompletedCount(services) + PendingCount(services) <= AllCount(services)
    ensures CompletedCount(services) == |FilteredServices(services, "completed")|
    ensures PendingCount(services) == |FilteredServices(services, "pending")|
    ensures AllCount(services) == |FilteredServices(services, "all")|
  {
    FilterLength(services, HasStatus("completed"));
    FilterLength(services, HasStatus("pending"));
    CountDisjoint(services, HasStatus("completed"), HasStatus("pending"));
  }

  /** `getStatusBadgeClass`. */
  function StatusBadgeClass(status: string): (c: string)
    ensures status == "completed" ==> c == "badge bg-success"
    ensures status == "pending" ==> c == "badge bg-warning text-dark"
    ensures status != "completed" && status != "pending" ==> c == "badge bg-secondary"
  {
    if status == "completed" then "badge bg-success"
    else if status == "pending" then "badge bg-warning text-dark"
    else "badge bg-secondary"
  }

  /** `status.charAt(0).toUpperCase() + status.slice(1)`. */
  function Capitalize(status: string): (r: string)
    ensures |r| == |status|
    ensures status != [] ==> r[0] == Text.UpperChar(status[0]) && r[1..] == status[1..]
    ensures status == [] ==> r == []
  {
    if status == [] then [] else Text.ToUpper(status[..1]) + status[1..]
  }

  /** Capitalising twice is capitalising once. */
  lemma CapitalizeIdempotent(status: string)
    ensures Capitalize(Capitalize(status)) == Capitalize(status)
  {
    if status != [] {
      var c := Capitalize(status);
      assert Text.UpperChar(c[0]) == c[0];
      assert c == [c[0]] + c[1..];
      assert Capitalize(c) == [c[0]] + c[1..];
    }
  }
}
