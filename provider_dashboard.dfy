/** The provider's dashboard: its access check, the loading of profile,
    services and bookings, the lookup tables for icons and badges, and the
    overview's counts and recent-bookings list. */
module ProviderDashboard {
  import opened Wrappers
  import opened Seqs

  /** A booking as the dashboard lists it (only the fields its logic reads). */
  datatype DashBooking = DashBooking(id: nat, serviceName: string, customerName: string, status: string)

  /** A service as the dashboard lists it. */
  datatype DashService = DashService(id: nat, name: string, category: string)

  /** The provider profile as the dashboard keeps it. */
  datatype Profile = Profile(businessName: string, city: string)

  // ----------------------------------------------------------------- lookups

  /** The category icons; the page's icon strings are treated as opaque symbols. */
  datatype Icon = PawPrints | Lipstick | Car | House | Wrench

  /** `getServiceIcon`: the icon of a known category, the wrench otherwise. */
  function ServiceIcon(category: string): (i: Icon)
    ensures category == "pets" ==> i == PawPrints
    ensures category == "beauty" ==> i == Lipstick
    ensures category == "vehicles" ==> i == Car
    ensures category == "home" ==> i == House
    ensures i == Wrench <==> category !in {"pets", "beauty", "vehicles", "home"}
  {
    if category == "pets" then PawPrints
    else if category == "beauty" then Lipstick
    else if category == "vehicles" then Car
    else if category == "home" then House
    else Wrench
  }

  /** `getStatusBadge`: the Bootstrap colour of a booking's status. */
  function StatusBadge(status: string): (b: string)
    ensures status == "pending" ==> b == "warning"
    ensures status == "confirmed" ==> b == "success"
    ensures status == "completed" ==> b == "info"
    ensures status == "cancelled" ==> b == "danger"
    ensures b == "secondary" <==> status !in {"pending", "confirmed", "completed", "cancelled"}
  {
    if status == "pending" then "warning"
    else if status == "confirmed" then "success"
    else if status == "completed" then "info"
    else if status == "cancelled" then "danger"
    else "secondary"
  }

  /** Distinct statuses of the four known ones get distinct colours. */
  lemma StatusBadgeInjective(s: string, t: string)
    requires s in {"pending", "confirmed", "completed", "cancelled"}
    requires StatusBadge(s) == StatusBadge(t)
    ensures s == t
  {
  }

  // ----------------------------------------------------------------- overview

  function HasStatus(status: string): DashBooking -> bool
  {
    (b: DashBooking) => b.status == status
  }

  /** "Active Bookings": the confirmed ones. */
  function ActiveCount(bookings: seq<DashBooking>): nat { |Filter(bookings, HasStatus("confirmed"))| }

  /** "Pending Requests": the pending ones. */
  function PendingCount(bookings: seq<DashBooking>): nat { |Filter(bookings, HasStatus("pending"))| }

  /** The two counts are of disjoint groups of bookings. */
  lemma CountsBounded(bookings: seq<DashBooking>)
    ensures ActiveCount(bookings) + PendingCount(bookings) <= |bookings|
    ensures ActiveCount(bookings) == CountIf(bookings, HasStatus("confirmed"))
    ensures PendingCount(bookings) == CountIf(bookings, HasStatus("pending"))
  {
    FilterLength(bookings, HasStatus("confirmed"));
    FilterLength(bookings, HasStatus("pending"));
    CountDisjoint(bookings, HasStatus("confirmed"), HasStatus("pending"));
  }

  /** "Recent Bookings": `bookings.slice(0, 5)`. */
  function Recent(bookings: seq<DashBooking>): (r: seq<DashBooking>)
    ensures |r| == if |bookings| < 5 then |bookings| else 5
    ensures forall k :: 0 <= k < |r| ==> r[k] == bookings[k]
  {
    if |bookings| < 5 then bookings else bookings[..5]
  }

  /** The Accept and Decline buttons of a booking row. */
  function ShowAcceptDecline(b: DashBooking): (shown: bool)
    ensures shown <==> b.status == "pending"
  {
    b.status == "pending"
  }

  // --------------------------------------------------------------- entering

  /** The access check when the page opens: `token` and `role` are the
      stored entries (`None` when absent); `true` means fetch the data,
      `false` means go to /login without fetching. */
  function MayEnter(token: Option<string>, role: Option<string>): (fetch: bool)
    ensures fetch <==> token.Some? && token.value != "" && role == Some("provider")
  {
    !(token.None? || token.value == "") && role == Some("provider")
  }

  /** What one `fetch` of the dashboard yields: an ok response with its body,
      a response that is not ok, or an exception (a network error or an
      unreadable body). */
  datatype Response<T> = Ok(data: T) | NotOk | Thrown

  /** The page's state. */
  class Dashboard {
    var providerData: Option<Profile>
    var services: seq<DashService>
    var bookings: seq<DashBooking>
    var isLoading: bool
    /** The routes `navigate` was sent to, oldest first. */
    var navigations: seq<string>

    /** The initial `useState` values. */
    constructor ()
      ensures providerData == None && services == [] && bookings == [] && isLoading
      ensures navigations == []
    {
      providerData := None;
      services := [];
      bookings := [];
      isLoading := true;
      navigations := [];
    }

    /** The mount effect: without a token or without the role 'provider'
        the page goes to /login and fetches nothing, so it keeps its state
        and stays loading; otherwise it fetches the dashboard data. */
    method Open(token: Option<string>, role: Option<string>, profile: Response<Profile>,
                servicesResponse: Response<seq<DashService>>, bookingsResponse: Response<seq<DashBooking>>)
      modifies this
      ensures !MayEnter(token, role) ==>
        && navigations == old(navigations) + ["/login"]
        && providerData == old(providerData) && services == old(services) && bookings == old(bookings)
        && isLoading == old(isLoading)
      ensures MayEnter(token, role) ==>
        && navigations == old(navigations)
        && providerData == (if profile.Ok? then Some(profile.data) else old(providerData))
        && services == (if !profile.Thrown? && servicesResponse.Ok? then servicesResponse.data else old(services))
        && bookings == (if !profile.Thrown? && !servicesResponse.Thrown? && bookingsResponse.Ok? then bookingsResponse.data
                        else old(bookings))
        && !isLoading
    {
      if token.None? || token.value == "" || role != Some("provider") {
        navigations := navigations + ["/login"];
        return;
      }
      FetchDashboardData(profile, servicesResponse, bookingsResponse);
    }

    /** `fetchDashboardData`: the three requests run in turn; each ok response
        replaces its part of the state; an exception skips the requests after
        it; the page stops loading in every case. */
    method FetchDashboardData(profile: Response<Profile>, servicesResponse: Response<seq<DashService>>,
                              bookingsResponse: Response<seq<DashBooking>>)
      modifies this
      ensures providerData == if profile.Ok? then Some(profile.data) else old(providerData)
      ensures services == if !profile.Thrown? && servicesResponse.Ok? then servicesResponse.data else old(services)
      ensures bookings ==
        if !profile.Thrown? && !servicesResponse.Thrown? && bookingsResponse.Ok? then bookingsResponse.data
        else old(bookings)
      ensures !isLoading
      ensures navigations == old(navigations)
    {
      isLoading := true;
      if profile.Thrown? {
        isLoading := false;
        return;
      }
      if profile.Ok? {
        providerData := Some(profile.data);
      }
      if servicesResponse.Thrown? {
        isLoading := false;
        return;
      }
      if servicesResponse.Ok? {
        services := servicesResponse.data;
      }
      if bookingsResponse.Ok? {
        bookings := bookingsResponse.data;
      }
      isLoading := false;
    }
  }
}
