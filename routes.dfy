/** The API's request handlers over the database tables, which are held as
    sequences (row `i` has primary key `i + 1`).  Each handler takes the
    JSON body (`None` when it is JSON `null`) and, behind the role gate,
    the identity of the verified token; it returns the reply and updates
    the tables as the committed transaction would. */
module Routes {
  import opened Wrappers
  import opened Seqs
  import opened Sorting
  import opened Json
  import opened Models
  import opened Utils
  import Calendar
  import Text

  /** What a listing endpoint answers: a refusal, or the rows it serializes. */
  datatype Answer<T> = Denied(reply: Reply) | Answered(value: T)

  /** The earnings report; amounts are in cents. */
  datatype Earnings = Earnings(today: nat, week: nat, month: nat, total: nat, recent: seq<Booking>)

  /** A service of the public catalogue with the provider details attached to it. */
  datatype ProviderCard = ProviderCard(
    id: nat, name: Value, businessName: Value, phone: Value, email: Value, city: Value, state: Value, rating: Value)
  datatype CatalogueEntry = CatalogueEntry(service: Service, provider: ProviderCard)

  /** What `get_current_provider` returns: the profile row, or the
      `(response, 404)` pair, which is truthy, so the callers' `if not
      provider` lets it through. */
  datatype Lookup = Found(index: nat) | NotFoundPair

  const BookingStatuses := ["pending", "confirmed", "completed", "cancelled"]
  const ServiceCategories := ["pets", "beauty", "vehicles", "home"]
  const RequiredServiceFields := ["name", "category", "price"]
  const ServiceFields := ["name", "description", "category", "price", "duration", "is_active"]

  /** `value in [Str(x) for x in options]`. */
  predicate OneOf(v: Value, options: seq<string>)
  {
    v.Str? && v.s in options
  }

  /** The first of `fields` that is not a key of `data` (the required-field loop). */
  function FirstMissing(data: map<string, Value>, fields: seq<string>): (m: Option<nat>)
    ensures m.Some? ==>
      m.value < |fields| && fields[m.value] !in data && forall k :: 0 <= k < m.value ==> fields[k] in data
    ensures m.None? ==> forall f :: f in fields ==> f in data
  {
    if fields == [] then None
    else if fields[0] !in data then Some(0)
    else match FirstMissing(data, fields[1..])
      case None => None
      case Some(k) => Some(k + 1)
  }

  /** The checks `signup` makes of its body before looking at the database:
      every field present and truthy, then a role signup admits. */
  function SignupBodyError(data: map<string, Value>): (e: Option<Reply>)
    ensures e.None? <==>
      (Truthy(Get(data, "full_name", Null)) && Truthy(Get(data, "email", Null))
       && Truthy(Get(data, "password", Null)) && Truthy(Get(data, "role", Null))
       && (data["role"] == Str("customer") || data["role"] == Str("provider")))
    ensures !(Truthy(Get(data, "full_name", Null)) && Truthy(Get(data, "email", Null))
              && Truthy(Get(data, "password", Null)) && Truthy(Get(data, "role", Null))) ==>
      e == Some(Message(400, "All fields are required"))
    ensures e.Some? ==>
      (e == Some(Message(400, "All fields are required")) || e == Some(Message(400, "Role must be 'customer' or 'provider'")))
  {
    if !(Truthy(Get(data, "full_name", Null)) && Truthy(Get(data, "email", Null))
         && Truthy(Get(data, "password", Null)) && Truthy(Get(data, "role", Null))) then
      Some(Message(400, "All fields are required"))
    else if !OneOf(data["role"], ["customer", "provider"]) then
      Some(Message(400, "Role must be 'customer' or 'provider'"))
    else None
  }

  /** The provider profile signup creates: its name is the account's, and
      the business name is the body's `business_name` or else that name;
      every other column is left empty. */
  function NewProviderProfile(id: nat, userId: nat, data: map<string, Value>): (p: Provider)
    requires "full_name" in data
    ensures p.id == id && p.userId == userId && p.name == data["full_name"]
    ensures p.businessName == (if "business_name" in data then data["business_name"] else data["full_name"])
    ensures p.phone == Null && p.description == Null && p.address == Null && p.city == Null
    ensures p.state == Null && p.zipCode == Null && p.rating == Null
  {
    Provider(id, userId, data["full_name"], Get(data, "business_name", data["full_name"]),
      Null, Null, Null, Null, Null, Null, Null)
  }

  /** The checks `create_service` makes of its body before creating anything:
      the first missing required field, then the category. */
  function ServiceBodyError(data: map<string, Value>): (e: Option<Reply>)
    ensures e.None? <==>
      "name" in data && "category" in data && "price" in data && OneOf(data["category"], ServiceCategories)
    ensures FirstMissing(data, RequiredServiceFields).Some? ==>
      e == Some(Message(400, RequiredServiceFields[FirstMissing(data, RequiredServiceFields).value] + " is required"))
    ensures FirstMissing(data, RequiredServiceFields).None? && e.Some? ==> e == Some(Message(400, "Invalid category"))
  {
    match FirstMissing(data, RequiredServiceFields)
    case Some(m) => Some(Message(400, RequiredServiceFields[m] + " is required"))
    case None =>
      assert RequiredServiceFields[1] == "category";
      if OneOf(data["category"], ServiceCategories) then None else Some(Message(400, "Invalid category"))
  }

  /** The service `create_service` adds: the body's columns, with an empty
      description, no duration and an active service by default. */
  function NewService(id: nat, providerId: nat, data: map<string, Value>): (t: Service)
    requires "name" in data && "category" in data && "price" in data
    ensures t.id == id && t.providerId == providerId
    ensures t.name == data["name"] && t.category == data["category"] && t.price == data["price"]
    ensures t.description == (if "description" in data then data["description"] else Str(""))
    ensures t.duration == (if "duration" in data then data["duration"] else Null)
    ensures t.isActive == (if "isActive" in data then data["isActive"] else Bool(true))
  {
    Service(id, providerId, data["name"], Get(data, "description", Str("")), data["category"], data["price"],
      Get(data, "duration", Null), Get(data, "isActive", Bool(true)))
  }

  /** `setattr(service, field, value)` for the six updatable columns. */
  function SetField(s: Service, field: string, v: Value): Service
  {
    if field == "name" then s.(name := v)
    else if field == "description" then s.(description := v)
    else if field == "category" then s.(category := v)
    else if field == "price" then s.(price := v)
    else if field == "duration" then s.(duration := v)
    else if field == "is_active" then s.(isActive := v)
    else s
  }

  /** The service after the update loop has visited `fields`, in order. */
  function ApplyFields(s: Service, data: map<string, Value>, fields: seq<string>): Service
  {
    if fields == [] then s
    else
      var before := ApplyFields(s, data, fields[..|fields| - 1]);
      var f := fields[|fields| - 1];
      if f in data then SetField(before, f, data[f]) else before
  }

  lemma ApplyFieldsSnoc(s: Service, data: map<string, Value>, fields: seq<string>, f: string)
    ensures ApplyFields(s, data, fields + [f]) ==
      var before := ApplyFields(s, data, fields);
      if f in data then SetField(before, f, data[f]) else before
  {
    assert (fields + [f])[..|fields|] == fields;
  }

  /** The update of a service changes exactly the listed columns present in
      the body, and keys outside the list (such as `isActive`) are ignored. */
  lemma ApplyServiceFields(s: Service, data: map<string, Value>)
    ensures var t := ApplyFields(s, data, ServiceFields);
      && t.id == s.id && t.providerId == s.providerId
      && t.name == Get(data, "name", s.name)
      && t.description == Get(data, "description", s.description)
      && t.category == Get(data, "category", s.category)
      && t.price == Get(data, "price", s.price)
      && t.duration == Get(data, "duration", s.duration)
      && t.isActive == Get(data, "is_active", s.isActive)
  {
    ApplyFieldsSnoc(s, data, [], "name");
    ApplyFieldsSnoc(s, data, ["name"], "description");
    ApplyFieldsSnoc(s, data, ["name", "description"], "category");
    ApplyFieldsSnoc(s, data, ["name", "description", "category"], "price");
    ApplyFieldsSnoc(s, data, ["name", "description", "category", "price"], "duration");
    ApplyFieldsSnoc(s, data, ["name", "description", "category", "price", "duration"], "is_active");
    assert [] + ["name"] == ["name"];
    assert ["name"] + ["description"] == ["name", "description"];
    assert ["name", "description"] + ["category"] == ["name", "description", "category"];
    assert ["name", "description", "category"] + ["price"] == ["name", "description", "category", "price"];
    assert ["name", "description", "category", "price"] + ["duration"] == ["name", "description", "category", "price", "duration"];
    assert ["name", "description", "category", "price", "duration"] + ["is_active"] == ServiceFields;
  }

  /** The loop of `update_service`: `setattr` for each listed field the body holds. */
  method UpdateFields(s: Service, data: map<string, Value>) returns (t: Service)
    ensures t == ApplyFields(s, data, ServiceFields)
  {
    t := s;
    for i := 0 to |ServiceFields|
      invariant t == ApplyFields(s, data, ServiceFields[..i])
    {
      var field := ServiceFields[i];
      ApplyFieldsSnoc(s, data, ServiceFields[..i], field);
      assert ServiceFields[..i + 1] == ServiceFields[..i] + [field];
      if field in data {
        t := SetField(t, field, data[field]);
      }
    }
    assert ServiceFields[..|ServiceFields|] == ServiceFields;
  }

  /** The provider profile after `update_provider_profile`: each column takes
      the body's value under its key (camelCase `businessName` and `zipCode`)
      and keeps its old value when the key is absent. */
  function UpdatedProfile(p: Provider, data: map<string, Value>): (q: Provider)
    ensures q.id == p.id && q.userId == p.userId && q.rating == p.rating
    ensures q.name == (if "name" in data then data["name"] else p.name)
    ensures q.businessName == (if "businessName" in data then data["businessName"] else p.businessName)
    ensures q.phone == (if "phone" in data then data["phone"] else p.phone)
    ensures q.description == (if "description" in data then data["description"] else p.description)
    ensures q.address == (if "address" in data then data["address"] else p.address)
    ensures q.city == (if "city" in data then data["city"] else p.city)
    ensures q.state == (if "state" in data then data["state"] else p.state)
    ensures q.zipCode == (if "zipCode" in data then data["zipCode"] else p.zipCode)
  {
    p.(name := Get(data, "name", p.name),
       businessName := Get(data, "businessName", p.businessName),
       phone := Get(data, "phone", p.phone),
       description := Get(data, "description", p.description),
       address := Get(data, "address", p.address),
       city := Get(data, "city", p.city),
       state := Get(data, "state", p.state),
       zipCode := Get(data, "zipCode", p.zipCode))
  }

  /** An empty body changes no column of the profile. */
  lemma EmptyProfileUpdate(p: Provider)
    ensures UpdatedProfile(p, map[]) == p
  {
  }

  /** `Booking.booking_date.desc(), Booking.booking_time.desc()` as a relation. */
  const NewestFirst: (Booking, Booking) -> bool :=
    (a: Booking, b: Booking) => a.bookingDate > b.bookingDate || (a.bookingDate == b.bookingDate && a.bookingTime >= b.bookingTime)

  /** `Booking.booking_date.desc()` as a relation. */
  const LatestDateFirst: (Booking, Booking) -> bool := (a: Booking, b: Booking) => a.bookingDate >= b.bookingDate

  lemma BookingOrdersArePreorders()
    ensures TotalPreorder(NewestFirst) && TotalPreorder(LatestDateFirst)
  {
  }

  function CompletedFor(providerId: nat): Booking -> bool
  {
    (b: Booking) => b.providerId == providerId && b.status == "completed"
  }

  /** The sum of `total_price` over `s`; 0 for no rows (`scalar() or 0.0`). */
  function SumPrices(s: seq<Booking>): nat
  {
    if s == [] then 0 else s[0].totalPrice + SumPrices(s[1..])
  }

  function OnOrAfter(day: int): Booking -> bool
  {
    (b: Booking) => b.bookingDate >= day
  }

  function OnDay(day: int): Booking -> bool
  {
    (b: Booking) => b.bookingDate == day
  }

  /** Summing a narrower selection gives no more. */
  lemma {:induction false} SumNarrower(s: seq<Booking>, p: Booking -> bool, q: Booking -> bool)
    requires forall b :: p(b) ==> q(b)
    ensures SumPrices(Filter(s, p)) <= SumPrices(Filter(s, q))
  {
    if s != [] {
      SumNarrower(s[1..], p, q);
      SumStep(s, p);
      SumStep(s, q);
    }
  }

  /** One step of a filtered sum. */
  lemma SumStep(s: seq<Booking>, p: Booking -> bool)
    requires s != []
    ensures SumPrices(Filter(s, p)) == (if p(s[0]) then s[0].totalPrice else 0) + SumPrices(Filter(s[1..], p))
  {
    var t := Filter(s[1..], p);
    if p(s[0]) {
      assert Filter(s, p) == [s[0]] + t;
      assert ([s[0]] + t)[1..] == t;
    } else {
      assert Filter(s, p) == t;
    }
  }

  /** Summing a selection gives no more than summing everything. */
  lemma {:induction false} SumSelection(s: seq<Booking>, p: Booking -> bool)
    ensures SumPrices(Filter(s, p)) <= SumPrices(s)
  {
    if s != [] {
      SumSelection(s[1..], p);
      SumStep(s, p);
    }
  }

  function OfProvider(providerId: nat): Booking -> bool
  {
    (b: Booking) => b.providerId == providerId
  }

  function WithStatus(status: string): Booking -> bool
  {
    (b: Booking) => b.status == status
  }

  /** The rows of `get_provider_bookings`: the provider's bookings, of the
      requested status when one is given, newest first. */
  function BookingListing(bookings: seq<Booking>, pid: nat, status: Option<string>): seq<Booking>
  {
    var own := Filter(bookings, OfProvider(pid));
    var selected := if status.Some? && status.value != "" then Filter(own, WithStatus(status.value)) else own;
    SortBy(selected, NewestFirst)
  }

  /** The listing holds each of the provider's bookings of the requested
      status as often as the table does, and no other, ordered by date and
      then time, newest first. */
  lemma BookingListingSpec(bookings: seq<Booking>, pid: nat, status: Option<string>)
    ensures var rows := BookingListing(bookings, pid, status);
      && (forall x :: multiset(rows)[x] ==
            if x.providerId == pid && (status.None? || status.value == "" || x.status == status.value)
            then multiset(bookings)[x] else 0)
      && (forall i, j :: 0 <= i < j < |rows| ==>
            rows[i].bookingDate > rows[j].bookingDate
            || (rows[i].bookingDate == rows[j].bookingDate && rows[i].bookingTime >= rows[j].bookingTime))
  {
    var own := Filter(bookings, OfProvider(pid));
    var selected := if status.Some? && status.value != "" then Filter(own, WithStatus(status.value)) else own;
    SortByPermutation(selected, NewestFirst);
    BookingOrdersArePreorders();
    SortBySorted(selected, NewestFirst);
    FilterCountsAll(bookings, OfProvider(pid));
    if status.Some? && status.value != "" {
      FilterCountsAll(own, WithStatus(status.value));
    }
  }

  /** `order_by(Booking.booking_date.desc()).limit(10)`. */
  function Latest(done: seq<Booking>): seq<Booking>
  {
    var sorted := SortBy(done, LatestDateFirst);
    if |sorted| <= 10 then sorted else sorted[..10]
  }

  /** The ten latest are a top ten: as many of `done` as there are, up to
      ten, drawn from `done`, latest date first, and no booking left out is
      dated after any booking shown. */
  lemma LatestTop(done: seq<Booking>)
    ensures var recent := Latest(done);
      && |recent| == (if |done| < 10 then |done| else 10)
      && multiset(recent) <= multiset(done)
      && (forall i, j :: 0 <= i < j < |recent| ==> recent[i].bookingDate >= recent[j].bookingDate)
      && (forall x, i :: x in multiset(done) - multiset(recent) && 0 <= i < |recent| ==>
            x.bookingDate <= recent[i].bookingDate)
  {
    var sorted := SortBy(done, LatestDateFirst);
    SortByPermutation(done, LatestDateFirst);
    SortByLength(done, LatestDateFirst);
    BookingOrdersArePreorders();
    SortBySorted(done, LatestDateFirst);
    var m := if |sorted| <= 10 then |sorted| else 10;
    assert Latest(done) == sorted[..m];
    PrefixSplit(sorted, m);
    SortedPrefixBound(sorted, m);
  }

  /** Cutting a sequence after `m` elements leaves the rest in the tail. */
  lemma PrefixSplit<T>(s: seq<T>, m: nat)
    requires m <= |s|
    ensures multiset(s[..m]) <= multiset(s)
    ensures multiset(s) - multiset(s[..m]) == multiset(s[m..])
  {
    assert s == s[..m] + s[m..];
  }

  /** In a sequence sorted latest date first, the prefix is ordered and no
      element of the tail is dated after an element of the prefix. */
  lemma SortedPrefixBound(sorted: seq<Booking>, m: nat)
    requires Sorted(sorted, LatestDateFirst) && m <= |sorted|
    ensures forall i, j :: 0 <= i < j < m ==> sorted[..m][i].bookingDate >= sorted[..m][j].bookingDate
    ensures forall x, i :: x in multiset(sorted[m..]) && 0 <= i < m ==> x.bookingDate <= sorted[..m][i].bookingDate
  {
    forall i, j | 0 <= i < j < m ensures sorted[..m][i].bookingDate >= sorted[..m][j].bookingDate {
      assert LatestDateFirst(sorted[i], sorted[j]);
    }
    forall x, i | x in multiset(sorted[m..]) && 0 <= i < m ensures x.bookingDate <= sorted[..m][i].bookingDate {
      assert x in sorted[m..];
      var t :| 0 <= t < |sorted| - m && sorted[m..][t] == x;
      assert LatestDateFirst(sorted[i], sorted[m + t]);
    }
  }

  /** Sorting a provider's completed bookings brings in no other booking. */
  lemma SortedCompletedMember(bookings: seq<Booking>, pid: nat, x: Booking)
    requires x in SortBy(Filter(bookings, CompletedFor(pid)), LatestDateFirst)
    ensures x in bookings && x.providerId == pid && x.status == "completed"
  {
    var done := Filter(bookings, CompletedFor(pid));
    SortByPermutation(done, LatestDateFirst);
    assert x in multiset(SortBy(done, LatestDateFirst));
    assert x in multiset(done);
    FilterContains(bookings, CompletedFor(pid), x);
  }

  /** The recent transactions are the provider's completed bookings as the
      table holds them, cut to the latest ten: every one shown is a
      completed booking of the provider, there are ten of them unless the
      provider has fewer, latest date first, and no completed booking of
      the provider that is not shown is dated after one that is. */
  lemma LatestSpec(bookings: seq<Booking>, pid: nat)
    ensures var done := Filter(bookings, CompletedFor(pid));
      var recent := Latest(done);
      && (forall x :: multiset(done)[x] ==
            if x.providerId == pid && x.status == "completed" then multiset(bookings)[x] else 0)
      && |recent| == (if |done| < 10 then |done| else 10)
      && multiset(recent) <= multiset(done)
      && (forall i :: 0 <= i < |recent| ==> recent[i] in bookings && recent[i].providerId == pid && recent[i].status == "completed")
      && (forall i, j :: 0 <= i < j < |recent| ==> recent[i].bookingDate >= recent[j].bookingDate)
      && (forall x, i :: x in multiset(done) - multiset(recent) && 0 <= i < |recent| ==>
            x.bookingDate <= recent[i].bookingDate)
  {
    var done := Filter(bookings, CompletedFor(pid));
    var sorted := SortBy(done, LatestDateFirst);
    FilterCountsAll(bookings, CompletedFor(pid));
    LatestTop(done);
    var recent := Latest(done);
    forall i | 0 <= i < |recent|
      ensures recent[i] in bookings && recent[i].providerId == pid && recent[i].status == "completed"
    {
      assert recent[i] == sorted[i];
      SortedCompletedMember(bookings, pid, recent[i]);
    }
  }

  ghost predicate ProviderProfileExists(providers: seq<Provider>, userId: nat)
  {
    exists j :: 0 <= j < |providers| && providers[j].userId == userId
  }

  ghost predicate CustomerProfileExists(customers: seq<Customer>, userId: nat)
  {
    exists j :: 0 <= j < |customers| && customers[j].userId == userId
  }

  /** Primary keys: row `i` of every table has id `i + 1`. */
  ghost predicate Keyed(users: seq<User>, providers: seq<Provider>, customers: seq<Customer>, services: seq<Service>)
  {
    && (forall i :: 0 <= i < |users| ==> users[i].id == i + 1)
    && (forall i :: 0 <= i < |providers| ==> providers[i].id == i + 1)
    && (forall i :: 0 <= i < |customers| ==> customers[i].id == i + 1)
    && (forall i :: 0 <= i < |services| ==> services[i].id == i + 1)
  }

  /** Every account has one of the two roles signup admits. */
  ghost predicate KnownRoles(users: seq<User>)
  {
    forall i :: 0 <= i < |users| ==> users[i].role == Str("provider") || users[i].role == Str("customer")
  }

  /** Every profile belongs to an account of the matching role. */
  ghost predicate ProfilesBelong(users: seq<User>, providers: seq<Provider>, customers: seq<Customer>)
  {
    && (forall i :: 0 <= i < |providers| ==>
          1 <= providers[i].userId <= |users| && users[providers[i].userId - 1].role == Str("provider"))
    && (forall i :: 0 <= i < |customers| ==>
          1 <= customers[i].userId <= |users| && users[customers[i].userId - 1].role == Str("customer"))
  }

  /** Every account has a profile of the kind its role names. */
  ghost predicate RolesHaveProfiles(users: seq<User>, providers: seq<Provider>, customers: seq<Customer>)
  {
    && (forall i :: 0 <= i < |users| && users[i].role == Str("provider") ==> ProviderProfileExists(providers, i + 1))
    && (forall i :: 0 <= i < |users| && users[i].role == Str("customer") ==> CustomerProfileExists(customers, i + 1))
  }

  /** Every service belongs to a provider. */
  ghost predicate ServicesBelong(providers: seq<Provider>, services: seq<Service>)
  {
    forall i :: 0 <= i < |services| ==> 1 <= services[i].providerId <= |providers|
  }

  /** The database's integrity: primary keys, the unique e-mail, the roles
      signup admits, one profile of the right kind per account, and services
      that belong to a provider. */
  ghost predicate Consistent(users: seq<User>, providers: seq<Provider>, customers: seq<Customer>, services: seq<Service>)
  {
    && Keyed(users, providers, customers, services)
    && UniqueEmails(users)
    && KnownRoles(users)
    && ProfilesBelong(users, providers, customers)
    && RolesHaveProfiles(users, providers, customers)
    && ServicesBelong(providers, services)
  }

  /** Appending a new account with a fresh e-mail and a known role keeps
      the users table keyed, its e-mails unique and its roles known. */
  lemma AccountAppended(users: seq<User>, user: User)
    requires UniqueEmails(users) && KnownRoles(users)
    requires forall i :: 0 <= i < |users| ==> users[i].id == i + 1
    requires user.id == |users| + 1 && (user.role == Str("provider") || user.role == Str("customer"))
    requires forall i :: 0 <= i < |users| ==> users[i].email != user.email
    ensures UniqueEmails(users + [user]) && KnownRoles(users + [user])
    ensures forall i :: 0 <= i < |users + [user]| ==> (users + [user])[i].id == i + 1
  {
    var u := users + [user];
    assert forall i :: 0 <= i < |users| ==> u[i] == users[i];
  }

  /** Appending a provider account together with its profile keeps every
      profile tied to an account of its role and every account to a profile. */
  lemma ProviderAppended(users: seq<User>, providers: seq<Provider>, customers: seq<Customer>, user: User, profile: Provider)
    requires ProfilesBelong(users, providers, customers) && RolesHaveProfiles(users, providers, customers)
    requires forall j :: 0 <= j < |providers| ==> providers[j].id == j + 1
    requires user.role == Str("provider") && profile.id == |providers| + 1 && profile.userId == |users| + 1
    ensures ProfilesBelong(users + [user], providers + [profile], customers)
    ensures RolesHaveProfiles(users + [user], providers + [profile], customers)
    ensures forall j :: 0 <= j < |providers + [profile]| ==> (providers + [profile])[j].id == j + 1
  {
    var u, p := users + [user], providers + [profile];
    assert forall i :: 0 <= i < |users| ==> u[i] == users[i];
    assert forall j :: 0 <= j < |providers| ==> p[j] == providers[j];
    forall i | 0 <= i < |u| && u[i].role == Str("provider") ensures ProviderProfileExists(p, i + 1) {
      if i < |users| {
        var j :| 0 <= j < |providers| && providers[j].userId == i + 1;
        assert p[j].userId == i + 1;
      } else {
        assert p[|providers|].userId == i + 1;
      }
    }
    forall i | 0 <= i < |u| && u[i].role == Str("customer") ensures CustomerProfileExists(customers, i + 1) {
      assert i < |users|;
    }
  }

  /** The same for a customer account and its profile. */
  lemma CustomerAppended(users: seq<User>, providers: seq<Provider>, customers: seq<Customer>, user: User, profile: Customer)
    requires ProfilesBelong(users, providers, customers) && RolesHaveProfiles(users, providers, customers)
    requires forall j :: 0 <= j < |customers| ==> customers[j].id == j + 1
    requires user.role == Str("customer") && profile.id == |customers| + 1 && profile.userId == |users| + 1
    ensures ProfilesBelong(users + [user], providers, customers + [profile])
    ensures RolesHaveProfiles(users + [user], providers, customers + [profile])
    ensures forall j :: 0 <= j < |customers + [profile]| ==> (customers + [profile])[j].id == j + 1
  {
    var u, c := users + [user], customers + [profile];
    assert forall i :: 0 <= i < |users| ==> u[i] == users[i];
    assert forall j :: 0 <= j < |customers| ==> c[j] == customers[j];
    forall i | 0 <= i < |u| && u[i].role == Str("customer") ensures CustomerProfileExists(c, i + 1) {
      if i < |users| {
        var j :| 0 <= j < |customers| && customers[j].userId == i + 1;
        assert c[j].userId == i + 1;
      } else {
        assert c[|customers|].userId == i + 1;
      }
    }
    forall i | 0 <= i < |u| && u[i].role == Str("provider") ensures ProviderProfileExists(providers, i + 1) {
      assert i < |users|;
    }
  }

  /** A provider signup keeps the database consistent. */
  lemma SignupProviderConsistent(users: seq<User>, providers: seq<Provider>, customers: seq<Customer>,
                                 services: seq<Service>, user: User, profile: Provider)
    requires Consistent(users, providers, customers, services)
    requires user.id == |users| + 1 && user.role == Str("provider")
    requires forall i :: 0 <= i < |users| ==> users[i].email != user.email
    requires profile.id == |providers| + 1 && profile.userId == user.id
    ensures Consistent(users + [user], providers + [profile], customers, services)
  {
    AccountAppended(users, user);
    ProviderAppended(users, providers, customers, user, profile);
  }

  /** A customer signup keeps the database consistent. */
  lemma SignupCustomerConsistent(users: seq<User>, providers: seq<Provider>, customers: seq<Customer>,
                                 services: seq<Service>, user: User, profile: Customer)
    requires Consistent(users, providers, customers, services)
    requires user.id == |users| + 1 && user.role == Str("customer")
    requires forall i :: 0 <= i < |users| ==> users[i].email != user.email
    requires profile.id == |customers| + 1 && profile.userId == user.id
    ensures Consistent(users + [user], providers, customers + [profile], services)
  {
    AccountAppended(users, user);
    CustomerAppended(users, providers, customers, user, profile);
  }

  /** Replacing a provider profile by one with the same keys keeps the
      profiles keyed, tied to their accounts, and found by every account. */
  lemma ProviderReplaced(users: seq<User>, providers: seq<Provider>, customers: seq<Customer>, services: seq<Service>,
                          k: nat, q: Provider)
    requires ProfilesBelong(users, providers, customers) && RolesHaveProfiles(users, providers, customers)
    requires Keyed(users, providers, customers, services)
    requires k < |providers| && q.id == providers[k].id && q.userId == providers[k].userId
    ensures ProfilesBelong(users, providers[k := q], customers)
    ensures RolesHaveProfiles(users, providers[k := q], customers)
    ensures Keyed(users, providers[k := q], customers, services)
  {
    var p := providers[k := q];
    assert forall j :: 0 <= j < |p| ==> p[j].id == providers[j].id && p[j].userId == providers[j].userId;
    forall i | 0 <= i < |users| && users[i].role == Str("provider") ensures ProviderProfileExists(p, i + 1) {
      var j :| 0 <= j < |providers| && providers[j].userId == i + 1;
      assert p[j].userId == i + 1;
    }
  }

  /** Changing a profile's columns other than its keys keeps the database consistent. */
  lemma ProfileUpdateConsistent(users: seq<User>, providers: seq<Provider>, customers: seq<Customer>,
                                services: seq<Service>, k: nat, q: Provider)
    requires Consistent(users, providers, customers, services)
    requires k < |providers| && q.id == providers[k].id && q.userId == providers[k].userId
    ensures Consistent(users, providers[k := q], customers, services)
  {
    ProviderReplaced(users, providers, customers, services, k, q);
  }

  /** Adding a service of an existing provider keeps the database consistent. */
  lemma NewServiceConsistent(users: seq<User>, providers: seq<Provider>, customers: seq<Customer>,
                             services: seq<Service>, t: Service)
    requires Consistent(users, providers, customers, services)
    requires t.id == |services| + 1 && 1 <= t.providerId <= |providers|
    ensures Consistent(users, providers, customers, services + [t])
  {
  }

  /** Changing a service's columns other than its keys keeps the database consistent. */
  lemma ServiceUpdateConsistent(users: seq<User>, providers: seq<Provider>, customers: seq<Customer>,
                                services: seq<Service>, k: nat, t: Service)
    requires Consistent(users, providers, customers, services)
    requires k < |services| && t.id == services[k].id && t.providerId == services[k].providerId
    ensures Consistent(users, providers, customers, services[k := t])
  {
  }

  /** Unique e-mails identify a user. */
  lemma SameEmailSameUser(users: seq<User>, i: nat, k: nat)
    requires UniqueEmails(users) && i < |users| && k < |users| && users[i].email == users[k].email
    ensures i == k
  {
  }

  class Server {
    var users: seq<User>
    var providers: seq<Provider>
    var customers: seq<Customer>
    var services: seq<Service>
    var bookings: seq<Booking>

    /** An empty database. */
    constructor ()
      ensures users == [] && providers == [] && customers == [] && services == [] && bookings == []
      ensures Valid()
    {
      users, providers, customers, services := [], [], [], [];
      bookings := [];
    }

    ghost predicate Valid()
      reads this
    {
      Consistent(users, providers, customers, services)
    }

    // ------------------------------------------------------------------ login

    /** The user whose e-mail equals `email`, as `filter_by(email=...).first()`. */
    function UserByEmail(email: Value): (r: Option<nat>)
      reads this
      ensures r.Some? ==> r.value < |users| && users[r.value].email == email
      ensures r.None? ==> forall i :: 0 <= i < |users| ==> users[i].email != email
    {
      FirstWhere(users, (u: User) => u.email == email)
    }

    /** `POST /login`. */
    function Login(body: Option<map<string, Value>>): (r: Reply)
      reads this
      ensures body.None? ==> r == InternalServerError
      ensures body.Some? ==> var data := body.value;
        var username, password, role := Get(data, "username", Null), Get(data, "password", Null), Get(data, "role", Null);
        && (!Truthy(username) || !Truthy(password) || !Truthy(role) ==>
              r == Message(400, "Username, password, and role are required"))
        && (Truthy(username) && Truthy(password) && Truthy(role) ==>
              && (UserByEmail(username).None? ==> r == Message(401, "Invalid credentials"))
              && (UserByEmail(username).Some? ==> var u := users[UserByEmail(username).value];
                    && (u.password != password ==> r == Message(401, "Invalid credentials"))
                    && (u.password == password && u.role != role ==>
                          r == Message(403, "You are not registered as a " + Render(role)))
                    && (u.password == password && u.role == role ==>
                          r.status == 200 && r.body == map["message" := Str("Login successful"),
                            "token" := Str(Text.NatToString(u.id)), "role" := u.role, "user_id" := Num(u.id)])))
    {
      match body
      case None => InternalServerError
      case Some(data) =>
        var username, password, role := Get(data, "username", Null), Get(data, "password", Null), Get(data, "role", Null);
        if !Truthy(username) || !Truthy(password) || !Truthy(role) then
          Message(400, "Username, password, and role are required")
        else match UserByEmail(username)
          case None => Message(401, "Invalid credentials")
          case Some(k) =>
            var u := users[k];
            if u.password != password then Message(401, "Invalid credentials")
            else if u.role != role then Message(403, "You are not registered as a " + Render(role))
            else Reply(200, map["message" := Str("Login successful"),
              "token" := Str(Text.NatToString(u.id)), "role" := u.role, "user_id" := Num(u.id)])
    }

    /** With unique e-mails, a login succeeds exactly when some user has the
        given e-mail, password and role; both wrong-e-mail and wrong-password
        failures give the same reply. */
    lemma LoginSucceedsIff(data: map<string, Value>)
      requires Valid()
      requires Truthy(Get(data, "username", Null)) && Truthy(Get(data, "password", Null)) && Truthy(Get(data, "role", Null))
      ensures Login(Some(data)).status == 200 <==>
        exists i :: 0 <= i < |users| && users[i].email == data["username"]
          && users[i].password == data["password"] && users[i].role == data["role"]
      ensures Login(Some(data)).status == 401 ==> Login(Some(data)) == Message(401, "Invalid credentials")
    {
      var username := data["username"];
      match UserByEmail(username)
      case None =>
      case Some(k) =>
        forall i | 0 <= i < |users| && users[i].email == username ensures i == k {
          SameEmailSameUser(users, i, k);
        }
    }

    /** The token a successful login hands out names the user: the provider
        gate admits it exactly when the account is a provider's, the
        customer gate exactly when it is a customer's. */
    lemma LoginTokenPassesGates(data: map<string, Value>)
      requires Valid()
      requires Login(Some(data)).status == 200
      ensures var token := Login(Some(data)).body["token"].s; var k := UserByEmail(data["username"]).value;
        && Text.ParseNat(token) == Some(users[k].id)
        && (RequireRole(users, token, "provider").Proceed? <==> users[k].role == Str("provider"))
        && (RequireRole(users, token, "customer").Proceed? <==> users[k].role == Str("customer"))
        && (RequireRole(users, token, "provider").Proceed? ==> RequireRole(users, token, "provider").user == users[k])
    {
      var k := UserByEmail(data["username"]).value;
      Text.ParseNatToString(users[k].id);
      FoundById(k);
    }

    /** Primary keys are positions, so the lookup by key finds that row. */
    lemma FoundById(k: nat)
      requires Valid() && k < |users|
      ensures FindUser(users, users[k].id) == Some(users[k])
    {
      var id := users[k].id;
      var r := FirstWhere(users, (u: User) => u.id == id);
      assert r.Some? by { assert users[k].id == id; }
    }

    // ----------------------------------------------------------------- signup

    /** `POST /signup`. */
    method Signup(body: Option<map<string, Value>>) returns (r: Reply)
      requires Valid()
      modifies this
      ensures Valid()
      ensures var data := body.GetOr(map[]);
        && (SignupBodyError(data).Some? ==> r == SignupBodyError(data).value)
        && (SignupBodyError(data).None? && old(UserByEmail(data["email"])).Some? ==>
              r == Message(400, "Email already exists"))
        && (r.status == 201 <==> SignupBodyError(data).None? && old(UserByEmail(data["email"])).None?)
      ensures r.status != 201 ==> users == old(users) && providers == old(providers) && customers == old(customers)
      ensures r.status == 201 ==> var data := body.GetOr(map[]); var uid := |old(users)| + 1;
        && r == Message(201, "User created successfully!")
        && users == old(users) + [NewUser(uid, data["full_name"], data["email"], data["password"], data["role"])]
        && (data["role"] == Str("provider") ==>
              providers == old(providers) + [NewProviderProfile(|old(providers)| + 1, uid, data)]
              && customers == old(customers))
        && (data["role"] == Str("customer") ==>
              customers == old(customers) + [Customer(|old(customers)| + 1, uid, data["full_name"])]
              && providers == old(providers))
      ensures services == old(services) && bookings == old(bookings)
    {
      var data := body.GetOr(map[]);
      var error := SignupBodyError(data);
      if error.Some? {
        return error.value;
      }
      if UserByEmail(data["email"]).Some? {
        return Message(400, "Email already exists");
      }
      AddAccount(data);
      r := Message(201, "User created successfully!");
    }

    /** The rows a successful signup adds in one transaction: the account,
        then the profile its role names. */
    method AddAccount(data: map<string, Value>)
      requires Valid() && SignupBodyError(data).None? && UserByEmail(data["email"]).None?
      modifies this
      ensures Valid()
      ensures var uid := |old(users)| + 1;
        && users == old(users) + [NewUser(uid, data["full_name"], data["email"], data["password"], data["role"])]
        && (data["role"] == Str("provider") ==>
              providers == old(providers) + [NewProviderProfile(|old(providers)| + 1, uid, data)]
              && customers == old(customers))
        && (data["role"] == Str("customer") ==>
              customers == old(customers) + [Customer(|old(customers)| + 1, uid, data["full_name"])]
              && providers == old(providers))
      ensures services == old(services) && bookings == old(bookings)
    {
      var uid := |users| + 1;
      var user := NewUser(uid, data["full_name"], data["email"], data["password"], data["role"]);
      if data["role"] == Str("provider") {
        var profile := NewProviderProfile(|providers| + 1, uid, data);
        SignupProviderConsistent(users, providers, customers, services, user, profile);
        users, providers := users + [user], providers + [profile];
      } else {
        var profile := Customer(|customers| + 1, uid, user.fullName);
        SignupCustomerConsistent(users, providers, customers, services, user, profile);
        users, customers := users + [user], customers + [profile];
      }
    }

    // ------------------------------------------------------ provider profile

    /** `get_current_provider`: the profile whose `user_id` is the token's identity. */
    function CurrentProvider(identity: string): (l: Lookup)
      reads this
      ensures l.Found? ==> l.index < |providers| && Text.ParseNat(identity) == Some(providers[l.index].userId)
      ensures l.NotFoundPair? && Text.ParseNat(identity).Some? ==>
        forall j :: 0 <= j < |providers| ==> providers[j].userId != Text.ParseNat(identity).value
    {
      match Text.ParseNat(identity)
      case None => NotFoundPair
      case Some(id) =>
        match FirstWhere(providers, (p: Provider) => p.userId == id)
        case None => NotFoundPair
        case Some(k) => Found(k)
    }

    /** The unfired `if not provider` checks cannot matter on a valid
        database: an identity the provider gate admits always has a profile. */
    lemma GateImpliesProfile(identity: string)
      requires Valid() && RequireRole(users, identity, "provider").Proceed?
      ensures CurrentProvider(identity).Found?
    {
      var id := Text.ParseNat(identity).value;
      var k := FirstWhere(users, (u: User) => u.id == id).value;
      assert users[k].id == id && users[k].role == Str("provider");
      assert ProviderProfileExists(providers, k + 1);
      var j :| 0 <= j < |providers| && providers[j].userId == k + 1;
      assert FirstWhere(providers, (p: Provider) => p.userId == id).Some? by {
        assert providers[j].userId == id;
      }
    }

    /** `PUT /provider/profile`. */
    method UpdateProviderProfile(identity: string, body: Option<map<string, Value>>) returns (r: Reply)
      modifies this
      ensures old(Valid()) ==> Valid()
      ensures users == old(users) && customers == old(customers) && services == old(services) && bookings == old(bookings)
      ensures old(RequireRole(users, identity, "provider")).Refused? ==>
        r == old(RequireRole(users, identity, "provider")).reply && providers == old(providers)
      ensures old(RequireRole(users, identity, "provider")).Proceed? && old(CurrentProvider(identity)).NotFoundPair? ==>
        r == InternalServerError && providers == old(providers)
      ensures old(RequireRole(users, identity, "provider")).Proceed? && old(CurrentProvider(identity)).Found? ==>
        var k := old(CurrentProvider(identity)).index;
        && r == Message(200, "Profile updated successfully")
        && providers == old(providers)[k := UpdatedProfile(old(providers)[k], body.GetOr(map[]))]
    {
      var gate := RequireRole(users, identity, "provider");
      if gate.Refused? {
        return gate.reply;
      }
      var found := CurrentProvider(identity);
      if found.NotFoundPair? {
        // `provider.name` on the returned pair raises AttributeError.
        return InternalServerError;
      }
      var k := found.index;
      var data := body.GetOr(map[]);
      ReplaceProvider(k, UpdatedProfile(providers[k], data));
      r := Message(200, "Profile updated successfully");
    }

    /** The committed row update: profile `k` becomes `q`, whose keys are its own. */
    method ReplaceProvider(k: nat, q: Provider)
      requires k < |providers| && q.id == providers[k].id && q.userId == providers[k].userId
      modifies this
      ensures old(Valid()) ==> Valid()
      ensures providers == old(providers)[k := q]
      ensures users == old(users) && customers == old(customers) && services == old(services) && bookings == old(bookings)
    {
      if Valid() {
        ProfileUpdateConsistent(users, providers, customers, services, k, q);
      }
      providers := providers[k := q];
    }

    // --------------------------------------------------------------- services

    /** `POST /provider/services`. */
    method CreateService(identity: string, body: Option<map<string, Value>>) returns (r: Reply)
      modifies this
      ensures old(Valid()) ==> Valid()
      ensures users == old(users) && providers == old(providers) && customers == old(customers) && bookings == old(bookings)
      ensures r.status != 201 ==> services == old(services)
      ensures old(RequireRole(users, identity, "provider")).Refused? ==> r == old(RequireRole(users, identity, "provider")).reply
      ensures old(RequireRole(users, identity, "provider")).Proceed? ==>
        var k := old(CurrentProvider(identity));
        && (k.NotFoundPair? ==> r == Message(404, "Provider profile not found"))
        && (k.Found? && body.None? ==> r == InternalServerError)
        && (k.Found? && body.Some? && ServiceBodyError(body.value).Some? ==> r == ServiceBodyError(body.value).value)
        && (k.Found? && body.Some? && ServiceBodyError(body.value).None? ==>
              && r == Message(201, "Service created successfully")
              && services == old(services) + [NewService(|old(services)| + 1, old(providers)[k.index].id, body.value)])
    {
      var gate := RequireRole(users, identity, "provider");
      if gate.Refused? {
        return gate.reply;
      }
      var found := CurrentProvider(identity);
      if found.NotFoundPair? {
        return Message(404, "Provider profile not found");
      }
      if body.None? {
        // `field not in None` raises TypeError.
        return InternalServerError;
      }
      var data := body.value;
      var error := ServiceBodyError(data);
      if error.Some? {
        return error.value;
      }
      var service := NewService(|services| + 1, providers[found.index].id, data);
      if Valid() {
        NewServiceConsistent(users, providers, customers, services, service);
      }
      services := services + [service];
      r := Message(201, "Service created successfully");
    }

    /** `PUT /provider/services/<service_id>`. */
    method UpdateService(identity: string, serviceId: nat, body: Option<map<string, Value>>) returns (r: Reply)
      modifies this
      ensures old(Valid()) ==> Valid()
      ensures users == old(users) && providers == old(providers) && customers == old(customers) && bookings == old(bookings)
      ensures r.status != 200 ==> services == old(services)
      ensures old(RequireRole(users, identity, "provider")).Refused? ==> r == old(RequireRole(users, identity, "provider")).reply
      ensures old(RequireRole(users, identity, "provider")).Proceed? && old(CurrentProvider(identity)).NotFoundPair? ==>
        r == InternalServerError
      ensures old(RequireRole(users, identity, "provider")).Proceed? && old(CurrentProvider(identity)).Found? ==>
        var pid := old(providers)[old(CurrentProvider(identity)).index].id;
        var s := FirstWhere(old(services), (x: Service) => x.id == serviceId && x.providerId == pid);
        && (s.None? ==> r == Message(404, "Service not found"))
        && (s.Some? ==>
              r == Message(200, "Service updated successfully") &&
              services == old(services)[s.value := ApplyFields(old(services)[s.value], body.GetOr(map[]), ServiceFields)])
    {
      var gate := RequireRole(users, identity, "provider");
      if gate.Refused? {
        return gate.reply;
      }
      var found := CurrentProvider(identity);
      if found.NotFoundPair? {
        return InternalServerError;
      }
      var pid := providers[found.index].id;
      var sk := FirstWhere(services, (x: Service) => x.id == serviceId && x.providerId == pid);
      if sk.None? {
        return Message(404, "Service not found");
      }
      var k := sk.value;
      var data := body.GetOr(map[]);
      var service := UpdateFields(services[k], data);
      ApplyServiceFields(services[k], data);
      if Valid() {
        ServiceUpdateConsistent(users, providers, customers, services, k, service);
      }
      services := services[k := service];
      r := Message(200, "Service updated successfully");
    }

    // --------------------------------------------------------------- bookings

    /** `PUT /provider/bookings/<booking_id>/status`; `now` is `datetime.utcnow()`. */
    method UpdateBookingStatus(identity: string, bookingId: nat, body: Option<map<string, Value>>, now: int)
      returns (r: Reply)
      modifies this
      ensures old(Valid()) ==> Valid()
      ensures users == old(users) && providers == old(providers) && customers == old(customers) && services == old(services)
      ensures r.status != 200 ==> bookings == old(bookings)
      ensures old(RequireRole(users, identity, "provider")).Refused? ==> r == old(RequireRole(users, identity, "provider")).reply
      ensures old(RequireRole(users, identity, "provider")).Proceed? && old(CurrentProvider(identity)).NotFoundPair? ==>
        r == InternalServerError
      ensures old(RequireRole(users, identity, "provider")).Proceed? && old(CurrentProvider(identity)).Found? ==>
        var pid := old(providers)[old(CurrentProvider(identity)).index].id;
        var b := FirstWhere(old(bookings), (x: Booking) => x.id == bookingId && x.providerId == pid);
        var status := Get(body.GetOr(map[]), "status", Null);
        && (b.None? ==> r == Message(404, "Booking not found"))
        && (b.Some? && !OneOf(status, BookingStatuses) ==> r == Message(400, "Invalid status"))
        && (b.Some? && OneOf(status, BookingStatuses) ==>
              && r == Message(200, "Booking status updated successfully")
              && bookings == old(bookings)[b.value := old(bookings)[b.value].(status := status.s, updatedAt := now)])
    {
      var gate := RequireRole(users, identity, "provider");
      if gate.Refused? {
        return gate.reply;
      }
      var found := CurrentProvider(identity);
      if found.NotFoundPair? {
        return InternalServerError;
      }
      var pid := providers[found.index].id;
      var bk := FirstWhere(bookings, (x: Booking) => x.id == bookingId && x.providerId == pid);
      if bk.None? {
        return Message(404, "Booking not found");
      }
      var status := Get(body.GetOr(map[]), "status", Null);
      if !OneOf(status, BookingStatuses) {
        return Message(400, "Invalid status");
      }
      bookings := bookings[bk.value := bookings[bk.value].(status := status.s, updatedAt := now)];
      r := Message(200, "Booking status updated successfully");
    }


    /** `GET /provider/bookings?status=...`: this provider's bookings, of the
        requested status when one is given, newest first. */
    function ProviderBookings(identity: string, status: Option<string>): (a: Answer<seq<Booking>>)
      reads this
      ensures RequireRole(users, identity, "provider").Refused? ==> a == Denied(RequireRole(users, identity, "provider").reply)
      ensures RequireRole(users, identity, "provider").Proceed? ==>
        (a.Denied? <==> CurrentProvider(identity).NotFoundPair?) && (a.Denied? ==> a.reply == InternalServerError)
      ensures a.Answered? ==> forall x :: x in a.value ==> x in bookings
    {
      match RequireRole(users, identity, "provider")
      case Refused(reply) => Denied(reply)
      case Proceed(_) =>
        match CurrentProvider(identity)
        case NotFoundPair => Denied(InternalServerError)
        case Found(k) =>
          BookingListingSpec(bookings, providers[k].id, status);
          Answered(BookingListing(bookings, providers[k].id, status))
    }

    /** The listing holds exactly this provider's bookings of the requested
        status (all of them without one), ordered by date and then time, newest first. */
    lemma ProviderBookingsSpec(identity: string, status: Option<string>)
      requires Valid() && RequireRole(users, identity, "provider").Proceed?
      ensures ProviderBookings(identity, status).Answered?
      ensures var rows := ProviderBookings(identity, status).value;
        var pid := providers[CurrentProvider(identity).index].id;
        && (forall x :: multiset(rows)[x] ==
              if x.providerId == pid && (status.None? || status.value == "" || x.status == status.value)
              then multiset(bookings)[x] else 0)
        && (forall i, j :: 0 <= i < j < |rows| ==>
              rows[i].bookingDate > rows[j].bookingDate
              || (rows[i].bookingDate == rows[j].bookingDate && rows[i].bookingTime >= rows[j].bookingTime))
    {
      GateImpliesProfile(identity);
      BookingListingSpec(bookings, providers[CurrentProvider(identity).index].id, status);
    }

    // --------------------------------------------------------------- earnings

    /** `GET /provider/earnings` on the day `today`. */
    function ProviderEarnings(identity: string, today: Calendar.Date): (a: Answer<Earnings>)
      requires Calendar.Valid(today)
      reads this
      ensures RequireRole(users, identity, "provider").Refused? ==> a == Denied(RequireRole(users, identity, "provider").reply)
      ensures RequireRole(users, identity, "provider").Proceed? ==>
        (a.Denied? <==> CurrentProvider(identity).NotFoundPair?) && (a.Denied? ==> a.reply == InternalServerError)
      ensures a.Answered? ==> |a.value.recent| <= 10 && forall x :: x in a.value.recent ==> x in bookings && x.status == "completed"
    {
      match RequireRole(users, identity, "provider")
      case Refused(reply) => Denied(reply)
      case Proceed(_) =>
        match CurrentProvider(identity)
        case NotFoundPair => Denied(InternalServerError)
        case Found(k) =>
          LatestSpec(bookings, providers[k].id);
          var done := Filter(bookings, CompletedFor(providers[k].id));
          var day := Calendar.Ordinal(today);
          Answered(Earnings(
            SumPrices(Filter(done, OnDay(day))),
            SumPrices(Filter(done, OnOrAfter(Calendar.WeekStart(today)))),
            SumPrices(Filter(done, OnOrAfter(Calendar.Ordinal(Calendar.MonthStart(today))))),
            SumPrices(done),
            Latest(done)))
    }

    /** The four sums cover nested windows of this provider's completed
        bookings: today within the week, each within the total, and the
        week and month windows nested according to which starts later. */
    lemma EarningsWindows(identity: string, today: Calendar.Date)
      requires Valid() && Calendar.Valid(today) && RequireRole(users, identity, "provider").Proceed?
      ensures ProviderEarnings(identity, today).Answered?
      ensures var e := ProviderEarnings(identity, today).value;
        && e.today <= e.week <= e.total
        && e.today <= e.month <= e.total
        && (Calendar.WeekStart(today) >= Calendar.Ordinal(Calendar.MonthStart(today)) ==> e.week <= e.month)
        && (Calendar.WeekStart(today) <= Calendar.Ordinal(Calendar.MonthStart(today)) ==> e.month <= e.week)
    {
      GateImpliesProfile(identity);
      var done := Filter(bookings, CompletedFor(providers[CurrentProvider(identity).index].id));
      var day := Calendar.Ordinal(today);
      var ws := Calendar.WeekStart(today);
      var ms := Calendar.Ordinal(Calendar.MonthStart(today));
      Calendar.WeekStartIsMonday(today);
      Calendar.MonthStartIsFirst(today);
      SumNarrower(done, OnDay(day), OnOrAfter(ws));
      SumNarrower(done, OnDay(day), OnOrAfter(ms));
      SumSelection(done, OnOrAfter(ws));
      SumSelection(done, OnOrAfter(ms));
      if ws >= ms {
        SumNarrower(done, OnOrAfter(ws), OnOrAfter(ms));
      }
      if ws <= ms {
        SumNarrower(done, OnOrAfter(ms), OnOrAfter(ws));
      }
    }

    /** The recent transactions are this provider's completed bookings cut
        to the latest ten (see `LatestSpec`). */
    lemma EarningsRecent(identity: string, today: Calendar.Date)
      requires Valid() && Calendar.Valid(today) && RequireRole(users, identity, "provider").Proceed?
      ensures ProviderEarnings(identity, today).Answered?
      ensures var recent := ProviderEarnings(identity, today).value.recent;
        var pid := providers[CurrentProvider(identity).index].id;
        var done := Filter(bookings, CompletedFor(pid));
        && (forall x :: multiset(done)[x] ==
              if x.providerId == pid && x.status == "completed" then multiset(bookings)[x] else 0)
        && |recent| == (if |done| < 10 then |done| else 10)
        && multiset(recent) <= multiset(done)
        && (forall i :: 0 <= i < |recent| ==> recent[i] in bookings && recent[i].providerId == pid && recent[i].status == "completed")
        && (forall i, j :: 0 <= i < j < |recent| ==> recent[i].bookingDate >= recent[j].bookingDate)
        && (forall x, i :: x in multiset(done) - multiset(recent) && 0 <= i < |recent| ==>
              x.bookingDate <= recent[i].bookingDate)
    {
      GateImpliesProfile(identity);
      var pid := providers[CurrentProvider(identity).index].id;
      LatestSpec(bookings, pid);
    }

    // -------------------------------------------------------------- catalogue

    /** `filter_by(is_active=True)` and, for a non-empty category, `filter_by(category=...)`. */
    function Visible(category: Option<string>): Service -> bool
    {
      (s: Service) => s.isActive == Bool(true) && (category.None? || category.value == "" || s.category == Str(category.value))
    }

    /** `GET /services?category=...`: the visible services in table order,
        each with the public details of the provider row it references and
        that provider's account e-mail. */
    method AllServices(category: Option<string>) returns (results: seq<CatalogueEntry>)
      requires Valid()
      ensures |results| == |Filter(services, Visible(category))|
      ensures forall k :: 0 <= k < |results| ==>
        var s := Filter(services, Visible(category))[k];
        && s in services && Visible(category)(s)
        && 1 <= s.providerId <= |providers|
        && var p := providers[s.providerId - 1];
        && p.id == s.providerId && 1 <= p.userId <= |users| && users[p.userId - 1].id == p.userId
        && results[k] == CatalogueEntry(s, ProviderCard(
             p.id, p.name, p.businessName, p.phone, users[p.userId - 1].email, p.city, p.state, p.rating))
    {
      var listed := Filter(services, Visible(category));
      results := [];
      for i := 0 to |listed|
        invariant |results| == i
        invariant forall k :: 0 <= k < i ==>
          listed[k] in services && Visible(category)(listed[k]) && 1 <= listed[k].providerId <= |providers|
          && results[k] == Entry(listed[k])
      {
        FilterMember(services, Visible(category), i);
        var service := listed[i];
        var p := providers[service.providerId - 1];
        var card := ProviderCard(p.id, p.name, p.businessName, p.phone, users[p.userId - 1].email, p.city, p.state, p.rating);
        results := results + [CatalogueEntry(service, card)];
      }
    }

    /** The entry of a service whose provider row exists. */
    ghost function Entry(s: Service): CatalogueEntry
      requires Valid() && 1 <= s.providerId <= |providers|
      reads this
    {
      var p := providers[s.providerId - 1];
      CatalogueEntry(s, ProviderCard(p.id, p.name, p.businessName, p.phone, users[p.userId - 1].email, p.city, p.state, p.rating))
    }
  }
}
