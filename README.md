# Marketplace core in Dafny

This project models the decision logic of a small services marketplace.
Customers book pet, beauty, vehicle and home-care providers; providers manage
their profile, their services and their bookings. The model covers:

- the Flask API: login, signup, the provider and customer role gates, profile
  and service updates, booking status changes, the earnings report, the public
  catalogue, the `APIException` helper and the sitemap;
- the user model;
- the SMS service's phone normalisation and message templates;
- the React front end: the category filter and sort pipelines of the catalogue
  pages, the customer and provider dashboards, the global store reducer, the
  chat modal and the nearby-search panel.

## Layout

Each module follows one source file or a group of them.

- The server is modelled as a class, `Routes.Server`. Its database tables are
  sequence fields, and row `i` of each table has primary key `i + 1`.
- Each handler that writes is a method that returns the reply and updates
  the tables as the committed transaction would. Its `ensures` states the
  reply and the new tables for every branch.
- The read-only handlers (`ProviderBookings`, `ProviderEarnings`) are
  functions. Their contracts give the refusal branches; lemmas beside them
  state what the answered branch lists.
- `Routes.Consistent` is the integrity invariant: primary keys, unique
  e-mails, known roles, one profile per account and services owned by a
  provider. Every writing handler is proved to preserve it. The provider
  handlers do not require it, so their contracts also cover tables where it
  fails.
- Pure code becomes functions with lemmas: the filters, the badge tables, the
  reducer and the phone normalisation.
- Code that changes state step by step becomes classes with methods, each
  proved against its full new state: the provider dashboard, the chat modal
  and the search panel. The customer dashboard's logic is pure and is
  modelled as functions.

Shared modules:

- `Seqs`: order-preserving filtering.
- `Sorting`: a stable insertion sort, `SortBy`, standing for
  `Array.prototype.sort` and SQL `ORDER BY`. It comes with an in-place array
  version that is proved equal to it.
- `Text`: ASCII case mapping, substring search, `trim`, `join`, a
  lexicographic order, and decimal `str`/`int`.
- `Json`: request and response values.
- `Calendar`: proleptic Gregorian dates for the earnings window.

Two places where the code does not do what its callers expect:

- `get_current_provider` (src/api/routes.py:97-105) returns the truthy tuple
  `(response, 404)` when the account has no provider profile. The callers'
  `if not provider` tests therefore never fire. The model follows what runs
  next:
  - `update_provider_profile`, `update_service`, `get_provider_bookings`,
    `update_booking_status` and `get_earnings` read an attribute of the tuple,
    which raises `AttributeError` and gives a 500 reply
    (`Routes.Lookup.NotFoundPair`).
  - `create_service` does its own query, so its 404 reply does fire.
  - `Routes.Server.GateImpliesProfile` proves that on a consistent database
    the provider gate only admits accounts that have a profile. The 500 path
    is reached only when the tables are inconsistent, for instance after a
    profile row was removed outside the API. The handlers' contracts state
    that reply for such tables too.
- `update_booking_status` only accepts a status that is a string among the
  four names. A non-string value is rejected as Python's `in` rejects it.

## Model

| member | source | states |
|---|---|---|
| Routes.Server.Login | src/api/routes.py:24-52 | The checks run in a fixed order: a missing or falsy username, password or role gives 400. An unknown e-mail gives 401 "Invalid credentials". A wrong password gives the same 401. A role mismatch gives 403 naming the role asked for. Otherwise the reply is 200 with the token `str(user.id)`, the user's role and id. A JSON `null` body gives 500. |
| Routes.Server.LoginSucceedsIff | src/api/routes.py:32-42 | With unique e-mails, a complete login succeeds exactly when some user has that e-mail, password and role, and every 401 reply is the same "Invalid credentials" message. |
| Routes.Server.LoginTokenPassesGates | src/api/routes.py:44-52 | The token of a successful login reads back (`int`) as the user's id. The provider gate admits it exactly when the account is a provider's, and the customer gate exactly when it is a customer's. |
| Routes.Server.UserByEmail | src/api/routes.py:32 | `filter_by(email=...).first()` finds a user with that e-mail, or there is none. |
| Routes.Server.FoundById | src/api/utils.py:66 | Looking up a user by primary key finds that user. |
| Routes.SameEmailSameUser | src/api/models.py:10 | Under the unique constraint, two rows with the same e-mail are the same row. |
| Routes.Server.Signup | src/api/routes.py:55-95 | The body checks come first, then an existing e-mail gives 400 "Email already exists". None of these errors changes any table. Success gives 201 and adds exactly one active user and exactly one profile of the kind the role names. A JSON `null` body counts as `{}`. The database stays consistent. |
| Routes.SignupBodyError | src/api/routes.py:59-65 | The body passes exactly when all four fields are present and truthy and the role is customer or provider. A missing or falsy field gives 400 "All fields are required", whatever the role. Any other error is the 400 role message. |
| Routes.NewProviderProfile | src/api/routes.py:82-86 | The provider profile created at signup takes the account's name. Its business name is `business_name` when given and the full name otherwise. Every other column is empty. |
| Routes.Server.AddAccount | src/api/routes.py:70-93 | The transaction appends the user with the next id, then the profile of its role with the next profile id, and keeps the database consistent. |
| Routes.SignupProviderConsistent | src/api/routes.py:70-86 | Adding a new provider account together with its profile keeps every integrity condition. |
| Routes.SignupCustomerConsistent | src/api/routes.py:70-91 | Adding a new customer account together with its profile keeps every integrity condition. |
| Routes.Server.CurrentProvider | src/api/routes.py:97-105 | The lookup finds the profile whose `user_id` is the identity, or reports the not-found pair when there is none. |
| Routes.Server.GateImpliesProfile | src/api/routes.py:97-105 | On a consistent database, an identity the provider gate admits always has a profile, so the not-found branch is unreachable. |
| Routes.Server.UpdateProviderProfile | src/api/routes.py:121-145 | A refused gate returns the gate's reply. A provider account without a profile row gives 500 and nothing changes. Otherwise the reply is 200 and only that profile row changes, to `UpdatedProfile` of the body (an absent body counts as `{}`). Consistent tables stay consistent. |
| Routes.Server.ReplaceProvider | src/api/routes.py:131-140 | Committing a changed profile replaces exactly that row, and consistent tables stay consistent. |
| Routes.UpdatedProfile | src/api/routes.py:129-138 | Each profile column takes the body's value under its key (camelCase `businessName`, `zipCode`) and keeps its old value when the key is absent. The id, owner and rating never change. |
| Routes.EmptyProfileUpdate | src/api/routes.py:129-138 | An empty body leaves the profile unchanged. |
| Routes.ProfileUpdateConsistent | src/api/routes.py:131-140 | Changing profile columns other than the keys keeps the database consistent. |
| Routes.FirstMissing | src/api/routes.py:172-175 | It returns the first required field (name, category, price, in that order) absent from the body, and none only when all are present. |
| Routes.Server.CreateService | src/api/routes.py:159-197 | Errors, in order: a refused gate; 404 without a profile; 500 for a `null` body; then the body checks. Only on success does the reply become 201, and exactly one service is appended: `NewService` of the body, owned by this provider, with the next id. Every error leaves the tables unchanged. |
| Routes.ServiceBodyError | src/api/routes.py:172-179 | The body passes exactly when name, category and price are keys and the category is pets, beauty, vehicles or home. A missing field gives 400 naming the first one missing (name, category, price, in that order). A present but unlisted category gives 400 "Invalid category". |
| Routes.NewService | src/api/routes.py:181-189 | The new service takes name, category and price from the body. Its description defaults to '', its duration to none, and its active flag to true from `isActive`. |
| Routes.NewServiceConsistent | src/api/routes.py:181-192 | Appending a service owned by an existing provider keeps the database consistent. |
| Routes.ApplyFieldsSnoc | src/api/routes.py:214-216 | One more iteration of the update loop sets that field when the body holds it. |
| Routes.ApplyServiceFields | src/api/routes.py:214-216 | After the loop, each of the six listed columns holds the body's value when present and its old value otherwise. Id and owner never change, and other keys, such as `isActive`, are ignored. |
| Routes.UpdateFields | src/api/routes.py:214-216 | The `setattr` loop computes the service after visiting the six fields in order. |
| Routes.Server.UpdateService | src/api/routes.py:200-223 | A refused gate returns its reply. A provider account without a profile row gives 500. A service that is not this provider's gives 404, and nothing changes. Otherwise the reply is 200 and only that service row changes, to the looped update. Consistent tables stay consistent. |
| Routes.ServiceUpdateConsistent | src/api/routes.py:214-218 | Changing service columns other than the keys keeps the database consistent. |
| Routes.Server.UpdateBookingStatus | src/api/routes.py:280-306 | A booking of another provider gives 404. A status outside pending/confirmed/completed/cancelled gives 400. Neither changes the booking. Any valid status is accepted from any current status. On success only that booking changes, and only its status and `updated_at`. |
| Routes.BookingOrdersArePreorders | src/api/routes.py:256-259 | Newest-first by date and then time, and latest-date-first, are total preorders. |
| Routes.Server.ProviderBookingsSpec | src/api/routes.py:243-262 | On consistent tables an admitted provider gets the listing. It holds exactly this provider's bookings, of the requested status when one is given (all of them for none or ''). Each booking appears as often as in the table. The list is ordered by date and then time, newest first. |
| Routes.Server.ProviderBookings | src/api/routes.py:243-262 | A refused gate answers with the gate's reply. An admitted account is refused exactly when it has no profile row, and then with 500. Every listed booking is a row of the table. |
| Routes.BookingListingSpec | src/api/routes.py:248-260 | For any table, the listing holds each of the provider's bookings of the status as often as the table does and nothing else, newest first. |
| Routes.Server.EarningsWindows | src/api/routes.py:316-330 | The sums cover nested windows of this provider's completed bookings: today's sum is at most the week's and the month's, which are at most the total, and the week and month sums are ordered by which window starts later. |
| Routes.Server.EarningsRecent | src/api/routes.py:332-334 | On consistent tables the recent transactions are this provider's completed bookings cut to the latest ten. There are ten unless the provider has fewer, each drawn from the table, latest date first, and no completed booking left out is dated after one that is shown. |
| Routes.Server.ProviderEarnings | src/api/routes.py:308-342 | A refused gate answers with the gate's reply. An admitted account is refused exactly when it has no profile row, and then with 500. The recent list holds at most ten completed bookings of the table. |
| Routes.LatestSpec | src/api/routes.py:332-334 | For any table, the recent list is ten of the provider's completed bookings, or all of them when there are fewer. Each is drawn from the table, latest date first, and no completed booking of the provider left out is dated after one that is shown. |
| Routes.LatestTop | src/api/routes.py:332-334 | `order_by(booking_date.desc()).limit(10)` keeps min(10, n) of the n rows, drawn from them, latest date first, and every row it drops is dated no later than every row it keeps. |
| Routes.SumNarrower | src/api/routes.py:320-330 | Summing `total_price` over a narrower filter gives no more. |
| Routes.SumSelection | src/api/routes.py:320-330 | Summing over a filter gives no more than the total. |
| Routes.SumStep | src/api/routes.py:320-325 | A filtered sum counts the first row exactly when that row passes the filter. |
| Routes.Server.AllServices | src/api/routes.py:344-370 | The loop returns, in table order, one entry per active service (of the category, when one is given). Each entry is that service with the id, name, business name, phone, city, state and rating of the provider row it references, and that provider's account e-mail. |
| Calendar.WeekStartIsMonday | src/api/routes.py:317 | `today - weekday()` is a Monday at most six days back. |
| Calendar.MonthStartIsFirst | src/api/routes.py:318 | `today.replace(day=1)` is a valid date, day 1 of the same month, `day - 1` days back. |
| Calendar.OrdinalOrder | src/api/routes.py:327-329 | Comparing dates compares their day numbers, in both directions, equality included. |
| Models.NewUser | src/api/models.py:8-13 | A new user keeps the given columns, and `is_active` defaults to true. |
| Models.Serialize | src/api/models.py:15-22 | The dictionary has exactly the keys id, full_name, email and role, with the user's values, and holds neither password nor is_active. |
| Json.Get | src/api/routes.py:26-28 | `dict.get(key, default)` returns the stored value when the key is present and the default otherwise. |
| Utils.ApiException.constructor | src/api/utils.py:6-14 | The status is 400 unless one is given; the message and payload are stored. |
| Utils.ApiException.ToDict | src/api/utils.py:16-19 | The dictionary holds every payload entry plus 'message', and the message overrides any payload 'message'. |
| Utils.ToDictWithoutPayload | src/api/utils.py:16-19 | Without a payload, the dictionary is exactly `{'message': message}`. |
| Utils.HasNoEmptyParamsIff | src/api/utils.py:21-24 | Where every default names an argument, `len(defaults) >= len(arguments)` holds exactly when every argument has a default. Absent collections count as empty. |
| Utils.SitemapLinks | src/api/utils.py:26-32 | The loop builds the link list `Sitemap(rules)`. |
| Utils.Sitemap | src/api/utils.py:26-32 | The sitemap starts with '/admin/' and then has exactly one link per selected rule. |
| Utils.SitemapSpec | src/api/utils.py:27-32 | The first link is '/admin/'. Every later link is the URL of a GET rule with no empty parameters that lacks '/admin/'. Every such rule's URL is listed. |
| Utils.SitemapSound | src/api/utils.py:28-32 | The links after the first are the URLs of the selected rules, in rule order. |
| Utils.SitemapComplete | src/api/utils.py:28-32 | Every selected rule's URL is among the links. |
| Utils.RequireRole | src/api/utils.py:59-89 | The gate admits exactly an existing user whose role is the required one, and admits that user. Otherwise it replies 403 "Provider access required" or "Customer access required". An identity `int` cannot read gives 500. |
| Sms.NormalizePhone | src/api/sms_service.py:34-35 | A number starting with '+' is unchanged. Any other number becomes '+1' followed by the input with every '-', ' ', '(' and ')' removed and every other character kept, in order and with its count. The result always starts with '+'. |
| Sms.NormalizeIdempotent | src/api/sms_service.py:34-35 | Normalising twice is normalising once. |
| Sms.NormalizePlainNumber | src/api/sms_service.py:35 | A bare number without punctuation only gains the '+1' prefix. |
| Sms.BookingConfirmation | src/api/sms_service.py:55-70 | The confirmation goes to the normalised customer number, starts with its fixed header, and contains the provider's name, phone and e-mail. |
| Sms.BookingNotification | src/api/sms_service.py:72-87 | The notification goes to the normalised provider number, starts with its fixed header, and contains the customer's name and address and the service booked. |
| Sms.TemplatesDiffer | src/api/sms_service.py:68-85 | A confirmation can never read like a notification. |
| Store.Initial | src/front/store.js:1-8 | token null, isLoginSuccessful false, message '', isSignUpSuccessful false, and nothing else. |
| Store.FetchedTokenSets | src/front/store.js:12-20 | 'fetchedToken' sets token and isLoginSuccessful from the payload and keeps every other entry. |
| Store.LoginKeepsSignupState | src/front/store.js:15-20 | From the initial store, message and isSignUpSuccessful survive a login, and no entry is added. |
| Store.ReduceIdempotent | src/front/store.js:15-20 | Dispatching the same successful action twice equals dispatching it once. |
| Store.ReduceOutcomes | src/front/store.js:10-24 | Any type other than 'fetchedToken' throws 'Unknown action.'. The reducer succeeds exactly on a 'fetchedToken' action with a payload. |
| Store.NoActionThrows | src/front/store.js:10-23 | Dispatching with no action (the default `{}`) throws 'Unknown action.'. |
| Vehicles.FilteredSpec | src/front/pages/Vehicles.jsx:67-76 | 'All Categories' keeps every service. Otherwise the result keeps, in order, exactly the services whose lower-cased name or description contains the lower-cased label, each as often as in the input. |
| Vehicles.SearchIgnoresCase | src/front/pages/Vehicles.jsx:71-75 | Two lists whose services agree on name and description up to capitals have the same services selected at the same positions, so the same number. |
| Vehicles.SearchFindsName | src/front/pages/Vehicles.jsx:71-75 | A service whose name contains the lower-cased label is found, whatever the label's capitals. |
| Vehicles.StagesAreSorts | src/front/pages/Vehicles.jsx:78-92 | Each sort stage is the stable sort by the order its selection names. |
| Vehicles.SelectionOrdersArePreorders | src/front/pages/Vehicles.jsx:78-92 | The city comparators (missing city as '') and the price comparators are total preorders. |
| Vehicles.PipelinePermutation | src/front/pages/Vehicles.jsx:67-95 | The output is a permutation of the filtered list. The input is never reordered, because each stage copies it. |
| Vehicles.PipelineOrdered | src/front/pages/Vehicles.jsx:78-92 | 'Low to High' gives non-decreasing prices and 'High to Low' non-increasing ones. Among equal prices, the city order of the location selection holds, and without a price sort it holds throughout. |
| Vehicles.Guard | src/front/pages/Vehicles.jsx:20-47 | Services are fetched exactly when a token exists, the role is 'customer', the token decodes and `floor(now/1000) <= exp`. An expired or undecodable token clears the session; a missing one does not. |
| Vehicles.ExpiryBoundary | src/front/pages/Vehicles.jsx:31-34 | A token stays valid until the end of its expiry second and is refused from the next second on. |
| Listings.FilteredSpec | src/front/pages/Homecare.jsx:85-90 | 'All Categories' keeps all. Otherwise the result keeps, in order, exactly the listings whose category equals the label (case-sensitive), each as often as in the input. |
| Listings.StagesAreSorts | src/front/pages/Homecare.jsx:92-102 | Each sort stage is the stable sort by its selection's order. The defaults 'Location' and 'Price' keep the order. |
| Listings.OrdersArePreorders | src/front/pages/Homecare.jsx:92-102 | The town and priceValue comparators are total preorders. |
| Listings.SelectionOrdersArePreorders | src/front/pages/Homecare.jsx:92-102 | The order each selection imposes is a total preorder. |
| Listings.PipelinePermutation | src/front/pages/Pets.jsx:71-89 | The output is a permutation of the filtered list. |
| Listings.DefaultsKeepOrder | src/front/pages/Homecare.jsx:92-102 | The default selections show the filtered list in catalogue order. |
| Listings.PipelineOfOne | src/front/pages/Beauty.jsx:71-89 | A selection that keeps one listing shows just that listing. |
| Listings.PipelineOrdered | src/front/pages/Beauty.jsx:78-88 | The price sort runs last: prices are ordered by the price selection, and among equal prices towns follow the location selection. |
| Listings.Providers | src/front/pages/Homecare.jsx:85-103 | The in-place memo returns the pipeline of the old catalogue. With 'All Categories' it sorts the catalogue array itself; otherwise it sorts a fresh array and leaves the catalogue untouched. |
| Sorting.SortInPlace | src/front/pages/Homecare.jsx:93-101 | Sorting an array in place leaves it holding the stable sort of its old contents. |
| Sorting.SortByPermutation | src/front/pages/Pets.jsx:79-87 | The sort is a permutation of its input. |
| Sorting.SortBySorted | src/front/pages/Pets.jsx:79-87 | Under a total preorder, the sort's output is sorted. |
| Sorting.SortByStable | src/front/pages/Pets.jsx:79-87 | Elements the order ties keep their relative order. |
| Sorting.SortByThenBy | src/front/pages/Beauty.jsx:78-88 | A stable sort by a second order keeps the first order among the second order's ties. |
| Homecare.EachOptionSelectsOne | src/front/pages/Homecare.jsx:10-71 | Each of the five category options selects exactly one provider of that category, under any sort selection. |
| Homecare.CategoryMatch | src/front/pages/Homecare.jsx:86-90 | Selecting a catalogue entry's category shows just that entry. |
| Homecare.DistinctCategories | src/front/pages/Homecare.jsx:10-71 | No two catalogue entries share a category. |
| Homecare.AllCategoriesShowsAll | src/front/pages/Homecare.jsx:86-102 | 'All Categories' shows a permutation of the whole catalogue. |
| Pets.EachOptionSelectsOne | src/front/pages/Pets.jsx:9-58 | Each of the four options selects exactly one provider. |
| Pets.DistinctCategories | src/front/pages/Pets.jsx:9-58 | No two catalogue entries share a category. |
| Pets.AllCategoriesShowsAll | src/front/pages/Pets.jsx:72-88 | 'All Categories' shows a permutation of the whole catalogue. |
| Beauty.MatchingOptionsSelectOne | src/front/pages/Beauty.jsx:9-58 | 'Nails', 'Mens Cuts' and 'Womens Hairstyle' each select exactly one provider. |
| Beauty.MakeupSelectsNone | src/front/pages/Beauty.jsx:44 | 'Makeup' selects nothing, because the entry's category is 'makeup' and the comparison is case-sensitive. |
| Beauty.DistinctCategories | src/front/pages/Beauty.jsx:9-58 | No two catalogue entries share a category. |
| Beauty.AllCategoriesShowsAll | src/front/pages/Beauty.jsx:72-88 | 'All Categories' shows a permutation of the whole catalogue. |
| CustomerProfile.FilteredServices | src/front/pages/CustomerProfile.jsx:43-50 | The result is an order-preserving sub-list. 'completed' or 'pending' keeps exactly the services of that status, each as often as in the input; any other filter returns the list unchanged. |
| CustomerProfile.TabCounts | src/front/pages/CustomerProfile.jsx:97-111 | The completed and pending counts add up to at most the "All" count, and each tab count is the length of that tab's list. |
| CustomerProfile.StatusBadgeClass | src/front/pages/CustomerProfile.jsx:54-61 | completed gives "badge bg-success", pending gives "badge bg-warning text-dark", anything else gives "badge bg-secondary". |
| CustomerProfile.Capitalize | src/front/pages/CustomerProfile.jsx:137 | The first character is upper-cased, the rest are unchanged, and the length is kept. |
| CustomerProfile.CapitalizeIdempotent | src/front/pages/CustomerProfile.jsx:137 | Capitalising twice is capitalising once. |
| ProviderDashboard.ServiceIcon | src/front/pages/ProviderDashboard.jsx:76-84 | pets, beauty, vehicles and home get their icons. The wrench is shown exactly for every other category. |
| ProviderDashboard.StatusBadge | src/front/pages/ProviderDashboard.jsx:86-94 | pending gives warning, confirmed success, completed info and cancelled danger. Every other status is given secondary. |
| ProviderDashboard.StatusBadgeInjective | src/front/pages/ProviderDashboard.jsx:86-94 | The four known statuses have four different badges. |
| ProviderDashboard.CountsBounded | src/front/pages/ProviderDashboard.jsx:174-184 | Active (confirmed) plus pending counts are at most the number of bookings. |
| ProviderDashboard.Recent | src/front/pages/ProviderDashboard.jsx:219 | At most the first five bookings are shown, in order. |
| ProviderDashboard.ShowAcceptDecline | src/front/pages/ProviderDashboard.jsx:336 | Accept/Decline appear exactly for pending bookings. |
| ProviderDashboard.MayEnter | src/front/pages/ProviderDashboard.jsx:15-18 | Entry needs a non-empty stored token and the stored role 'provider'. An absent or empty token, or any other role, leads to /login. |
| ProviderDashboard.Dashboard.FetchDashboardData | src/front/pages/ProviderDashboard.jsx:25-67 | Each of profile, services and bookings is replaced only from an ok response. A thrown request skips the later ones. isLoading ends false in every case. |
| ProviderDashboard.Dashboard.Open | src/front/pages/ProviderDashboard.jsx:13-23 | When the entry check fails, the page navigates to /login and its data and loading flag are unchanged. When it passes, there is no navigation and the state is that of one dashboard fetch. |
| MessagingModal.ChatModal.FetchMessages | src/front/components/MessagingModal.jsx:30-41 | Without a service nothing happens. Otherwise one request is made, and the conversation becomes the data received (`[]` for `null`) or is kept on an error. isLoading ends false. |
| MessagingModal.ChatModal.Send | src/front/components/MessagingModal.jsx:43-62 | Blank text or no service: no request and no change. Otherwise the text is sent. On success it is cleared and the conversation fetched again; on failure the text is kept and an alert shown. isSending ends false. |
| MessagingModal.ChatModal.Delete | src/front/components/MessagingModal.jsx:64-74 | Nothing happens without confirmation. A delete leads to a re-fetch; a failure shows an alert. The local conversation is never edited directly. |
| MessagingModal.ChatModal.Clear | src/front/components/MessagingModal.jsx:76-87 | Nothing happens without confirmation. On success the conversation is emptied and `onClose` is called once, after which the Clear button is gone and the header is the invitation. On failure an alert is shown, the conversation is unchanged and `onClose` is not called. |
| MessagingModal.ChatModal.Header | src/front/components/MessagingModal.jsx:89-98 | Nothing is rendered without `show` or a service. Otherwise the header is chosen by whether messages exist and by the viewer's side. |
| MessagingModal.ChatModal.ClearShownIff | src/front/components/MessagingModal.jsx:95-108 | The Clear button is shown exactly when the header is no longer the first-message invitation. |
| MessagingModal.HeaderSpec | src/front/components/MessagingModal.jsx:92-98 | Before the first message both sides see "Message with {providerName}". The customer's headers always contain the provider name. The provider's "Reply to Customer" does not depend on it. The two states give different headers. |
| MessagingModal.ProviderName | src/front/components/MessagingModal.jsx:92 | The business name when present, else the name. |
| MessagingModal.SendDisabledIff | src/front/components/MessagingModal.jsx:193 | Send is disabled exactly when the text is all white space or a send is running. |
| Text.ParseNatToString | src/api/utils.py:65 | Reading back with `int` the identity the login wrote with `str` gives the same id. |
| Text.NatToStringInjective | src/api/routes.py:44-52 | Different ids give different tokens. |
| MessagingModal.ChatModal.constructor | src/front/components/MessagingModal.jsx:6-9 | The modal starts with no messages, an empty input, and neither loading nor sending. No request, alert or close has happened. |
| MessagingModal.ChatModal.Type | src/front/components/MessagingModal.jsx:187 | Typing replaces the input text and nothing else. |
| ProviderDashboard.Dashboard.constructor | src/front/pages/ProviderDashboard.jsx:8-11 | The dashboard starts with no profile, no services, no bookings, loading, and no navigation. |
| Text.TrimEmptyIff | src/front/components/MessagingModal.jsx:45 | `trim()` is empty exactly when the text consists of white space. |
| NearbySearch.AddressSpec | src/front/components/NearbySearch.jsx:53-54 | The address is empty exactly when city, state and zip all are. It contains every filled-in field, and with all three it is "city, state, zip". |
| NearbySearch.AddressParts | src/front/components/NearbySearch.jsx:53 | `filter(Boolean)` keeps the filled-in fields in the order city, state, zip. |
| NearbySearch.JoinContains | src/front/components/NearbySearch.jsx:54 | A joined list contains each of its parts. |
| NearbySearch.ErrorText | src/front/components/NearbySearch.jsx:41 | The error's message when it has one, else the fallback text. |
| NearbySearch.Prefix | src/front/components/NearbySearch.jsx:156-166 | `maxLength` keeps at most the first n characters. |
| NearbySearch.Panel.constructor | src/front/components/NearbySearch.jsx:5-12 | Current-location mode, empty fields, radius 25, not searching, no error. |
| NearbySearch.Panel.EnterState | src/front/components/NearbySearch.jsx:150-157 | The state is stored upper-cased and cut to two characters. Nothing else changes. |
| NearbySearch.Panel.EnterZip | src/front/components/NearbySearch.jsx:159-167 | The zip is cut to five characters. Nothing else changes. |
| NearbySearch.Panel.EnterCity | src/front/components/NearbySearch.jsx:141-147 | The city is stored as typed. |
| NearbySearch.Panel.SelectRadius | src/front/components/NearbySearch.jsx:93-102 | The radius becomes one of 10, 25, 50 and 100. |
| NearbySearch.Panel.ChooseManual | src/front/components/NearbySearch.jsx:105-120 | The method buttons switch between current-location and manual search. |
| NearbySearch.Panel.SearchCurrentLocation | src/front/components/NearbySearch.jsx:14-45 | The old error is cleared and the requests are made in the order position, address name, nearby services. A failed address lookup is ignored. Results go to the parent. A failure shows its message or the fallback. isSearching ends false. |
| NearbySearch.Panel.SearchManual | src/front/components/NearbySearch.jsx:47-78 | With all fields empty: no request, and the error asks for a field. Otherwise the joined address is geocoded and the nearby services requested. A failure shows its message or the fallback text. isSearching ends false. |

## Left out

- JWT creation and verification: the token's identity, and for the front-end
  guard its `exp`, are given values. Base64/JSON decoding of the token is
  reduced to a `Malformed` outcome.
- `role_required`: it indexes a string identity as a dictionary and is not
  used by any route.
- HTTP, Flask, SQLAlchemy and React mechanics: each handler is one atomic
  step.
- Network: every request's outcome is a parameter. This covers fetch calls,
  the chat endpoints, geolocation and geocoding.
- The chat modal's 3-second polling timer, the empty "mark as read" loop and
  the interleaving of concurrent handlers are not modelled.
- The Twilio client and its environment checks are left out, as is the
  `send_sms` reply.
- Money: prices and `total_price` are database floats. They are modelled as
  integer amounts (cents), and coordinates as integers.
- Column length bounds (`String(120)` and the like) are left out. Whether
  they are enforced depends on the database engine.
- Column values are JSON values. `Json.Value` keeps arrays and objects only
  by size (enough for truthiness), and `Json.Render` shows them as "[...]" in
  the 403 login message.
- Python's `1 == True` is not modelled: JSON numbers and booleans are
  different values.
- `int()` on an identity accepts only plain decimal digits. Signs, spaces and
  underscores, which Python also accepts, are not modelled.
- The Provider, Service and Booking models are not part of this model. Their
  columns are taken from the fields the handlers use. Their `serialize`
  dictionaries, which replies embed, are left out; replies hold only the
  message.
- Provider columns that signup does not set (phone, address, city, rating and
  the others) start as `Null`.
- Request bodies are modelled as a JSON object or JSON `null`. Bodies of
  another JSON type are left out. For a list or a string:
  `create_token` (src/api/routes.py:26) and `update_provider_profile` call
  `.get` on it and fail with 500. `create_service`
  (src/api/routes.py:174-178) tests `field not in data` as list membership or
  as a substring, so it replies 400 for a missing name and otherwise fails
  with 500 on `data['category']`. `update_service`
  (src/api/routes.py:212-218) finds no field in a list such as `[1]` and
  replies 200 with the row unchanged.
- Deletion is not part of this model: `delete_service` and removals through
  the admin panel are outside it. The tables only grow or change in place,
  which is what lets `Routes.Keyed` state that row `i` has key `i + 1`. After
  a deletion, keys would no longer be positions.
- Vehicles.FilteredSpec: a service's description is always a string here.
  The server stores `null` when a create or update request sends
  `"description": null` (src/api/routes.py:184, 214-216). The page's
  `service.description.toLowerCase()` (src/front/pages/Vehicles.jsx:73-74)
  then throws, and the page fails to render. The model does not capture
  that failure.
- SQL ordering among equal keys is taken to be table order. A real database
  may return ties in any order.
- Routes.Server.EarningsWindows: states the nesting of the four sums, not the
  date of each booking counted. The week and month sums also count
  future-dated bookings, as the code does.
- Text.ToLower, Text.ToUpper, Text.Trim: ASCII case mapping and a fixed
  white-space set. Unicode case mapping is not modelled.
- Text.StrLe: `localeCompare` is modelled as plain lexicographic order on
  character codes. Collation is locale-dependent.
- ProviderDashboard.ServiceIcon: JavaScript's `icons[category]` also finds
  inherited keys such as "toString". The model treats every category outside
  the four as unknown.
- ProviderDashboard.StatusBadge: JavaScript's `badges[status]` also finds
  inherited keys such as "toString" or "constructor", and then returns that
  inherited function rather than "secondary". The model gives every status
  outside the four "secondary".
- MessagingModal.ProviderRef: a missing `businessName` (`null`/`undefined`)
  is represented by the empty string; both are falsy.
- Beauty catalogue: the source lacks a comma between two properties of one
  entry at Beauty.jsx:52 and does not parse. The model uses the evidently
  intended record.
- Rendering, routing and styling are left out, as are date rendering, the
  mojibake icon strings (the icons are an enumeration) and the undefined
  `navigate` in the category clicks of the static pages.
- Utils.HasNoEmptyParamsIff: the subset reading assumes every default names
  an argument. Without that, the function is just the cardinality
  comparison.
- Calendar: `FirstDay` (the ordinal of 1 January) is not stated. Only the
  relations the earnings window needs are proved.
