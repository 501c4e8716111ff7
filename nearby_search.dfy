/** The "Find Services Near You" panel: its inputs, the address the manual
    search builds from them, and the two search handlers.  Geolocation,
    geocoding and the nearby-services request are parameters: each handler
    receives the outcome of every request it makes. */
module NearbySearch {
  import opened Seqs
  import Text

  /** A position; coordinates are taken as given numbers. */
  datatype Location = Location(latitude: int, longitude: int)

  /** What an awaited request gives: its value, or the thrown error's
      `message` (empty when it has none). */
  datatype Outcome<T> = Ok(value: T) | Err(message: string)

  /** The requests the panel makes, in order. */
  datatype Request =
    | Locate
    | ReverseGeocode(at: Location)
    | GeocodeAddress(address: string)
    | NearbyServices(at: Location, radius: nat, category: string)

  /** The ids of the services a nearby search returns. */
  type Results = seq<nat>

  const RadiusOptions: seq<nat> := [10, 25, 50, 100]
  const DefaultRadius: nat := 25
  const EmptyAddressError := "Please enter at least one location field"
  const LocationFallback := "Could not get your location. Please try searching manually."
  const AddressFallback := "Could not find location. Please check your address and try again."

  /** `error.message || fallback`. */
  function ErrorText(message: string, fallback: string): (e: string)
    ensures message != "" ==> e == message
    ensures message == "" ==> e == fallback
  {
    if message != "" then message else fallback
  }

  /** `Boolean` on a string. */
  function NonEmpty(s: string): bool
  {
    s != ""
  }

  /** `[city, state, zipCode].filter(Boolean).join(', ')`. */
  function Address(city: string, state: string, zipCode: string): string
  {
    Text.Join(Filter([city, state, zipCode], NonEmpty), ", ")
  }

  /** A joined list contains each of its parts. */
  lemma {:induction false} JoinContains(parts: seq<string>, sep: string, k: nat)
    requires k < |parts|
    ensures Text.Contains(Text.Join(parts, sep), parts[k])
  {
    if |parts| == 1 {
      Text.ContainsMiddle("", parts[0], "");
      assert "" + parts[0] + "" == parts[0];
    } else if k == 0 {
      Text.ContainsMiddle("", parts[0], sep + Text.Join(parts[1..], sep));
      assert "" + parts[0] + (sep + Text.Join(parts[1..], sep)) == Text.Join(parts, sep);
    } else {
      JoinContains(parts[1..], sep, k - 1);
      var rest := Text.Join(parts[1..], sep);
      var i := Text.ContainsPosition(rest, parts[k]);
      var whole := parts[0] + sep + rest;
      var at := |parts[0] + sep| + i;
      assert whole[at..at + |parts[k]|] == rest[i..i + |parts[k]|];
      Text.ContainsFromPosition(whole, parts[k], at);
    }
  }

  /** `[x]` for a filled-in field, `[]` for an empty one. */
  function Part(x: string): seq<string>
  {
    if x != "" then [x] else []
  }

  /** The filter keeps the filled-in fields in their order. */
  lemma AddressParts(city: string, state: string, zipCode: string)
    ensures Filter([city, state, zipCode], NonEmpty) == Part(city) + Part(state) + Part(zipCode)
  {
    assert [city, state, zipCode][1..] == [state, zipCode];
    assert [state, zipCode][1..] == [zipCode];
    assert [zipCode][1..] == [];
    assert Filter([zipCode], NonEmpty) == Part(zipCode) + Filter([], NonEmpty);
    assert Filter([state, zipCode], NonEmpty) == Part(state) + Filter([zipCode], NonEmpty);
    assert Filter([city, state, zipCode], NonEmpty) == Part(city) + Filter([state, zipCode], NonEmpty);
  }

  /** The address is empty exactly when all three fields are, names every
      field that is filled in, and with all three filled in reads
      "city, state, zip". */
  lemma AddressSpec(city: string, state: string, zipCode: string)
    ensures Address(city, state, zipCode) == "" <==> city == "" && state == "" && zipCode == ""
    ensures city != "" ==> Text.Contains(Address(city, state, zipCode), city)
    ensures state != "" ==> Text.Contains(Address(city, state, zipCode), state)
    ensures zipCode != "" ==> Text.Contains(Address(city, state, zipCode), zipCode)
    ensures city != "" && state != "" && zipCode != "" ==>
      Address(city, state, zipCode) == city + ", " + state + ", " + zipCode
  {
    var parts := Filter([city, state, zipCode], NonEmpty);
    AddressParts(city, state, zipCode);
    FilterAll([city, state, zipCode], NonEmpty);
    Text.JoinEmptyIff(parts, ", ");
    if city != "" {
      assert parts[0] == city;
      JoinContains(parts, ", ", 0);
    }
    if state != "" {
      assert parts[|Part(city)|] == state;
      JoinContains(parts, ", ", |Part(city)|);
    }
    if zipCode != "" {
      assert parts[|Part(city)| + |Part(state)|] == zipCode;
      JoinContains(parts, ", ", |Part(city)| + |Part(state)|);
    }
    if city != "" && state != "" && zipCode != "" {
      assert parts == [city, state, zipCode];
      assert parts[1..] == [state, zipCode] && parts[1..][1..] == [zipCode];
      assert Text.Join([state, zipCode], ", ") == state + ", " + zipCode;
      assert Text.Join(parts, ", ") == city + ", " + (state + ", " + zipCode);
    }
  }

  /** The first `n` characters, as an input's `maxLength` keeps them. */
  function Prefix(s: string, n: nat): (r: string)
    ensures |r| <= n && Text.StartsWith(s, r)
    ensures |s| <= n ==> r == s
  {
    if |s| <= n then s else s[..n]
  }

  class Panel {
    /** The category prop passed on to the nearby-services request. */
    const category: string

    var manual: bool
    var zipCode: string
    var city: string
    var state: string
    var radius: nat
    var isSearching: bool
    var error: string
    var currentAddress: string

    // What the panel did to the outside world.
    var requests: seq<Request>
    /** The result lists handed to `onSearchResults`. */
    var delivered: seq<Results>

    /** What the inputs guarantee: a state of at most two upper-case
        characters, a zip of at most five, and a radius the menu offers. */
    ghost predicate Valid()
      reads this
    {
      |state| <= 2 && Text.ToUpper(state) == state && |zipCode| <= 5 && radius in RadiusOptions
    }

    constructor (category: string)
      ensures Valid()
      ensures this.category == category && !manual
      ensures zipCode == "" && city == "" && state == "" && radius == DefaultRadius
      ensures !isSearching && error == "" && currentAddress == "" && requests == [] && delivered == []
    {
      this.category := category;
      manual := false;
      zipCode, city, state, radius := "", "", "", DefaultRadius;
      isSearching, error, currentAddress := false, "", "";
      requests, delivered := [], [];
    }

    /** The state input: what was typed, cut to two characters and upper-cased. */
    method EnterState(typed: string)
      requires Valid()
      modifies this
      ensures Valid()
      ensures state == Text.ToUpper(Prefix(typed, 2))
      ensures city == old(city) && zipCode == old(zipCode) && radius == old(radius) && manual == old(manual)
      ensures isSearching == old(isSearching) && error == old(error) && currentAddress == old(currentAddress)
      ensures requests == old(requests) && delivered == old(delivered)
    {
      state := Text.ToUpper(Prefix(typed, 2));
      Text.ToUpperIdempotent(Prefix(typed, 2));
    }

    /** The zip input: what was typed, cut to five characters. */
    method EnterZip(typed: string)
      requires Valid()
      modifies this
      ensures Valid()
      ensures zipCode == Prefix(typed, 5)
      ensures city == old(city) && state == old(state) && radius == old(radius) && manual == old(manual)
      ensures isSearching == old(isSearching) && error == old(error) && currentAddress == old(currentAddress)
      ensures requests == old(requests) && delivered == old(delivered)
    {
      zipCode := Prefix(typed, 5);
    }

    /** The city input, kept as typed. */
    method EnterCity(typed: string)
      requires Valid()
      modifies this
      ensures Valid()
      ensures city == typed
      ensures zipCode == old(zipCode) && state == old(state) && radius == old(radius) && manual == old(manual)
      ensures isSearching == old(isSearching) && error == old(error) && currentAddress == old(currentAddress)
      ensures requests == old(requests) && delivered == old(delivered)
    {
      city := typed;
    }

    /** The radius menu: option `k` of 10, 25, 50 and 100 miles. */
    method SelectRadius(k: nat)
      requires Valid() && k < |RadiusOptions|
      modifies this
      ensures Valid()
      ensures radius == RadiusOptions[k]
      ensures city == old(city) && zipCode == old(zipCode) && state == old(state) && manual == old(manual)
      ensures isSearching == old(isSearching) && error == old(error) && currentAddress == old(currentAddress)
      ensures requests == old(requests) && delivered == old(delivered)
    {
      radius := RadiusOptions[k];
    }

    /** The two method buttons. */
    method ChooseManual(choice: bool)
      requires Valid()
      modifies this
      ensures Valid()
      ensures manual == choice
      ensures city == old(city) && zipCode == old(zipCode) && state == old(state) && radius == old(radius)
      ensures isSearching == old(isSearching) && error == old(error) && currentAddress == old(currentAddress)
      ensures requests == old(requests) && delivered == old(delivered)
    {
      manual := choice;
    }

    /** `handleCurrentLocationSearch`: the previous error is cleared; the
        position is requested, then its address name (a failure there is
        ignored), then the services near it; the results go to the parent,
        a failure ends in its message or the fallback, and the search ends. */
    method SearchCurrentLocation(location: Outcome<Location>, addressName: Outcome<string>,
                                 results: Outcome<Results>)
      requires Valid()
      modifies this
      ensures Valid()
      ensures !isSearching
      ensures city == old(city) && zipCode == old(zipCode) && state == old(state) && radius == old(radius)
      ensures manual == old(manual)
      ensures location.Err? ==>
        && requests == old(requests) + [Locate]
        && error == ErrorText(location.message, LocationFallback)
        && currentAddress == old(currentAddress) && delivered == old(delivered)
      ensures location.Ok? ==>
        && requests == old(requests) + [Locate, ReverseGeocode(location.value),
             NearbyServices(location.value, radius, category)]
        && currentAddress == (if addressName.Ok? then addressName.value else old(currentAddress))
        && (results.Ok? ==> error == "" && delivered == old(delivered) + [results.value])
        && (results.Err? ==> error == ErrorText(results.message, LocationFallback) && delivered == old(delivered))
    {
      isSearching := true;
      error := "";
      requests := requests + [Locate];
      match location {
        case Err(m) =>
          error := ErrorText(m, LocationFallback);
        case Ok(at) =>
          requests := requests + [ReverseGeocode(at)];
          if addressName.Ok? {
            currentAddress := addressName.value;
          }
          requests := requests + [NearbyServices(at, radius, category)];
          match results {
            case Err(m) =>
              error := ErrorText(m, LocationFallback);
            case Ok(r) =>
              delivered := delivered + [r];
          }
      }
      isSearching := false;
    }

    /** `handleManualSearch`: the previous error is cleared; with all three
        fields empty there is no request and the panel asks for a field;
        otherwise the address is geocoded and the services near it are
        requested, the results go to the parent or a failure ends in its
        message or the fallback.  The search always ends. */
    method SearchManual(location: Outcome<Location>, results: Outcome<Results>)
      requires Valid()
      modifies this
      ensures Valid()
      ensures !isSearching
      ensures city == old(city) && zipCode == old(zipCode) && state == old(state) && radius == old(radius)
      ensures manual == old(manual) && currentAddress == old(currentAddress)
      ensures city == "" && state == "" && zipCode == "" ==>
        error == EmptyAddressError && requests == old(requests) && delivered == old(delivered)
      ensures !(city == "" && state == "" && zipCode == "") ==>
        var address := Address(city, state, zipCode);
        && (location.Err? ==>
              && requests == old(requests) + [GeocodeAddress(address)]
              && error == ErrorText(location.message, AddressFallback) && delivered == old(delivered))
        && (location.Ok? ==>
              && requests == old(requests) + [GeocodeAddress(address), NearbyServices(location.value, radius, category)]
              && (results.Ok? ==> error == "" && delivered == old(delivered) + [results.value])
              && (results.Err? ==> error == ErrorText(results.message, AddressFallback) && delivered == old(delivered)))
    {
      isSearching := true;
      error := "";
      var address := Address(city, state, zipCode);
      AddressSpec(city, state, zipCode);
      if address == "" {
        error := EmptyAddressError;
        isSearching := false;
        return;
      }
      requests := requests + [GeocodeAddress(address)];
      match location {
        case Err(m) =>
          error := ErrorText(m, AddressFallback);
        case Ok(at) =>
          requests := requests + [NearbyServices(at, radius, category)];
          match results {
            case Err(m) =>
              error := ErrorText(m, AddressFallback);
            case Ok(r) =>
              delivered := delivered + [r];
          }
      }
      isSearching := false;
    }
  }
}
