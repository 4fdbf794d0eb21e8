/**
 * The results page (`Flights.tsx`): reading the search request back from
 * the query, with its defaults, and the search it runs.
 */
module Flights {
  import opened Wrappers
  import opened Text
  import opened Api
  import opened Effects
  import opened Search

  /** `URLSearchParams.get`: the value of the first entry with that key. */
  function Get(params: seq<(string, string)>, key: string): (r: Option<string>)
    ensures r.None? <==> forall p :: p in params ==> p.0 != key
    ensures r.Some? ==> exists k :: 0 <= k < |params| && params[k] == (key, r.value)
                                    && forall j :: 0 <= j < k ==> params[j].0 != key
  {
    if params == [] then None
    else if params[0].0 == key then Some(params[0].1)
    else
      var rest := Get(params[1..], key);
      assert rest.Some? ==> exists k :: 0 <= k < |params| && params[k] == (key, rest.value)
                                        && forall j :: 0 <= j < k ==> params[j].0 != key by {
        if rest.Some? {
          var k :| 0 <= k < |params[1..]| && params[1..][k] == (key, rest.value)
                   && forall j :: 0 <= j < k ==> params[1..][j].0 != key;
          assert params[k + 1] == (key, rest.value);
          forall j | 0 <= j < k + 1
            ensures params[j].0 != key
          {
            if j > 0 { assert params[j] == params[1..][j - 1]; }
          }
        }
      }
      rest
  }

  /** When keys are distinct, `get` finds the one entry with that key. */
  lemma GetUnique(params: seq<(string, string)>, key: string, value: string)
    requires forall i, j :: 0 <= i < j < |params| ==> params[i].0 != params[j].0
    requires (key, value) in params
    ensures Get(params, key) == Some(value)
  {
    var r := Get(params, key);
    var k :| 0 <= k < |params| && params[k] == (key, r.value) && forall j :: 0 <= j < k ==> params[j].0 != key;
    var m :| 0 <= m < |params| && params[m] == (key, value);
    assert params[m].0 == params[k].0;
  }

  /** A key that no entry has is not found. */
  lemma GetAbsent(params: seq<(string, string)>, key: string)
    requires key !in Keys(params)
    ensures Get(params, key).None?
  {
    forall p | p in params
      ensures p.0 != key
    {
      var i :| 0 <= i < |params| && params[i] == p;
      assert Keys(params)[i] == p.0;
    }
  }

  /** `get(key) || fallback`: a missing or empty value gives the fallback. */
  function ValueOr(v: Option<string>, fallback: string): (r: string)
    ensures v.Some? && v.value != "" ==> r == v.value
    ensures v.None? || v.value == "" ==> r == fallback
  {
    if v.Some? && v.value != "" then v.value else fallback
  }

  /** `r` is what `get(key) || fallback` gives for the looked-up value `v`. */
  predicate ReadsAs(v: Option<string>, fallback: string, r: string) {
    && (v.Some? && v.value != "" ==> r == v.value)
    && (v.None? || v.value == "" ==> r == fallback)
  }

  /** The `searchData` the results page builds from its query. */
  function ReadSearchRequest(params: seq<(string, string)>): (q: FlightSearchRequest)
    ensures ReadsAs(Get(params, "origin"), "", q.origin)
    ensures ReadsAs(Get(params, "destination"), "", q.destination)
    ensures ReadsAs(Get(params, "departure_date"), "", q.departureDate)
    ensures ReadsAs(Get(params, "cabin_class"), "economy", q.cabinClass)
    ensures ReadsAs(Get(params, "trip_type"), "one_way", q.tripType)
    ensures q.returnDate.Some? <==> Get(params, "return_date").Some? && Get(params, "return_date").value != ""
    ensures q.returnDate.Some? ==> q.returnDate == Get(params, "return_date")
    ensures q.passengers == ParseInt(ValueOr(Get(params, "passengers"), "1"))
    ensures var p := Get(params, "passengers"); p.None? || p.value == "" ==> q.passengers == Some(1)
    ensures q.cabinClass != "" && q.tripType != ""
  {
    ParseIntOfNatToString(1);
    assert NatToString(1) == "1";
    var returnDate := Get(params, "return_date");
    FlightSearchRequest(
      ValueOr(Get(params, "origin"), ""),
      ValueOr(Get(params, "destination"), ""),
      ValueOr(Get(params, "departure_date"), ""),
      if returnDate.Some? && returnDate.value != "" then returnDate else None,
      ParseInt(ValueOr(Get(params, "passengers"), "1")),
      ValueOr(Get(params, "cabin_class"), "economy"),
      ValueOr(Get(params, "trip_type"), "one_way"))
  }

  /** An empty query gives empty places and dates, one passenger, economy, one way. */
  lemma EmptyQueryDefaults()
    ensures ReadSearchRequest([]) == FlightSearchRequest("", "", "", None, Some(1), "economy", "one_way")
  {
    ParseIntOfNatToString(1);
    assert NatToString(1) == "1";
  }

  /** A key of the form's query is found with its value, since the keys are distinct. */
  lemma LookupQuery(d: SearchData, key: string, value: string)
    requires (key, value) in SearchQuery(d)
    ensures Get(SearchQuery(d), key) == Some(value)
  {
    GetUnique(SearchQuery(d), key, value);
  }

  /** Every key of the form's query is found with the value the form put there. */
  lemma SearchQueryLookups(d: SearchData)
    ensures var params := SearchQuery(d);
      && Get(params, "origin") == Some(d.origin)
      && Get(params, "destination") == Some(d.destination)
      && Get(params, "departure_date") == Some(d.departureDate)
      && Get(params, "passengers") == Some(d.passengers)
      && Get(params, "cabin_class") == Some(CabinName(d.cabinClass))
      && Get(params, "trip_type") == Some(TripName(d.tripType))
      && Get(params, "return_date") == (if d.returnDate == "" then None else Some(d.returnDate))
  {
    LookupQuery(d, "origin", d.origin);
    LookupQuery(d, "destination", d.destination);
    LookupQuery(d, "departure_date", d.departureDate);
    LookupQuery(d, "passengers", d.passengers);
    LookupQuery(d, "cabin_class", CabinName(d.cabinClass));
    LookupQuery(d, "trip_type", TripName(d.tripType));
    ReturnDateLookup(d);
  }

  /** The return date is found exactly when the form had one. */
  lemma ReturnDateLookup(d: SearchData)
    ensures Get(SearchQuery(d), "return_date") == (if d.returnDate == "" then None else Some(d.returnDate))
  {
    if d.returnDate != "" {
      LookupQuery(d, "return_date", d.returnDate);
    } else {
      var keys := Keys(SearchQuery(d));
      assert keys == ["origin", "destination", "departure_date", "passengers", "cabin_class", "trip_type"];
      GetAbsent(SearchQuery(d), "return_date");
    }
  }

  /**
   * The query the search form sends reads back as the form: every string
   * field exactly, the return date present exactly when one was typed, and
   * the passengers as `parseInt` of the chosen text (or of "1" when empty).
   */
  lemma SearchRoundTrip(d: SearchData)
    ensures var q := ReadSearchRequest(SearchQuery(d));
      && q.origin == d.origin && q.destination == d.destination && q.departureDate == d.departureDate
      && q.returnDate == (if d.returnDate == "" then None else Some(d.returnDate))
      && q.passengers == ParseInt(if d.passengers == "" then "1" else d.passengers)
      && q.cabinClass == CabinName(d.cabinClass) && q.tripType == TripName(d.tripType)
  {
    SearchQueryLookups(d);
  }

  /** A count chosen in the form arrives as that number. */
  lemma SearchRoundTripPassengers(d: SearchData, n: nat)
    requires d.passengers == NatToString(n)
    ensures ReadSearchRequest(SearchQuery(d)).passengers == Some(n)
  {
    SearchRoundTrip(d);
    ParseIntOfNatToString(n);
  }

  const AuthRequired := Toast("Authentication required", Some("Please log in to search flights"), true)
  const NoFlightsFound := Toast("No flights found", Some("Try adjusting your search criteria"), false)

  /** What a render of the results page sees. */
  datatype ResultsState = ResultsState(flights: seq<Flight>, isLoading: bool)

  /** The toast that follows a search: none for results, one for no results or for a failure. */
  function SearchFollowUp(reply: Reply<seq<Flight>>): (toasts: seq<Effect>)
    ensures |toasts| <= 1
    ensures toasts == [] <==> reply.Ok? && reply.value != []
  {
    match reply
    case Ok(results) => if results == [] then [NoFlightsFound] else []
    case Err(f) => [Toast("Search failed", Some(DetailOr(f, "Unable to search flights")), true)]
  }

  class FlightsPage {
    /** The page's query string. */
    const params: seq<(string, string)>
    var flights: seq<Flight>
    var isLoading: bool
    /** The states rendered while a request was outstanding, oldest first. */
    ghost var pending: seq<ResultsState>

    constructor (params: seq<(string, string)>)
      ensures this.params == params && flights == [] && isLoading && pending == []
    {
      this.params := params;
      flights, isLoading := [], true;
      pending := [];
    }

    /**
     * `searchFlights`: without a credential only a toast, and the spinner
     * stays; otherwise the request read from the query is sent and its
     * results shown, with a toast when there are none or when it fails.
     */
    method SearchFlightsFromQuery(token: Option<string>, reply: Reply<seq<Flight>>, env: Env)
      modifies this`flights, this`isLoading, this`pending, env
      ensures !HasToken(token) ==>
        flights == old(flights) && isLoading == old(isLoading) && pending == old(pending)
        && env.trace == old(env.trace) + [AuthRequired]
      ensures forall k :: |old(pending)| <= k < |pending| ==> pending[k].isLoading
      ensures HasToken(token) ==>
        && pending == old(pending) + [ResultsState(old(flights), true)]
        && !isLoading
        && flights == (if reply.Ok? then reply.value else old(flights))
        && env.trace == old(env.trace) + [Request(SearchFlights(ReadSearchRequest(params)))] + SearchFollowUp(reply)
    {
      if !HasToken(token) {
        env.Emit(AuthRequired);
        return;
      }
      isLoading := true;
      env.Emit(Request(SearchFlights(ReadSearchRequest(params))));
      pending := pending + [ResultsState(flights, isLoading)];
      ShowResults(reply, env);
      isLoading := false;
    }

    /** The `try`/`catch` of `searchFlights`: the results are shown, with a toast for none or for a failure. */
    method ShowResults(reply: Reply<seq<Flight>>, env: Env)
      modifies this`flights, env
      ensures flights == (if reply.Ok? then reply.value else old(flights))
      ensures env.trace == old(env.trace) + SearchFollowUp(reply)
    {
      match reply {
        case Ok(results) =>
          flights := results;
          if |results| == 0 {
            env.Emit(NoFlightsFound);
          }
        case Err(f) =>
          env.Emit(Toast("Search failed", Some(DetailOr(f, "Unable to search flights")), true));
      }
    }
  }
}
