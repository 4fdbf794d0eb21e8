/**
 * The search form (`Search.tsx`): the form record and its single-field
 * updates, the required-field check, the query handed to the results page,
 * and the search widget's actions.
 */
module Search {
  import opened Wrappers
  import opened Effects
  import opened AIWidget

  datatype CabinClass = Economy | Business | First
  datatype TripType = OneWay | RoundTrip

  function CabinName(c: CabinClass): (s: string)
    ensures s != ""
  {
    match c
    case Economy => "economy"
    case Business => "business"
    case First => "first"
  }

  function TripName(t: TripType): (s: string)
    ensures s != ""
  {
    match t
    case OneWay => "one_way"
    case RoundTrip => "round_trip"
  }

  /** The form record; passengers is the select's text value. */
  datatype SearchData = SearchData(
    origin: string,
    destination: string,
    departureDate: string,
    returnDate: string,
    passengers: string,
    cabinClass: CabinClass,
    tripType: TripType)

  const InitialSearchData := SearchData("", "", "", "", "1", Economy, OneWay)

  /** The three fields the form insists on. */
  predicate Complete(d: SearchData) {
    d.origin != "" && d.destination != "" && d.departureDate != ""
  }

  function Keys(q: seq<(string, string)>): (r: seq<string>)
    ensures |r| == |q| && forall i :: 0 <= i < |q| ==> r[i] == q[i].0
  {
    seq(|q|, i requires 0 <= i < |q| => q[i].0)
  }

  /**
   * The query of `handleSearch`: the six fixed keys in form order, then
   * `return_date` only when one was typed, whatever the trip type.
   */
  function SearchQuery(d: SearchData): (q: seq<(string, string)>)
    ensures Keys(q) == ["origin", "destination", "departure_date", "passengers", "cabin_class", "trip_type"]
                       + (if d.returnDate != "" then ["return_date"] else [])
    ensures forall i, j :: 0 <= i < j < |q| ==> q[i].0 != q[j].0
    ensures ("origin", d.origin) in q && ("destination", d.destination) in q
    ensures ("departure_date", d.departureDate) in q && ("passengers", d.passengers) in q
    ensures ("cabin_class", CabinName(d.cabinClass)) in q && ("trip_type", TripName(d.tripType)) in q
    ensures ("return_date", d.returnDate) in q <==> d.returnDate != ""
  {
    [("origin", d.origin), ("destination", d.destination), ("departure_date", d.departureDate),
     ("passengers", d.passengers), ("cabin_class", CabinName(d.cabinClass)), ("trip_type", TripName(d.tripType))]
    + (if d.returnDate != "" then [("return_date", d.returnDate)] else [])
  }

  /** A return date typed before switching back to one way is still sent. */
  lemma StaleReturnDateIsSent(d: SearchData)
    requires d.tripType == OneWay && d.returnDate != ""
    ensures ("return_date", d.returnDate) in SearchQuery(d)
    ensures !ReturnFieldShown(d)
  {
  }

  /** The return-date input is on screen only for a round trip. */
  predicate ReturnFieldShown(d: SearchData) {
    d.tripType == RoundTrip
  }

  const MissingInformation := Toast("Missing information", Some("Please fill in all required fields"), true)

  class SearchPage {
    /** The `useAIWidget('search')` instance. */
    const widget: WidgetHook
    var searchData: SearchData

    constructor ()
      ensures fresh(widget) && widget.currentPage == "search" && widget.widgetConfig.None?
      ensures searchData == InitialSearchData
    {
      widget := new WidgetHook("search");
      searchData := InitialSearchData;
    }

    method SetOrigin(v: string)
      modifies this`searchData
      ensures searchData == old(searchData).(origin := v)
    {
      searchData := searchData.(origin := v);
    }

    method SetDestination(v: string)
      modifies this`searchData
      ensures searchData == old(searchData).(destination := v)
    {
      searchData := searchData.(destination := v);
    }

    method SetDepartureDate(v: string)
      modifies this`searchData
      ensures searchData == old(searchData).(departureDate := v)
    {
      searchData := searchData.(departureDate := v);
    }

    method SetReturnDate(v: string)
      modifies this`searchData
      ensures searchData == old(searchData).(returnDate := v)
    {
      searchData := searchData.(returnDate := v);
    }

    method SetPassengers(v: string)
      modifies this`searchData
      ensures searchData == old(searchData).(passengers := v)
    {
      searchData := searchData.(passengers := v);
    }

    method SetCabinClass(c: CabinClass)
      modifies this`searchData
      ensures searchData == old(searchData).(cabinClass := c)
    {
      searchData := searchData.(cabinClass := c);
    }

    /** The two trip-type buttons; the typed return date is kept. */
    method SetTripType(t: TripType)
      modifies this`searchData
      ensures searchData == old(searchData).(tripType := t)
    {
      searchData := searchData.(tripType := t);
    }

    /** `handleSearch`: an incomplete form only toasts; a complete one opens the results with its query. */
    method HandleSearch(env: Env)
      modifies env
      ensures !Complete(searchData) ==> env.trace == old(env.trace) + [MissingInformation]
      ensures Complete(searchData) ==> env.trace == old(env.trace) + [Navigate("/flights", SearchQuery(searchData))]
    {
      if searchData.origin == "" || searchData.destination == "" || searchData.departureDate == "" {
        env.Emit(MissingInformation);
        return;
      }
      env.Emit(Navigate("/flights", SearchQuery(searchData)));
    }

    /**
     * `onWidgetAction`: every token is acknowledged and dismisses the widget;
     * `manage_existing` then opens the bookings, `continue_search` dismisses
     * once more, which changes nothing.
     */
    method OnWidgetAction(action: string, env: Env)
      modifies widget`widgetConfig, env
      ensures widget.widgetConfig.None?
      ensures env.trace == old(env.trace) + CTAEffects(action)
                           + (if action == "manage_existing" then [Navigate("/bookings", [])] else [])
    {
      var _ := widget.HandleCTAAction(action, env);
      if action == "manage_existing" {
        env.Emit(Navigate("/bookings", []));
      } else if action == "continue_search" {
        widget.DismissWidget();
      }
    }
  }
}
