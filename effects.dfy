/**
 * What the pages hand to the outside world. A network call is replaced by the
 * outcome it is given (`Reply`), and every toast, navigation, console line and
 * request is appended, in order, to the trace of one `Env` object.
 */
module Effects {
  import opened Wrappers
  import opened Api

  /** What a rejected request carries: `error.message` and `error.response.data.detail`. */
  datatype Failure = Failure(message: string, detail: Option<string>)

  /** The settled outcome of one awaited call. */
  datatype Reply<+T> = Ok(value: T) | Err(failure: Failure)

  /** `error.response?.data?.detail || fallback`: an empty detail counts as missing. */
  function DetailOr(f: Failure, fallback: string): (r: string)
    ensures f.detail.Some? && f.detail.value != "" ==> r == f.detail.value
    ensures f.detail.None? || f.detail.value == "" ==> r == fallback
  {
    if f.detail.Some? && f.detail.value != "" then f.detail.value else fallback
  }

  /** The credential as the pages test it (`if (!token)`): absent or empty means signed out. */
  predicate HasToken(token: Option<string>) {
    token.Some? && token.value != ""
  }

  /** The requests the core makes; the credential itself is not recorded. */
  datatype ApiCall =
    | TrackPageVisit(page: string)
    | GetWidget(page: string)
    | CheckinFind(pnr: string, email: string)
    | SelectSeat(pnr: string, flightId: int, seatId: string)
    | SearchFlights(request: FlightSearchRequest)
    | GetFlight(id: Option<int>)
    | GetAncillaries
    | GetPaymentOffers

  datatype Effect =
    | Toast(title: string, description: Option<string>, destructive: bool)
    | Navigate(path: string, query: seq<(string, string)>)
    | Console(text: string)
    | Request(call: ApiCall)

  /** The browser around a page: toasts, the router, the console and the network. */
  class Env {
    var trace: seq<Effect>

    constructor ()
      ensures trace == []
    {
      trace := [];
    }

    method Emit(e: Effect)
      modifies this`trace
      ensures trace == old(trace) + [e]
    {
      trace := trace + [e];
    }

    /** Several effects at once, in order (requests that go out together). */
    method EmitAll(es: seq<Effect>)
      modifies this`trace
      ensures trace == old(trace) + es
    {
      trace := trace + es;
    }
  }
}
