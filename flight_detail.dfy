/**
 * The flight detail and add-ons page (`FlightDetail.tsx`): the booking
 * total with its payment-offer discount, the ancillary selection, the offer
 * list, and the page state that the add-ons widget, the checkboxes and the
 * offer cards change.
 */
module FlightDetail {
  import opened Wrappers
  import opened Text
  import opened Api
  import opened Effects
  import opened AIWidget

  // ---------------------------------------------------------------------------
  // Ancillary selection
  // ---------------------------------------------------------------------------

  /** `prev.filter(id => id !== x)`: every occurrence of `x` goes, the rest stay in order. */
  function RemoveAll(xs: seq<int>, x: int): (r: seq<int>)
    ensures x !in r
    ensures forall y :: y != x ==> (y in r <==> y in xs)
    ensures |r| <= |xs|
  {
    if xs == [] then []
    else (if xs[0] == x then [] else [xs[0]]) + RemoveAll(xs[1..], x)
  }

  /** Filtering distributes over concatenation, so the surviving ids keep their relative order. */
  lemma {:induction false} RemoveAllAppend(a: seq<int>, b: seq<int>, x: int)
    ensures RemoveAll(a + b, x) == RemoveAll(a, x) + RemoveAll(b, x)
    decreases |a|
  {
    if a == [] {
      assert a + b == b;
    } else {
      var head := if a[0] == x then [] else [a[0]];
      assert (a + b)[0] == a[0];
      assert (a + b)[1..] == a[1..] + b;
      RemoveAllAppend(a[1..], b, x);
      calc {
        RemoveAll(a + b, x);
        head + RemoveAll(a[1..] + b, x);
        head + (RemoveAll(a[1..], x) + RemoveAll(b, x));
        (head + RemoveAll(a[1..], x)) + RemoveAll(b, x);
        RemoveAll(a, x) + RemoveAll(b, x);
      }
    }
  }

  /** Removing an id that is not there changes nothing. */
  lemma {:induction false} RemoveAllOfAbsent(xs: seq<int>, x: int)
    requires x !in xs
    ensures RemoveAll(xs, x) == xs
    decreases |xs|
  {
    if xs != [] {
      assert xs == [xs[0]] + xs[1..];
      RemoveAllOfAbsent(xs[1..], x);
    }
  }

  /** `toggleAncillary`: a selected id is removed (all its copies), an unselected one is appended. */
  function Toggle(xs: seq<int>, x: int): (r: seq<int>)
    ensures x in r <==> x !in xs
    ensures forall y :: y != x ==> (y in r <==> y in xs)
    ensures x !in xs ==> r == xs + [x]
    ensures x in xs ==> r == RemoveAll(xs, x)
  {
    if x in xs then RemoveAll(xs, x) else xs + [x]
  }

  /** Ticking an unticked box and unticking it again restores the selection exactly. */
  lemma ToggleTwiceRestores(xs: seq<int>, x: int)
    requires x !in xs
    ensures Toggle(Toggle(xs, x), x) == xs
  {
    RemoveAllAppend(xs, [x], x);
    RemoveAllOfAbsent(xs, x);
  }

  /** Starting from a ticked box the round trip is not the identity: the id moves to the end, once. */
  lemma ToggleTwiceFromSelected(xs: seq<int>, x: int)
    requires x in xs
    ensures Toggle(Toggle(xs, x), x) == RemoveAll(xs, x) + [x]
  {
  }

  // ---------------------------------------------------------------------------
  // Booking arithmetic
  // ---------------------------------------------------------------------------

  /** The ancillaries' filter-and-sum: the price of every listed ancillary whose id is selected. */
  function AncillaryTotal(ancillaries: seq<Ancillary>, selected: seq<int>): (t: real)
    ensures (forall k :: 0 <= k < |ancillaries| ==> ancillaries[k].id !in selected) ==> t == 0.0
    ensures (forall k :: 0 <= k < |ancillaries| ==> ancillaries[k].price >= 0.0) ==> t >= 0.0
  {
    if ancillaries == [] then 0.0
    else (if ancillaries[0].id in selected then ancillaries[0].price else 0.0)
         + AncillaryTotal(ancillaries[1..], selected)
  }

  /** The summed price of the listed ancillaries that carry a given id. */
  function PriceOfId(ancillaries: seq<Ancillary>, id: int): real
  {
    if ancillaries == [] then 0.0
    else (if ancillaries[0].id == id then ancillaries[0].price else 0.0) + PriceOfId(ancillaries[1..], id)
  }

  /** The ancillary sum depends only on which ids are selected, not on order or repetition. */
  lemma {:induction false} AncillaryTotalBySelectedSet(ancillaries: seq<Ancillary>, a: seq<int>, b: seq<int>)
    requires forall id :: id in a <==> id in b
    ensures AncillaryTotal(ancillaries, a) == AncillaryTotal(ancillaries, b)
    decreases |ancillaries|
  {
    if ancillaries != [] {
      AncillaryTotalBySelectedSet(ancillaries[1..], a, b);
    }
  }

  /** Ticking an id adds the price of the ancillaries with that id to the sum; unticking takes it off. */
  lemma {:induction false} ToggleChangesAncillaryTotal(ancillaries: seq<Ancillary>, selected: seq<int>, id: int)
    ensures id !in selected ==>
      AncillaryTotal(ancillaries, Toggle(selected, id)) == AncillaryTotal(ancillaries, selected) + PriceOfId(ancillaries, id)
    ensures id in selected ==>
      AncillaryTotal(ancillaries, Toggle(selected, id)) == AncillaryTotal(ancillaries, selected) - PriceOfId(ancillaries, id)
    decreases |ancillaries|
  {
    if ancillaries != [] {
      ToggleChangesAncillaryTotal(ancillaries[1..], selected, id);
    }
  }

  /** The booking subtotal: fare times passengers plus the selected ancillaries. */
  function Subtotal(flight: Flight, passengers: int, ancillaries: seq<Ancillary>, selected: seq<int>): real
  {
    flight.price * passengers as real + AncillaryTotal(ancillaries, selected)
  }

  /** `paymentOffers.find(o => o.id === id)`: the first offer with that id. */
  function FindOffer(offers: seq<PaymentOffer>, id: int): (r: Option<PaymentOffer>)
    ensures r.None? <==> forall o :: o in offers ==> o.id != id
    ensures r.Some? ==> r.value in offers && r.value.id == id
    ensures r.Some? ==> exists k :: 0 <= k < |offers| && offers[k] == r.value && forall j :: 0 <= j < k ==> offers[j].id != id
  {
    if offers == [] then None
    else if offers[0].id == id then Some(offers[0])
    else
      var rest := FindOffer(offers[1..], id);
      assert rest.Some? ==> exists k :: 0 <= k < |offers[1..]| && offers[1..][k] == rest.value && forall j :: 0 <= j < k ==> offers[1..][j].id != id;
      assert rest.Some? ==> exists k :: 0 <= k < |offers| && offers[k] == rest.value && forall j :: 0 <= j < k ==> offers[j].id != id by {
        if rest.Some? {
          var k :| 0 <= k < |offers[1..]| && offers[1..][k] == rest.value && forall j :: 0 <= j < k ==> offers[1..][j].id != id;
          assert offers[k + 1] == rest.value;
          assert forall j :: 0 <= j < k + 1 ==> offers[j].id != id by {
            forall j | 0 <= j < k + 1 ensures offers[j].id != id {
              if j > 0 { assert offers[j] == offers[1..][j - 1]; }
            }
          }
        }
      }
      rest
  }

  /** `amount * rate / 100`, the share a percentage offer takes off. */
  function PercentOf(amount: real, rate: real): real {
    amount * rate / 100.0
  }

  /** A selected offer counts only when the id is truthy: `null` and `0` both mean none. */
  predicate OfferChosen(selectedOffer: Option<int>) {
    selectedOffer.Some? && selectedOffer.value != 0
  }

  /** The offer `calculateTotal` applies, if any. */
  function AppliedOffer(offers: seq<PaymentOffer>, selectedOffer: Option<int>): (r: Option<PaymentOffer>)
    ensures r.Some? <==> OfferChosen(selectedOffer) && exists o :: o in offers && o.id == selectedOffer.value
    ensures r.Some? ==> r.value in offers && r.value.id == selectedOffer.value
  {
    if OfferChosen(selectedOffer) then FindOffer(offers, selectedOffer.value) else None
  }

  /**
   * `calculateTotal`: zero without a flight; otherwise the subtotal, less the
   * applied offer's discount when that offer is a percentage or a fixed one.
   * A fixed discount is not clamped, so the total can go below zero.
   */
  function CalculateTotal(flight: Option<Flight>, passengers: int, ancillaries: seq<Ancillary>, selected: seq<int>,
                          offers: seq<PaymentOffer>, selectedOffer: Option<int>): (t: real)
    ensures flight.None? ==> t == 0.0
    ensures flight.Some? ==>
      var sub := Subtotal(flight.value, passengers, ancillaries, selected);
      var offer := AppliedOffer(offers, selectedOffer);
      && (offer.Some? && offer.value.discountType == "percentage" ==>
            t == sub - PercentOf(sub, offer.value.discountValue))
      && (offer.Some? && offer.value.discountType == "fixed" ==> t == sub - offer.value.discountValue)
      && (offer.None? || offer.value.discountType !in {"percentage", "fixed"} ==> t == sub)
  {
    match flight
    case None => 0.0
    case Some(f) =>
      var sub := Subtotal(f, passengers, ancillaries, selected);
      match AppliedOffer(offers, selectedOffer)
      case None => sub
      case Some(o) =>
        if o.discountType == "percentage" then sub - PercentOf(sub, o.discountValue)
        else if o.discountType == "fixed" then sub - o.discountValue
        else sub
  }

  /** An offer whose id is 0 never discounts: the id is falsy, so the offer block is skipped. */
  lemma OfferWithIdZeroNeverApplies(flight: Flight, passengers: int, ancillaries: seq<Ancillary>, selected: seq<int>,
                                    offers: seq<PaymentOffer>)
    ensures CalculateTotal(Some(flight), passengers, ancillaries, selected, offers, Some(0))
         == Subtotal(flight, passengers, ancillaries, selected)
  {
  }

  /** A fixed offer worth more than the subtotal drives the total below zero. */
  lemma FixedOfferCanGoNegative(flight: Flight, passengers: int, ancillaries: seq<Ancillary>, selected: seq<int>,
                                offers: seq<PaymentOffer>, id: int)
    requires id != 0
    requires FindOffer(offers, id).Some? && FindOffer(offers, id).value.discountType == "fixed"
    requires FindOffer(offers, id).value.discountValue > Subtotal(flight, passengers, ancillaries, selected)
    ensures CalculateTotal(Some(flight), passengers, ancillaries, selected, offers, Some(id)) < 0.0
  {
  }

  /**
   * The "Discount" line of the summary, before `toFixed`: absent unless an
   * offer id is chosen; a percentage offer shows its share of the subtotal,
   * any other found offer its raw value, and an unknown id shows 0.
   */
  function DiscountLine(flight: Flight, passengers: int, ancillaries: seq<Ancillary>, selected: seq<int>,
                        offers: seq<PaymentOffer>, selectedOffer: Option<int>): (d: Option<real>)
    ensures d.Some? <==> OfferChosen(selectedOffer)
    ensures OfferChosen(selectedOffer) && FindOffer(offers, selectedOffer.value).None? ==> d == Some(0.0)
  {
    if !OfferChosen(selectedOffer) then None
    else
      var sub := Subtotal(flight, passengers, ancillaries, selected);
      match FindOffer(offers, selectedOffer.value)
      case None => Some(0.0)
      case Some(o) => if o.discountType == "percentage" then Some(PercentOf(sub, o.discountValue)) else Some(o.discountValue)
  }

  /** For percentage and fixed offers the discount shown is exactly what the total takes off. */
  lemma DiscountLineMatchesTotal(flight: Flight, passengers: int, ancillaries: seq<Ancillary>, selected: seq<int>,
                                 offers: seq<PaymentOffer>, selectedOffer: Option<int>)
    requires AppliedOffer(offers, selectedOffer).Some?
    requires AppliedOffer(offers, selectedOffer).value.discountType in {"percentage", "fixed"}
    ensures DiscountLine(flight, passengers, ancillaries, selected, offers, selectedOffer)
         == Some(Subtotal(flight, passengers, ancillaries, selected)
                 - CalculateTotal(Some(flight), passengers, ancillaries, selected, offers, selectedOffer))
  {
    assert FindOffer(offers, selectedOffer.value) == AppliedOffer(offers, selectedOffer);
  }

  /** An offer of any other kind is still shown as a discount, but the total ignores it. */
  lemma OtherDiscountShownButNotApplied(flight: Flight, passengers: int, ancillaries: seq<Ancillary>, selected: seq<int>,
                                        offers: seq<PaymentOffer>, selectedOffer: Option<int>)
    requires AppliedOffer(offers, selectedOffer).Some?
    requires AppliedOffer(offers, selectedOffer).value.discountType !in {"percentage", "fixed"}
    ensures DiscountLine(flight, passengers, ancillaries, selected, offers, selectedOffer)
         == Some(AppliedOffer(offers, selectedOffer).value.discountValue)
    ensures CalculateTotal(Some(flight), passengers, ancillaries, selected, offers, selectedOffer)
         == Subtotal(flight, passengers, ancillaries, selected)
  {
  }

  // ---------------------------------------------------------------------------
  // Offers, bundle, passengers, view
  // ---------------------------------------------------------------------------

  /** The offer cards listed: those that accept the current payment method, in their original order. */
  function VisibleOffers(offers: seq<PaymentOffer>, pm: PaymentMethod): (r: seq<PaymentOffer>)
    ensures forall o :: o in r <==> o in offers && pm in o.paymentMethods
    ensures |r| <= |offers|
  {
    if offers == [] then []
    else (if pm in offers[0].paymentMethods then [offers[0]] else []) + VisibleOffers(offers[1..], pm)
  }

  /** The offer filter distributes over concatenation, so it keeps the list order. */
  lemma {:induction false} VisibleOffersAppend(a: seq<PaymentOffer>, b: seq<PaymentOffer>, pm: PaymentMethod)
    ensures VisibleOffers(a + b, pm) == VisibleOffers(a, pm) + VisibleOffers(b, pm)
    decreases |a|
  {
    if a == [] {
      assert a + b == b;
    } else {
      assert (a + b)[0] == a[0];
      assert (a + b)[1..] == a[1..] + b;
      VisibleOffersAppend(a[1..], b, pm);
    }
  }

  /** Clicking an offer card: the selected one is deselected, any other becomes the selection. */
  function OfferClick(selectedOffer: Option<int>, id: int): (r: Option<int>)
    ensures r == Some(id) <==> selectedOffer != Some(id)
    ensures r.None? <==> selectedOffer == Some(id)
  {
    if selectedOffer == Some(id) then None else Some(id)
  }

  /** Two clicks on one card restore the selection only if that card or none was selected. */
  lemma OfferClickTwice(selectedOffer: Option<int>, id: int)
    ensures OfferClick(OfferClick(selectedOffer, id), id) == (if selectedOffer == Some(id) then selectedOffer else None)
  {
  }

  /** The `apply_bundle` selection: the ids of the first three listed ancillaries (fewer if fewer are listed). */
  function BundleIds(ancillaries: seq<Ancillary>): (r: seq<int>)
    ensures |r| == (if |ancillaries| < 3 then |ancillaries| else 3)
    ensures forall i :: 0 <= i < |r| ==> r[i] == ancillaries[i].id
  {
    var n := if |ancillaries| < 3 then |ancillaries| else 3;
    seq(n, i requires 0 <= i < n => ancillaries[i].id)
  }

  /** After a bundle is applied, each of the first three ancillaries is ticked. */
  lemma BundleTicksLeadingAncillaries(ancillaries: seq<Ancillary>, a: Ancillary)
    requires a in ancillaries[..(if |ancillaries| < 3 then |ancillaries| else 3)]
    ensures a.id in BundleIds(ancillaries)
  {
    var n := if |ancillaries| < 3 then |ancillaries| else 3;
    var k :| 0 <= k < n && ancillaries[..n][k] == a;
    assert BundleIds(ancillaries)[k] == a.id;
  }

  /** The passengers field: `parseInt(value) || 1`, so a non-number or zero gives 1. */
  function PassengersFrom(raw: string): (n: int)
    ensures n != 0
    ensures ParseInt(raw) == Some(n) || (n == 1 && (ParseInt(raw).None? || ParseInt(raw) == Some(0)))
  {
    match ParseInt(raw)
    case Some(v) => if v != 0 then v else 1
    case None => 1
  }

  /** A typed positive count is taken as is. */
  lemma PassengersFromNumeral(k: nat)
    requires k >= 1
    ensures PassengersFrom(NatToString(k)) == k
  {
    ParseIntOfNatToString(k);
  }

  /** A typed negative count is taken as is too; only zero and non-numbers fall back to 1. */
  lemma PassengersFromNegative(k: nat)
    requires k >= 1
    ensures PassengersFrom("-" + NatToString(k)) == -(k as int)
  {
    ParseIntNegative(k);
  }

  /** What the page shows. */
  datatype DetailView = Spinner | NotFound(addonsWidget: bool) | PaymentStep | Details

  /** The page's render branches, in order: spinner, not found (with the widget unless paying), payment, details. */
  function ViewOf(isLoading: bool, flight: Option<Flight>, showPayment: bool): (v: DetailView)
    ensures v == NotFound(true) <==> !isLoading && flight.None? && !showPayment
    ensures v == PaymentStep <==> !isLoading && flight.Some? && showPayment
    ensures v.Spinner? <==> isLoading
  {
    if isLoading then Spinner
    else if flight.None? then NotFound(!showPayment)
    else if showPayment then PaymentStep
    else Details
  }

  /** The three loads issued together. */
  datatype DetailsData = DetailsData(flight: Flight, ancillaries: seq<Ancillary>, offers: seq<PaymentOffer>)

  /** What a render of the detail page sees. */
  datatype DetailState = DetailState(
    flight: Option<Flight>, ancillaries: seq<Ancillary>, selectedAncillaries: seq<int>, passengers: int,
    paymentMethod: PaymentMethod, paymentOffers: seq<PaymentOffer>, selectedOffer: Option<int>,
    showPayment: bool, isLoading: bool, isBooking: bool)

  const BundleToast := Toast("Bundle Applied", Some("Recommended add-ons have been selected for you!"), false)

  class FlightDetailPage {
    /** The `:id` route parameter. */
    const routeId: Option<string>
    /** The `useAIWidget('addons')` instance. */
    const widget: WidgetHook
    var flight: Option<Flight>
    var ancillaries: seq<Ancillary>
    var selectedAncillaries: seq<int>
    var passengers: int
    var paymentMethod: PaymentMethod
    var paymentOffers: seq<PaymentOffer>
    var selectedOffer: Option<int>
    var showPayment: bool
    var isLoading: bool
    var isBooking: bool
    /** The states rendered while the loads were outstanding, oldest first. */
    ghost var pending: seq<DetailState>

    constructor (routeId: Option<string>)
      ensures this.routeId == routeId
      ensures fresh(widget) && widget.currentPage == "addons" && widget.widgetConfig.None?
      ensures flight.None? && ancillaries == [] && selectedAncillaries == [] && passengers == 1
      ensures paymentMethod == CreditCard && paymentOffers == [] && selectedOffer.None?
      ensures !showPayment && isLoading && !isBooking && pending == []
    {
      this.routeId := routeId;
      widget := new WidgetHook("addons");
      flight, ancillaries, selectedAncillaries, passengers := None, [], [], 1;
      paymentMethod, paymentOffers, selectedOffer := CreditCard, [], None;
      showPayment, isLoading, isBooking := false, true, false;
      pending := [];
    }

    function State(): DetailState
      reads this
    {
      DetailState(flight, ancillaries, selectedAncillaries, passengers, paymentMethod, paymentOffers,
                  selectedOffer, showPayment, isLoading, isBooking)
    }

    function Total(): real
      reads this
    {
      CalculateTotal(flight, passengers, ancillaries, selectedAncillaries, paymentOffers, selectedOffer)
    }

    function View(): DetailView
      reads this
    {
      ViewOf(isLoading, flight, showPayment)
    }

    /**
     * `loadFlightDetails`: without a credential or a route id nothing happens
     * and the spinner stays; otherwise the three loads go out together and
     * either all three results are stored or a failure toast is shown.
     */
    method LoadFlightDetails(token: Option<string>, reply: Reply<DetailsData>, env: Env)
      modifies this`flight, this`ancillaries, this`paymentOffers, this`isLoading, this`pending, env
      ensures !HasToken(token) || !(routeId.Some? && routeId.value != "") ==>
        flight == old(flight) && ancillaries == old(ancillaries) && paymentOffers == old(paymentOffers)
        && isLoading == old(isLoading) && pending == old(pending) && env.trace == old(env.trace)
      ensures forall k :: |old(pending)| <= k < |pending| ==>
        ViewOf(pending[k].isLoading, pending[k].flight, pending[k].showPayment) == Spinner
      ensures HasToken(token) && (routeId.Some? && routeId.value != "") ==>
        && pending == old(pending) + [old(State()).(isLoading := true)]
        && !isLoading
        && flight == (if reply.Ok? then Some(reply.value.flight) else old(flight))
        && ancillaries == (if reply.Ok? then reply.value.ancillaries else old(ancillaries))
        && paymentOffers == (if reply.Ok? then reply.value.offers else old(paymentOffers))
        && env.trace == old(env.trace)
             + [Request(GetFlight(ParseInt(routeId.value))), Request(GetAncillaries), Request(GetPaymentOffers)]
             + (if reply.Err? then [Toast("Failed to load flight details", Some(DetailOr(reply.failure, "Please try again")), true)]
                else [])
    {
      if !HasToken(token) || !(routeId.Some? && routeId.value != "") {
        return;
      }
      isLoading := true;
      env.EmitAll([Request(GetFlight(ParseInt(routeId.value))), Request(GetAncillaries), Request(GetPaymentOffers)]);
      pending := pending + [State()];
      match reply {
        case Ok(data) =>
          flight := Some(data.flight);
          ancillaries := data.ancillaries;
          paymentOffers := data.offers;
        case Err(f) =>
          env.Emit(Toast("Failed to load flight details", Some(DetailOr(f, "Please try again")), true));
      }
      isLoading := false;
    }

    /** A checkbox: only the selection changes, and the total moves by that ancillary's price. */
    method ToggleAncillary(id: int)
      modifies this`selectedAncillaries
      ensures selectedAncillaries == Toggle(old(selectedAncillaries), id)
      ensures flight.Some? && id !in old(selectedAncillaries) ==>
        Subtotal(flight.value, passengers, ancillaries, selectedAncillaries)
          == Subtotal(flight.value, passengers, ancillaries, old(selectedAncillaries)) + PriceOfId(ancillaries, id)
    {
      ToggleChangesAncillaryTotal(ancillaries, selectedAncillaries, id);
      selectedAncillaries := Toggle(selectedAncillaries, id);
    }

    /**
     * `onWidgetAction`: every token is acknowledged and dismisses the widget;
     * `apply_bundle` then selects the leading three ancillaries and confirms
     * with a toast, `skip_addons` moves on to payment.
     */
    method OnWidgetAction(action: string, env: Env)
      modifies widget`widgetConfig, this`selectedAncillaries, this`showPayment, env
      ensures widget.widgetConfig.None?
      ensures selectedAncillaries == (if action == "apply_bundle" then BundleIds(ancillaries) else old(selectedAncillaries))
      ensures showPayment == (action == "skip_addons" || old(showPayment))
      ensures env.trace == old(env.trace) + CTAEffects(action) + (if action == "apply_bundle" then [BundleToast] else [])
    {
      var _ := widget.HandleCTAAction(action, env);
      if action == "apply_bundle" {
        selectedAncillaries := BundleIds(ancillaries);
        env.Emit(BundleToast);
      } else if action == "skip_addons" {
        showPayment := true;
      }
    }

    /** An offer card click. */
    method ClickOffer(id: int)
      modifies this`selectedOffer
      ensures selectedOffer == OfferClick(old(selectedOffer), id)
    {
      selectedOffer := OfferClick(selectedOffer, id);
    }

    /**
     * The payment-method select. An offer that the new method hides stays
     * selected, so the total does not change.
     */
    method SetPaymentMethod(m: PaymentMethod)
      modifies this`paymentMethod
      ensures paymentMethod == m && Total() == old(Total())
    {
      paymentMethod := m;
    }

    /** The passengers input. */
    method SetPassengers(raw: string)
      modifies this`passengers
      ensures passengers == PassengersFrom(raw)
    {
      passengers := PassengersFrom(raw);
    }

    /** "Proceed to Payment". */
    method ProceedToPayment()
      modifies this`showPayment
      ensures showPayment
    {
      showPayment := true;
    }

    /** The payment step's back button. */
    method BackFromPayment()
      modifies this`showPayment
      ensures !showPayment
    {
      showPayment := false;
    }
  }
}
