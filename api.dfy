/** The server's record shapes that the pages read (`api.ts` interfaces); the HTTP client itself is not modelled. */
module Api {
  import opened Wrappers

  datatype Flight = Flight(
    id: int,
    airline: string,
    flightNumber: string,
    origin: string,
    destination: string,
    departureTime: string,
    arrivalTime: string,
    duration: int,
    price: real,
    availableSeats: int,
    cabinClass: string,
    fareFamily: string)

  datatype AncillaryKind = SeatAddon | Baggage | Meal | OtherAddon

  datatype Ancillary = Ancillary(id: int, name: string, kind: AncillaryKind, price: real, description: string)

  datatype PaymentMethod = CreditCard | DebitCard | Wallet

  function PaymentMethodName(m: PaymentMethod): string {
    match m
    case CreditCard => "credit_card"
    case DebitCard => "debit_card"
    case Wallet => "wallet"
  }

  /** A payment offer; `discountType` is an open string (`percentage` and `fixed` are the ones acted on). */
  datatype PaymentOffer = PaymentOffer(
    id: int,
    name: string,
    description: string,
    discountType: string,
    discountValue: real,
    paymentMethods: seq<PaymentMethod>)

  datatype Booking = Booking(
    id: int,
    flightId: int,
    passengers: int,
    totalFare: real,
    ancillaryItems: seq<int>,
    pnr: string,
    status: string,
    createdAt: string,
    paymentStatus: string,
    ancillaryTotal: real,
    paymentMethod: string)

  /** The body of a flight search; `passengers` is `None` where `parseInt` gave `NaN`. */
  datatype FlightSearchRequest = FlightSearchRequest(
    origin: string,
    destination: string,
    departureDate: string,
    returnDate: Option<string>,
    passengers: Option<int>,
    cabinClass: string,
    tripType: string)
}
