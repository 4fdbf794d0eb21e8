/** The bookings list (`Bookings.tsx`): the badge and label rules for one booking. */
module Bookings {
  import opened Wrappers
  import opened Text
  import opened Api

  datatype BadgeVariant = DefaultBadge | SecondaryBadge | DestructiveBadge | OutlineBadge

  /** `getStatusColor`: keyed on the lower-cased status; any unknown status is outlined. */
  function StatusColor(status: string): (v: BadgeVariant)
    ensures v == DefaultBadge <==> Lower(status) == "confirmed"
    ensures v == SecondaryBadge <==> Lower(status) == "pending"
    ensures v == DestructiveBadge <==> Lower(status) == "cancelled"
  {
    match Lower(status)
    case "confirmed" => DefaultBadge
    case "pending" => SecondaryBadge
    case "cancelled" => DestructiveBadge
    case _ => OutlineBadge
  }

  /** The status badge ignores the case the server used. */
  lemma StatusColorIgnoresCase(status: string)
    ensures StatusColor(Upper(status)) == StatusColor(status)
  {
    LowerOfUpper(status);
  }

  /** The position of the first underscore, or the length when there is none. */
  function FirstUnderscore(s: string): (k: nat)
    ensures k <= |s|
    ensures forall j :: 0 <= j < k ==> s[j] != '_'
    ensures k < |s| ==> s[k] == '_'
  {
    if s == [] || s[0] == '_' then 0 else 1 + FirstUnderscore(s[1..])
  }

  /** `payment_method.replace('_', ' ')`: a string pattern, so only the first underscore becomes a space. */
  function PaymentMethodLabel(name: string): (r: string)
    ensures |r| == |name|
    ensures forall i :: 0 <= i < |name| ==> r[i] == (if i == FirstUnderscore(name) then ' ' else name[i])
    ensures '_' !in name ==> r == name
  {
    var k := FirstUnderscore(name);
    if k == |name| then name else name[..k] + " " + name[k + 1..]
  }

  /** A method name with two underscores keeps the second one in its label. */
  lemma SecondUnderscoreKept(name: string, i: int, j: int)
    requires 0 <= i < j < |name| && name[i] == '_' && name[j] == '_'
    ensures '_' in PaymentMethodLabel(name)
  {
    assert PaymentMethodLabel(name)[j] == '_';
  }

  /** The payment badge is the default one only for the exact, lower-case `paid`. */
  function PaymentStatusVariant(paymentStatus: string): (v: BadgeVariant)
    ensures v == DefaultBadge <==> paymentStatus == "paid"
    ensures v != DefaultBadge ==> v == SecondaryBadge
  {
    if paymentStatus == "paid" then DefaultBadge else SecondaryBadge
  }

  /** Unlike the booking status, the payment status is case-sensitive. */
  lemma PaymentStatusIsCaseSensitive()
    ensures PaymentStatusVariant("PAID") == SecondaryBadge && StatusColor("CONFIRMED") == DefaultBadge
  {
    assert Lower("CONFIRMED") == "confirmed";
  }

  /** The add-ons line: the item count and the add-ons total, only for a booking that has add-ons. */
  function AddonsLine(booking: Booking): (line: Option<(nat, real)>)
    ensures line.Some? <==> booking.ancillaryItems != []
    ensures line.Some? ==> line.value.0 == |booking.ancillaryItems| > 0 && line.value.1 == booking.ancillaryTotal
  {
    if |booking.ancillaryItems| > 0 then Some((|booking.ancillaryItems|, booking.ancillaryTotal)) else None
  }

  datatype BookingsView = Spinner | NoBookings | BookingList(cards: seq<Booking>)

  /** The page body: spinner while loading, the empty message, or one card per booking in order. */
  function ViewOf(isLoading: bool, bookings: seq<Booking>): (v: BookingsView)
    ensures v.Spinner? <==> isLoading
    ensures v.NoBookings? <==> !isLoading && bookings == []
    ensures v.BookingList? ==> v.cards == bookings
  {
    if isLoading then Spinner else if bookings == [] then NoBookings else BookingList(bookings)
  }
}
