/**
 * The web check-in page (`CheckIn`): find a booking by PNR and e-mail, show its
 * seat map, recommend a seat from the passenger's history, and assign a seat
 * with a full refresh of the booking afterwards.
 */
module CheckIn {
  import opened Wrappers
  import opened Text
  import opened Effects

  // ---------------------------------------------------------------- data

  datatype Seat = Seat(
    seatId: string,
    row: int,
    letter: string,
    seatType: string,
    cabinClass: string,
    booked: bool,
    bookingPnr: Option<string>)

  /** The fields of one analytics record that the page reads. */
  datatype Analytics = Analytics(
    totalSpend: Option<real>,
    preferredOrigin: string,
    preferredDestination: string,
    window: int,
    aisle: int)

  datatype CheckinBooking = CheckinBooking(
    pnr: string,
    flightId: int,
    status: string,
    passengers: int,
    totalFare: real,
    checkedIn: Option<bool>,
    selectedSeats: Option<seq<string>>,
    analyticsBookingDetails: Option<seq<Analytics>>)

  /** The object the page reads at `agent_response.response.recommended_seat`. */
  datatype RecommendedSeat = RecommendedSeat(
    seatId: string,
    seatType: string,
    row: int,
    cabinClass: string,
    features: Option<seq<string>>,
    priceUpgrade: Option<real>)

  datatype AgentResult = AgentResult(recommendedSeat: Option<RecommendedSeat>)

  datatype AgentResponse = AgentResponse(error: Option<string>, response: Option<AgentResult>)

  datatype CheckinData = CheckinData(booking: CheckinBooking, seatMap: seq<Seat>, agentResponse: AgentResponse)

  /** What `checkinAPI.selectSeat` resolves to; the page reads only the message. */
  datatype SelectSeatResult = SelectSeatResult(success: bool, message: string)

  // ---------------------------------------------------------------- recommendation

  /** `booking.analytics_booking_details?.[0]`. */
  function FirstAnalytics(b: CheckinBooking): (r: Option<Analytics>)
    ensures r.Some? <==> b.analyticsBookingDetails.Some? && |b.analyticsBookingDetails.value| > 0
  {
    match b.analyticsBookingDetails
    case Some(details) => if |details| > 0 then Some(details[0]) else None
    case None => None
  }

  /** The seat kind the passenger is taken to prefer: a tie goes to the aisle, no history to the window. */
  function PreferredSeatType(analytics: Option<Analytics>): (t: string)
    ensures t == "Window" || t == "Aisle"
    ensures t == "Window" <==> analytics.None? || analytics.value.window > analytics.value.aisle
  {
    match analytics
    case None => "Window"
    case Some(a) => if a.window > a.aisle then "Window" else "Aisle"
  }

  /** The matcher's comparison: seat kinds compared without regard to ASCII case. */
  predicate SameType(seat: Seat, seatType: string) {
    Lower(seat.seatType) == Lower(seatType)
  }

  /** `seat_map.filter(s => !s.booked)`. */
  function Unbooked(seats: seq<Seat>): (r: seq<Seat>)
    ensures |r| <= |seats|
    ensures forall s :: s in r <==> s in seats && !s.booked
    ensures |seats| == 1 ==> r == (if seats[0].booked then [] else seats)
  {
    if seats == [] then []
    else if seats[0].booked then Unbooked(seats[1..])
    else [seats[0]] + Unbooked(seats[1..])
  }

  /** The filter distributes over concatenation, so it keeps the unbooked seats in map order. */
  lemma {:induction false} UnbookedAppend(a: seq<Seat>, b: seq<Seat>)
    ensures Unbooked(a + b) == Unbooked(a) + Unbooked(b)
  {
    if a == [] {
      assert a + b == b;
    } else {
      assert (a + b)[1..] == a[1..] + b;
      UnbookedAppend(a[1..], b);
    }
  }

  /** `availableSeats.find(s => same type)`. */
  function FindOfType(seats: seq<Seat>, seatType: string): (r: Option<Seat>)
    ensures r.Some? ==> r.value in seats && SameType(r.value, seatType)
    ensures r.None? <==> forall s :: s in seats ==> !SameType(s, seatType)
  {
    if seats == [] then None
    else if SameType(seats[0], seatType) then Some(seats[0])
    else FindOfType(seats[1..], seatType)
  }

  /** The seat the upgrade panel recommends (`find(...) || availableSeats[0]`). */
  function RecommendSeat(seatMap: seq<Seat>, seatType: string): (r: Option<Seat>)
    ensures r.Some? ==> r.value in seatMap && !r.value.booked
    ensures r.None? <==> forall s :: s in seatMap ==> s.booked
    ensures r.Some? && SameType(r.value, seatType) ==> r == FindOfType(Unbooked(seatMap), seatType)
  {
    var available := Unbooked(seatMap);
    match FindOfType(available, seatType)
    case Some(s) => Some(s)
    case None => if available == [] then None else Some(available[0])
  }

  /** A seat the recommendation may pick: unbooked and, when a kind is given, of that kind. */
  predicate Fits(seat: Seat, seatType: Option<string>) {
    !seat.booked && (seatType.None? || SameType(seat, seatType.value))
  }

  /** The index of the first seat in map order that `Fits`: the reference definition of the matcher. */
  function FirstFit(seats: seq<Seat>, seatType: Option<string>): (r: Option<nat>)
    ensures r.Some? ==>
      r.value < |seats| && Fits(seats[r.value], seatType) &&
      forall j :: 0 <= j < r.value ==> !Fits(seats[j], seatType)
    ensures r.None? ==> forall j :: 0 <= j < |seats| ==> !Fits(seats[j], seatType)
  {
    if seats == [] then None
    else if Fits(seats[0], seatType) then Some(0)
    else match FirstFit(seats[1..], seatType)
      case None => None
      case Some(i) => Some(i + 1)
  }

  function At(seats: seq<Seat>, i: Option<nat>): Option<Seat> {
    if i.Some? && i.value < |seats| then Some(seats[i.value]) else None
  }

  /** A first seat that does not fit leaves the rest of the map to pick from. */
  lemma FirstFitSkipsHead(seats: seq<Seat>, seatType: Option<string>)
    requires seats != [] && !Fits(seats[0], seatType)
    ensures At(seats, FirstFit(seats, seatType)) == At(seats[1..], FirstFit(seats[1..], seatType))
  {
    var f := FirstFit(seats[1..], seatType);
    if f.Some? {
      assert seats[f.value + 1] == seats[1..][f.value];
    }
  }

  /** Finding a seat of a kind among the unbooked seats finds the first seat that fits that kind. */
  lemma {:induction false} FindInUnbooked(seats: seq<Seat>, seatType: string)
    ensures FindOfType(Unbooked(seats), seatType) == At(seats, FirstFit(seats, Some(seatType)))
  {
    if seats != [] {
      var tail := seats[1..];
      FindInUnbooked(tail, seatType);
      if seats[0].booked {
        assert Unbooked(seats) == Unbooked(tail);
        FirstFitSkipsHead(seats, Some(seatType));
      } else {
        var rest := [seats[0]] + Unbooked(tail);
        assert Unbooked(seats) == rest;
        if !SameType(seats[0], seatType) {
          assert rest[1..] == Unbooked(tail);
          FirstFitSkipsHead(seats, Some(seatType));
        }
      }
    }
  }

  /** The first unbooked seat is the first seat that fits no particular kind; there is none iff none is unbooked. */
  lemma {:induction false} FirstUnbooked(seats: seq<Seat>)
    ensures Unbooked(seats) == [] <==> FirstFit(seats, None).None?
    ensures Unbooked(seats) != [] ==> Some(Unbooked(seats)[0]) == At(seats, FirstFit(seats, None))
  {
    if seats != [] {
      var tail := seats[1..];
      FirstUnbooked(tail);
      if seats[0].booked {
        var f := FirstFit(tail, None);
        if f.Some? {
          assert seats[f.value + 1] == tail[f.value];
        }
      }
    }
  }

  /**
   * The recommended seat is the first unbooked seat, in seat-map order, of the
   * preferred kind; failing that the first unbooked seat; failing that none.
   * In particular it is never a booked seat.
   */
  lemma RecommendedSeatIsFirstFit(seatMap: seq<Seat>, seatType: string)
    ensures var r := RecommendSeat(seatMap, seatType);
      var ofType := FirstFit(seatMap, Some(seatType));
      && (ofType.Some? ==> r == At(seatMap, ofType))
      && (ofType.None? ==> r == At(seatMap, FirstFit(seatMap, None)))
      && (r.None? <==> forall j :: 0 <= j < |seatMap| ==> seatMap[j].booked)
      && (r.Some? ==> r.value in seatMap && !r.value.booked)
  {
    FindInUnbooked(seatMap, seatType);
    FirstUnbooked(seatMap);
    var ofType := FirstFit(seatMap, Some(seatType));
    if ofType.None? && FirstFit(seatMap, None).Some? {
      var i := FirstFit(seatMap, None).value;
      assert Fits(seatMap[i], None);
    }
    if ofType.Some? {
      assert Fits(seatMap[ofType.value], None);
    }
  }

  /** "Only N stretch seats left": unbooked seats whose kind is exactly `window`, case and all. */
  function StretchSeatsLeft(seatMap: seq<Seat>): (n: nat)
    ensures n <= |Unbooked(seatMap)|
  {
    WindowCount(Unbooked(seatMap))
  }

  function WindowCount(seats: seq<Seat>): (n: nat)
    ensures n <= |seats|
  {
    if seats == [] then 0
    else (if seats[0].seatType == "window" then 1 else 0) + WindowCount(seats[1..])
  }

  predicate IsStretchSeat(seat: Seat) {
    !seat.booked && seat.seatType == "window"
  }

  lemma {:induction false} WindowCountAppend(a: seq<Seat>, b: seq<Seat>)
    ensures WindowCount(a + b) == WindowCount(a) + WindowCount(b)
  {
    if a == [] {
      assert a + b == b;
    } else {
      assert (a + b)[1..] == a[1..] + b;
      WindowCountAppend(a[1..], b);
    }
  }

  /**
   * The count adds up over any split of the map, and one seat counts 1 exactly
   * when it is an unbooked `window` seat: together, the count is the number of
   * such seats in the map.
   */
  lemma StretchSeatsAppend(a: seq<Seat>, b: seq<Seat>)
    ensures StretchSeatsLeft(a + b) == StretchSeatsLeft(a) + StretchSeatsLeft(b)
  {
    UnbookedAppend(a, b);
    WindowCountAppend(Unbooked(a), Unbooked(b));
  }

  lemma StretchSeatsOfOne(seat: Seat)
    ensures StretchSeatsLeft([seat]) == (if IsStretchSeat(seat) then 1 else 0)
  {
    assert Unbooked([seat]) == (if seat.booked then [] else [seat]);
  }

  /** The count is the number of map positions holding an unbooked `window` seat. */
  lemma StretchSeatsCount(seatMap: seq<Seat>)
    ensures StretchSeatsLeft(seatMap) == |StretchIndices(seatMap, 0)|
  {
    StretchSeatsCountFrom(seatMap, 0);
    assert seatMap[0..] == seatMap;
  }

  lemma {:induction false} StretchSeatsCountFrom(seatMap: seq<Seat>, i: nat)
    requires i <= |seatMap|
    ensures StretchSeatsLeft(seatMap[i..]) == |StretchIndices(seatMap, i)|
    decreases |seatMap| - i
  {
    if i < |seatMap| {
      StretchSeatsCountFrom(seatMap, i + 1);
      assert seatMap[i..] == [seatMap[i]] + seatMap[i + 1..];
      StretchSeatsAppend([seatMap[i]], seatMap[i + 1..]);
      StretchSeatsOfOne(seatMap[i]);
    }
  }

  /** The positions from `i` on that hold an unbooked `window` seat, ascending. */
  function StretchIndices(seatMap: seq<Seat>, i: nat): (r: seq<nat>)
    requires i <= |seatMap|
    ensures forall k :: 0 <= k < |r| ==> i <= r[k] < |seatMap| && IsStretchSeat(seatMap[r[k]])
    ensures forall j :: i <= j < |seatMap| && IsStretchSeat(seatMap[j]) ==> j in r
    ensures forall k, l :: 0 <= k < l < |r| ==> r[k] < r[l]
    decreases |seatMap| - i
  {
    if i == |seatMap| then []
    else (if IsStretchSeat(seatMap[i]) then [i] else []) + StretchIndices(seatMap, i + 1)
  }

  /** Unlike the matcher, the stretch-seat count is case-sensitive: a lone `Window` seat is recommended but not counted. */
  lemma StretchCountIsCaseSensitive(s: Seat)
    requires !s.booked && s.seatType == "Window"
    ensures RecommendSeat([s], PreferredSeatType(None)) == Some(s)
    ensures StretchSeatsLeft([s]) == 0
  {
    assert Unbooked([s]) == [s];
    assert Lower(s.seatType) == "window";
    assert Lower("Window") == "window";
  }

  /** `Math.round`: halves round up, towards positive infinity. */
  function JsRound(x: real): (n: int)
    ensures x - 0.5 < n as real <= x + 0.5
  {
    (x + 0.5).Floor
  }

  const FallbackPrice := 3200

  /** "Price Today": a twentieth of the historical spend, rounded, or 3200 when there is no (non-zero) spend. */
  function DisplayPrice(analytics: Option<Analytics>): (p: int)
    ensures (analytics.None? || analytics.value.totalSpend.None? || analytics.value.totalSpend == Some(0.0))
            ==> p == FallbackPrice
    ensures analytics.Some? && analytics.value.totalSpend.Some? && analytics.value.totalSpend.value != 0.0
            ==> 20.0 * p as real - 10.0 <= analytics.value.totalSpend.value < 20.0 * p as real + 10.0
  {
    match analytics
    case Some(Analytics(Some(spend), _, _, _, _)) =>
      if spend != 0.0 then JsRound(spend / 20.0) else FallbackPrice
    case _ => FallbackPrice
  }

  /** For a whole-number spend s, `Math.round(s / 20)` is `floor((s + 10) / 20)`. */
  lemma DisplayPriceOfWholeSpend(a: Analytics, s: int)
    requires a.totalSpend == Some(s as real) && s != 0
    ensures DisplayPrice(Some(a)) == (s + 10) / 20
  {
    var p := DisplayPrice(Some(a));
    var q := (s + 10) / 20;
    assert 20 * q <= s + 10 < 20 * q + 20;
    assert 20 * p - 10 <= s < 20 * p + 10 by {
      assert 20.0 * p as real - 10.0 <= s as real < 20.0 * p as real + 10.0;
    }
  }

  /** Everything the "Upgrade your seat" panel shows or acts on. */
  datatype RecommendationPanel = RecommendationPanel(
    origin: string,
    destination: string,
    preferredType: string,
    seatLabel: string,
    stretchSeatsLeft: nat,
    price: int,
    upgradeTarget: Option<string>,
    upgradeDisabled: bool)

  /** `renderAgentRecommendation` for loaded check-in data. */
  function AgentRecommendation(data: CheckinData, selectingSeats: bool): (p: RecommendationPanel)
    ensures var r := RecommendSeat(data.seatMap, p.preferredType);
      && p.preferredType == PreferredSeatType(FirstAnalytics(data.booking))
      && p.upgradeTarget == (if r.Some? then Some(r.value.seatId) else None)
      && (p.upgradeDisabled <==> r.None? || selectingSeats)
      && p.price == DisplayPrice(FirstAnalytics(data.booking))
      && p.stretchSeatsLeft == StretchSeatsLeft(data.seatMap)
  {
    var analytics := FirstAnalytics(data.booking);
    var preferred := PreferredSeatType(analytics);
    var seat := RecommendSeat(data.seatMap, preferred);
    RecommendationPanel(
      if analytics.Some? && analytics.value.preferredOrigin != "" then analytics.value.preferredOrigin else "N/A",
      if analytics.Some? && analytics.value.preferredDestination != "" then analytics.value.preferredDestination else "N/A",
      preferred,
      if seat.Some? && seat.value.seatId != "" then seat.value.seatId else "N/A",
      StretchSeatsLeft(data.seatMap),
      DisplayPrice(analytics),
      if seat.Some? then Some(seat.value.seatId) else None,
      seat.None? || selectingSeats)
  }

  // ---------------------------------------------------------------- seat map

  predicate StrictlyAscending(xs: seq<int>) {
    forall i, j :: 0 <= i < j < |xs| ==> xs[i] < xs[j]
  }

  /** Insert a row number into an ascending list of distinct row numbers. */
  function InsertRow(r: int, rows: seq<int>): (res: seq<int>)
    requires StrictlyAscending(rows)
    ensures StrictlyAscending(res)
    ensures forall x :: x in res <==> x == r || x in rows
  {
    if rows == [] then [r]
    else if r < rows[0] then [r] + rows
    else if r == rows[0] then rows
    else
      var rest := InsertRow(r, rows[1..]);
      var res := [rows[0]] + rest;
      forall i, j | 0 <= i < j < |res|
        ensures res[i] < res[j]
      {
        assert res[j] == rest[j - 1] && rest[j - 1] in rest;
        if i > 0 {
          assert res[i] == rest[i - 1];
        }
      }
      res
  }

  /** `[...new Set(seats.map(s => s.row))].sort((a, b) => a - b)`. */
  function RowNumbers(seats: seq<Seat>): (rows: seq<int>)
    ensures StrictlyAscending(rows)
    ensures forall i :: 0 <= i < |seats| ==> seats[i].row in rows
    ensures forall r :: r in rows ==> exists i :: 0 <= i < |seats| && seats[i].row == r
  {
    if seats == [] then []
    else
      var rest := RowNumbers(seats[1..]);
      var rows := InsertRow(seats[0].row, rest);
      assert forall r :: r in rest ==> exists i :: 0 <= i < |seats| && seats[i].row == r by {
        forall r | r in rest ensures exists i :: 0 <= i < |seats| && seats[i].row == r {
          var k :| 0 <= k < |seats[1..]| && seats[1..][k].row == r;
          assert seats[k + 1].row == r;
        }
      }
      rows
  }

  /** `seats.filter(s => s.row === row)`. */
  function SeatsInRow(seats: seq<Seat>, row: int): (r: seq<Seat>)
    ensures forall s :: s in r <==> s in seats && s.row == row
  {
    if seats == [] then []
    else if seats[0].row == row then [seats[0]] + SeatsInRow(seats[1..], row)
    else SeatsInRow(seats[1..], row)
  }

  datatype SeatRow = SeatRow(row: int, seats: seq<Seat>)

  function RowsFor(rows: seq<int>, seats: seq<Seat>): (r: seq<SeatRow>)
    ensures |r| == |rows|
    ensures forall j :: 0 <= j < |rows| ==> r[j] == SeatRow(rows[j], SeatsInRow(seats, rows[j]))
  {
    if rows == [] then [] else [SeatRow(rows[0], SeatsInRow(seats, rows[0]))] + RowsFor(rows[1..], seats)
  }

  /** The rows of `renderSeatMap`, each with its seats. */
  function SeatMapRows(seats: seq<Seat>): (r: seq<SeatRow>)
    ensures forall j :: 0 <= j < |r| ==> r[j].seats != []
    ensures forall j :: 0 <= j < |r| ==> forall s :: s in r[j].seats <==> s in seats && s.row == r[j].row
    ensures forall i :: 0 <= i < |seats| ==> exists j :: 0 <= j < |r| && r[j].row == seats[i].row
  {
    var rows := RowNumbers(seats);
    var res := RowsFor(rows, seats);
    forall j | 0 <= j < |res|
      ensures res[j].seats != []
    {
      assert rows[j] in rows;
      var i :| 0 <= i < |seats| && seats[i].row == rows[j];
      assert seats[i] in res[j].seats;
    }
    forall i | 0 <= i < |seats|
      ensures exists j :: 0 <= j < |res| && res[j].row == seats[i].row
    {
      var j :| 0 <= j < |rows| && rows[j] == seats[i].row;
      assert res[j].row == seats[i].row;
    }
    res
  }

  function Flatten(rows: seq<SeatRow>): seq<Seat> {
    if rows == [] then [] else rows[0].seats + Flatten(rows[1..])
  }

  /** Seats whose row is in `rows`, in map order. */
  function SeatsInRows(seats: seq<Seat>, rows: set<int>): seq<Seat> {
    if seats == [] then []
    else if seats[0].row in rows then [seats[0]] + SeatsInRows(seats[1..], rows)
    else SeatsInRows(seats[1..], rows)
  }

  lemma {:induction false} SeatsInRowsSplit(seats: seq<Seat>, r: int, rows: set<int>)
    requires r !in rows
    ensures multiset(SeatsInRow(seats, r)) + multiset(SeatsInRows(seats, rows))
         == multiset(SeatsInRows(seats, rows + {r}))
  {
    if seats != [] {
      SeatsInRowsSplit(seats[1..], r, rows);
    }
  }

  /** The first of an ascending list of row numbers is not among the later ones. */
  lemma AscendingHeadIsFresh(rows: seq<int>)
    requires StrictlyAscending(rows) && rows != []
    ensures rows[0] !in (set r | r in rows[1..])
  {
    forall x | x in rows[1..]
      ensures rows[0] < x
    {
      var k :| 0 <= k < |rows[1..]| && rows[1..][k] == x;
      assert rows[k + 1] == x;
    }
  }

  lemma {:induction false} FlattenCovers(rows: seq<int>, seats: seq<Seat>)
    requires StrictlyAscending(rows)
    ensures multiset(Flatten(RowsFor(rows, seats))) == multiset(SeatsInRows(seats, set r | r in rows))
  {
    if rows == [] {
      assert (set r | r in rows) == {};
      SeatsInRowsEmpty(seats);
    } else {
      var rest := rows[1..];
      assert StrictlyAscending(rest);
      FlattenCovers(rest, seats);
      AscendingHeadIsFresh(rows);
      SeatsInRowsSplit(seats, rows[0], set r | r in rest);
      assert (set r | r in rest) + {rows[0]} == (set r | r in rows);
      var fr := RowsFor(rows, seats);
      assert fr[1..] == RowsFor(rest, seats);
      assert Flatten(fr) == fr[0].seats + Flatten(fr[1..]);
      assert fr[0].seats == SeatsInRow(seats, rows[0]);
    }
  }

  lemma {:induction false} SeatsInRowsEmpty(seats: seq<Seat>)
    ensures SeatsInRows(seats, {}) == []
  {
    if seats != [] {
      SeatsInRowsEmpty(seats[1..]);
    }
  }

  lemma {:induction false} SeatsInAllRows(seats: seq<Seat>, rows: set<int>)
    requires forall i :: 0 <= i < |seats| ==> seats[i].row in rows
    ensures SeatsInRows(seats, rows) == seats
  {
    if seats != [] {
      SeatsInAllRows(seats[1..], rows);
    }
  }

  /**
   * The seat map's rows are the distinct row numbers in ascending order, and
   * together they hold every seat exactly as often as the map does.
   */
  lemma SeatMapRowsPartition(seats: seq<Seat>)
    ensures var rows := SeatMapRows(seats);
      && (forall i, j :: 0 <= i < j < |rows| ==> rows[i].row < rows[j].row)
      && (forall j :: 0 <= j < |rows| ==> forall s :: s in rows[j].seats ==> s in seats && s.row == rows[j].row)
      && multiset(Flatten(rows)) == multiset(seats)
  {
    var numbers := RowNumbers(seats);
    FlattenCovers(numbers, seats);
    SeatsInAllRows(seats, set r | r in numbers);
  }

  /** A row lists its seats in map order: filtering distributes over concatenation. */
  lemma {:induction false} SeatsInRowKeepsOrder(a: seq<Seat>, b: seq<Seat>, row: int)
    ensures SeatsInRow(a + b, row) == SeatsInRow(a, row) + SeatsInRow(b, row)
  {
    if a == [] {
      assert a + b == b;
    } else {
      assert (a + b)[1..] == a[1..] + b;
      SeatsInRowKeepsOrder(a[1..], b, row);
    }
  }

  datatype SeatLook = BookedLook | SelectedLook | AvailableLook

  datatype SeatButton = SeatButton(seatId: string, caption: string, disabled: bool, look: SeatLook)

  /** One seat's button: disabled while booked or while a selection is in flight. */
  function SeatButtonOf(seat: Seat, selectingSeats: bool, selectedSeats: Option<seq<string>>): (b: SeatButton)
    ensures b.seatId == seat.seatId && b.caption == seat.letter
    ensures b.disabled <==> seat.booked || selectingSeats
    ensures b.look == BookedLook <==> seat.booked
    ensures b.look == SelectedLook <==> !seat.booked && selectedSeats.Some? && seat.seatId in selectedSeats.value
  {
    SeatButton(seat.seatId, seat.letter, seat.booked || selectingSeats,
      if seat.booked then BookedLook
      else if selectedSeats.Some? && seat.seatId in selectedSeats.value then SelectedLook
      else AvailableLook)
  }

  // ---------------------------------------------------------------- popup

  /**
   * The "Upgrade Price" slot of the dialog under `price_upgrade && (...)`: nothing
   * for a missing price, a bare `0` text node for a price of 0, else the price line.
   */
  datatype UpgradeLine = NoUpgradeLine | StrayZero | UpgradePrice(price: real)

  /** What the recommendation dialog shows. */
  datatype PopupView = PopupView(seatId: string, seatType: string, row: int, cabinClass: string,
                                 features: seq<string>, upgrade: UpgradeLine)

  function RecommendedSeatOf(data: CheckinData): Option<RecommendedSeat> {
    match data.agentResponse.response
    case Some(result) => result.recommendedSeat
    case None => None
  }

  /** `renderRecommendationPopup`: the dialog exists only for a recommended seat, and is visible while `open`. */
  function RecommendationPopup(data: Option<CheckinData>, open: bool): (v: Option<PopupView>)
    ensures v.Some? <==> open && data.Some? && RecommendedSeatOf(data.value).Some?
    ensures v.Some? ==> v.value.seatId == RecommendedSeatOf(data.value).value.seatId
    ensures v.Some? ==> var s := RecommendedSeatOf(data.value).value;
      && v.value.seatType == s.seatType && v.value.row == s.row && v.value.cabinClass == s.cabinClass
      && (s.features.Some? ==> v.value.features == s.features.value)
      && (s.features.None? ==> v.value.features == [])
      && (v.value.upgrade.NoUpgradeLine? <==> s.priceUpgrade.None?)
      && (v.value.upgrade.StrayZero? <==> s.priceUpgrade == Some(0.0))
      && (v.value.upgrade.UpgradePrice? ==> v.value.upgrade.price == s.priceUpgrade.value && v.value.upgrade.price != 0.0)
  {
    if !open || data.None? then None
    else match RecommendedSeatOf(data.value)
      case None => None
      case Some(s) =>
        Some(PopupView(s.seatId, s.seatType, s.row, s.cabinClass,
          if s.features.Some? then s.features.value else [],
          match s.priceUpgrade
          case None => NoUpgradeLine
          case Some(p) => if p == 0.0 then StrayZero else UpgradePrice(p)))
  }

  // ---------------------------------------------------------------- the page

  datatype PageState = PageState(
    pnr: string,
    email: string,
    loading: bool,
    selectingSeats: bool,
    checkinData: Option<CheckinData>,
    selectedSeat: Option<string>,
    showRecommendationPopup: bool)

  class CheckInPage {
    var pnr: string
    var email: string
    var loading: bool
    var selectingSeats: bool
    var checkinData: Option<CheckinData>
    var selectedSeat: Option<string>
    var showRecommendationPopup: bool
    /** The page's state as seen by a render during each await. */
    ghost var pending: seq<PageState>

    function State(): PageState
      reads this
    {
      PageState(pnr, email, loading, selectingSeats, checkinData, selectedSeat, showRecommendationPopup)
    }

    constructor ()
      ensures State() == PageState("", "", false, false, None, None, false) && pending == []
    {
      pnr, email, loading, selectingSeats := "", "", false, false;
      checkinData, selectedSeat, showRecommendationPopup := None, None, false;
      pending := [];
    }

    /** The PNR field upper-cases what is typed. */
    method SetPnr(value: string)
      modifies this`pnr
      ensures pnr == Upper(value)
    {
      pnr := Upper(value);
    }

    method SetEmail(value: string)
      modifies this`email
      ensures email == value
    {
      email := value;
    }

    /** The "Web Check-in" button is disabled while loading or when both fields are empty. */
    function FindDisabled(): (d: bool)
      reads this
      ensures loading ==> d
      ensures !loading ==> (d <==> pnr == "" && email == "")
    {
      loading || (pnr == "" && email == "")
    }

    /**
     * `handleFindBooking`: without a credential only a toast; otherwise one
     * lookup, whose result replaces the data, or whose failure leaves it alone.
     * The dialog is opened only for a recommended seat.
     */
    method HandleFindBooking(token: Option<string>, reply: Reply<CheckinData>, env: Env)
      modifies this, env
      ensures !HasToken(token) ==>
        State() == old(State()) && pending == old(pending) &&
        env.trace == old(env.trace) + [Toast("Please login first", None, true)]
      ensures HasToken(token) ==>
        && pnr == old(pnr) && email == old(email) && !loading
        && selectingSeats == old(selectingSeats) && selectedSeat == old(selectedSeat)
        && pending == old(pending) + [old(State()).(loading := true)]
        && checkinData == (if reply.Ok? then Some(reply.value) else old(checkinData))
        && showRecommendationPopup ==
             (old(showRecommendationPopup) || (reply.Ok? && RecommendedSeatOf(reply.value).Some?))
        && env.trace == old(env.trace) + [Request(CheckinFind(old(pnr), old(email)))] +
             (match reply
              case Ok(d) => [Toast("Booking found!", Some("PNR: " + d.booking.pnr), false)]
              case Err(f) => [Toast("Booking not found", Some(DetailOr(f, "Please check your PNR and email")), true)])
    {
      if !HasToken(token) {
        env.Emit(Toast("Please login first", None, true));
        return;
      }
      loading := true;
      pending := pending + [State()];
      env.Emit(Request(CheckinFind(pnr, email)));
      match reply {
        case Ok(data) =>
          checkinData := Some(data);
          env.Emit(Toast("Booking found!", Some("PNR: " + data.booking.pnr), false));
          if RecommendedSeatOf(data).Some? {
            showRecommendationPopup := true;
          }
        case Err(f) =>
          env.Emit(Toast("Booking not found", Some(DetailOr(f, "Please check your PNR and email")), true));
      }
      loading := false;
    }

    /**
     * `handleSeatSelect`: nothing without data or a credential. Otherwise the
     * seat is marked and selection is in flight while the assignment and the
     * refresh are out; only when both succeed is the data replaced, wholesale,
     * by the refreshed booking. `selectedSeat` is not reset on failure.
     */
    method HandleSeatSelect(seatId: string, token: Option<string>, select: Reply<SelectSeatResult>,
                            refresh: Reply<CheckinData>, env: Env)
      modifies this, env
      ensures old(checkinData).None? || !HasToken(token) ==>
        State() == old(State()) && pending == old(pending) && env.trace == old(env.trace)
      ensures old(checkinData).Some? && HasToken(token) ==>
        var booking := old(checkinData).value.booking;
        var busy := old(State()).(selectingSeats := true, selectedSeat := Some(seatId));
        && pnr == old(pnr) && email == old(email) && loading == old(loading)
        && showRecommendationPopup == old(showRecommendationPopup)
        && !selectingSeats && selectedSeat == Some(seatId)
        && checkinData == (if select.Ok? && refresh.Ok? then Some(refresh.value) else old(checkinData))
        && pending == old(pending) + [busy] + (if select.Ok? then [busy] else [])
        && env.trace == old(env.trace) + [Request(SelectSeat(booking.pnr, booking.flightId, seatId))] +
             (match select
              case Err(f) => [Toast("Failed to select seat", Some(DetailOr(f, "Please try again")), true)]
              case Ok(result) =>
                [Toast("Seat selected!", Some(result.message), false), Request(CheckinFind(old(pnr), old(email)))] +
                (match refresh
                 case Ok(_) => []
                 case Err(f) => [Toast("Failed to select seat", Some(DetailOr(f, "Please try again")), true)]))
    {
      if checkinData.None? {
        return;
      }
      if !HasToken(token) {
        return;
      }
      var booking := checkinData.value.booking;
      selectingSeats := true;
      selectedSeat := Some(seatId);
      pending := pending + [State()];
      env.Emit(Request(SelectSeat(booking.pnr, booking.flightId, seatId)));
      match select {
        case Err(f) =>
          env.Emit(Toast("Failed to select seat", Some(DetailOr(f, "Please try again")), true));
        case Ok(result) =>
          env.Emit(Toast("Seat selected!", Some(result.message), false));
          pending := pending + [State()];
          env.Emit(Request(CheckinFind(pnr, email)));
          match refresh {
            case Ok(updated) =>
              checkinData := Some(updated);
            case Err(f) =>
              env.Emit(Toast("Failed to select seat", Some(DetailOr(f, "Please try again")), true));
          }
      }
      selectingSeats := false;
    }

    /** "Upgrade Now": selects the recommended seat, if there is one. */
    method UpgradeNow(token: Option<string>, select: Reply<SelectSeatResult>, refresh: Reply<CheckinData>, env: Env)
      requires checkinData.Some?
      modifies this, env
      ensures var target := AgentRecommendation(old(checkinData).value, old(selectingSeats)).upgradeTarget;
        target.None? ==> State() == old(State()) && pending == old(pending) && env.trace == old(env.trace)
      ensures var target := AgentRecommendation(old(checkinData).value, old(selectingSeats)).upgradeTarget;
        target.Some? && HasToken(token) ==> selectedSeat == target && !selectingSeats
    {
      var panel := AgentRecommendation(checkinData.value, selectingSeats);
      if panel.upgradeTarget.Some? {
        HandleSeatSelect(panel.upgradeTarget.value, token, select, refresh, env);
      }
    }

    /** "Choose Later", or closing the dialog. */
    method CloseRecommendationPopup()
      modifies this`showRecommendationPopup
      ensures !showRecommendationPopup
    {
      showRecommendationPopup := false;
    }

    /**
     * "Select This Seat" in the dialog. The click handler starts `handleSeatSelect`
     * without awaiting it and closes the dialog in the same synchronous step, so
     * every render during the seat requests already sees the dialog closed.
     */
    method SelectRecommendedSeat(token: Option<string>, select: Reply<SelectSeatResult>,
                                 refresh: Reply<CheckinData>, env: Env)
      requires checkinData.Some? && RecommendedSeatOf(checkinData.value).Some?
      modifies this, env
      ensures !showRecommendationPopup
      ensures forall k :: |old(pending)| <= k < |pending| ==> !pending[k].showRecommendationPopup
      ensures HasToken(token) ==>
        var busy := old(State()).(showRecommendationPopup := false, selectingSeats := true,
                                  selectedSeat := Some(RecommendedSeatOf(old(checkinData).value).value.seatId));
        && State() == busy.(selectingSeats := false, checkinData := checkinData)
        && pending == old(pending) + [busy] + (if select.Ok? then [busy] else [])
        && checkinData == (if select.Ok? && refresh.Ok? then Some(refresh.value) else old(checkinData))
      ensures !HasToken(token) ==>
        State() == old(State()).(showRecommendationPopup := false) && pending == old(pending) &&
        env.trace == old(env.trace)
    {
      var seatId := RecommendedSeatOf(checkinData.value).value.seatId;
      CloseRecommendationPopup();
      HandleSeatSelect(seatId, token, select, refresh, env);
    }

    /** "Check Another Booking": back to the empty lookup form. */
    method CheckAnotherBooking()
      modifies this`checkinData, this`pnr, this`email
      ensures checkinData.None? && pnr == "" && email == ""
    {
      checkinData := None;
      pnr := "";
      email := "";
    }
  }

  /** While a seat request is out, every seat button is disabled, so no second attempt can start. */
  lemma InFlightDisablesEverySeat(state: PageState, seat: Seat)
    requires state.selectingSeats
    ensures SeatButtonOf(seat, state.selectingSeats,
              if state.checkinData.Some? then state.checkinData.value.booking.selectedSeats else None).disabled
  {
  }
}
