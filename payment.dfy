/**
 * The payment step (`PaymentGatewayWithAI.tsx`): the card-number, expiry and
 * CVV input formatters, the payment-widget actions that switch the parent
 * page's payment method, and the form state.
 */
module PaymentGateway {
  import opened Wrappers
  import opened Text
  import opened Api
  import opened Effects
  import opened AIWidget
  import opened FlightDetail

  function Min(a: int, b: int): int {
    if a < b then a else b
  }

  // ---------------------------------------------------------------------------
  // Card number
  // ---------------------------------------------------------------------------

  /** `match(/.{1,4}/g).join(' ')`: runs of four characters, the last one possibly shorter, separated by single spaces. */
  function Group(c: string): (g: string)
    ensures |c| == 0 ==> g == []
    ensures |c| > 0 ==> |g| == |c| + (|c| - 1) / 4
    decreases |c|
  {
    if |c| <= 4 then c else c[..4] + " " + Group(c[4..])
  }

  /** Grouped text over a space-free input has a space exactly at every fifth position. */
  lemma {:induction false} GroupSpaces(c: string)
    requires forall i :: 0 <= i < |c| ==> !IsWhitespace(c[i])
    ensures forall i :: 0 <= i < |Group(c)| ==> (Group(c)[i] == ' ' <==> i % 5 == 4)
    decreases |c|
  {
    if |c| > 4 {
      GroupSpaces(c[4..]);
      var g := Group(c);
      assert g == c[..4] + " " + Group(c[4..]);
      forall i | 0 <= i < |g|
        ensures g[i] == ' ' <==> i % 5 == 4
      {
        if i < 4 {
          assert g[i] == c[i];
        } else if i > 4 {
          assert g[i] == Group(c[4..])[i - 5];
        }
      }
    }
  }

  /** Taking the separators out again gives back the grouped text. */
  lemma {:induction false} GroupStrip(c: string)
    requires forall i :: 0 <= i < |c| ==> !IsWhitespace(c[i])
    ensures StripWhitespace(Group(c)) == c
    decreases |c|
  {
    if |c| <= 4 {
      StripWhitespaceOfClean(c);
    } else {
      GroupStrip(c[4..]);
      StripWhitespaceAppend(c[..4] + " ", Group(c[4..]));
      StripWhitespaceAppend(c[..4], " ");
      StripWhitespaceOfClean(c[..4]);
      assert c[..4] + c[4..] == c;
    }
  }

  /** The first `5k-1` characters of the grouping are the grouping of the first `4k` characters. */
  lemma {:induction false} GroupTake(c: string, k: nat)
    requires k >= 1 && |c| > 4 * k
    ensures |Group(c)| > 5 * k - 1
    ensures Group(c)[..5 * k - 1] == Group(c[..4 * k])
    decreases k
  {
    var head := c[..4 * k];
    assert head[..4] == c[..4];
    if k > 1 {
      GroupTake(c[4..], k - 1);
      assert c[4..][..4 * (k - 1)] == c[4..4 * k] == head[4..];
      calc {
        Group(c)[..5 * k - 1];
        (c[..4] + " " + Group(c[4..]))[..5 * k - 1];
        c[..4] + " " + Group(c[4..])[..5 * (k - 1) - 1];
        c[..4] + " " + Group(head[4..]);
        Group(head);
      }
    }
  }

  /**
   * `formatCardNumber`: whitespace is removed, the rest grouped in fours and
   * cut to 19 characters. An empty input has no match, and falls back to
   * the (empty) cleaned text.
   */
  function FormatCardNumber(value: string): (r: string)
    ensures |r| <= 19
  {
    var cleaned := StripWhitespace(value);
    var formatted := if cleaned == [] then cleaned else Group(cleaned);
    formatted[..Min(19, |formatted|)]
  }

  /** The formatted number is the grouping of the first 16 non-whitespace characters. */
  lemma CardNumberIsGroupedPrefix(value: string)
    ensures var cleaned := StripWhitespace(value);
      FormatCardNumber(value) == Group(cleaned[..Min(16, |cleaned|)])
  {
    var cleaned := StripWhitespace(value);
    if |cleaned| > 16 {
      GroupTake(cleaned, 4);
    } else {
      assert cleaned[..|cleaned|] == cleaned;
    }
  }

  /** Below 19, the positions of every fifth character are 4, 9 and 14. */
  lemma SpaceSlots(i: int)
    requires 0 <= i < 19
    ensures i % 5 == 4 <==> i == 4 || i == 9 || i == 14
  {
  }

  /** The card field has spaces at positions 4, 9 and 14 and nowhere else. */
  lemma CardNumberSpaces(value: string)
    ensures var r := FormatCardNumber(value);
      forall i :: 0 <= i < |r| ==> (r[i] == ' ' <==> i == 4 || i == 9 || i == 14)
  {
    var cleaned := StripWhitespace(value);
    var t := cleaned[..Min(16, |cleaned|)];
    CardNumberIsGroupedPrefix(value);
    var r := FormatCardNumber(value);
    assert r == Group(t);
    GroupSpaces(t);
    forall i | 0 <= i < |r|
      ensures r[i] == ' ' <==> i == 4 || i == 9 || i == 14
    {
      SpaceSlots(i);
    }
  }

  /**
   * What the card field shows: at most 19 characters, spaces at positions 4,
   * 9 and 14 and nowhere else, and with those spaces taken out a prefix of
   * what was typed minus its whitespace (letters and symbols included).
   */
  lemma CardNumberShape(value: string)
    ensures var r := FormatCardNumber(value);
      && (forall i :: 0 <= i < |r| ==> (r[i] == ' ' <==> i == 4 || i == 9 || i == 14))
      && StripWhitespace(r) == StripWhitespace(value)[..Min(16, |StripWhitespace(value)|)]
  {
    CardNumberSpaces(value);
    var cleaned := StripWhitespace(value);
    var t := cleaned[..Min(16, |cleaned|)];
    CardNumberIsGroupedPrefix(value);
    GroupStrip(t);
  }

  /** Reformatting the field's own text on the next keystroke leaves it as it is. */
  lemma CardNumberIdempotent(value: string)
    ensures FormatCardNumber(FormatCardNumber(value)) == FormatCardNumber(value)
  {
    var cleaned := StripWhitespace(value);
    var t := cleaned[..Min(16, |cleaned|)];
    CardNumberIsGroupedPrefix(value);
    GroupStrip(t);
    CardNumberIsGroupedPrefix(FormatCardNumber(value));
    assert t[..Min(16, |t|)] == t;
  }

  // ---------------------------------------------------------------------------
  // Expiry date and CVV
  // ---------------------------------------------------------------------------

  /** `formatExpiryDate`: digits only; from two digits on, `MM/` followed by at most two more. */
  function FormatExpiryDate(value: string): (r: string)
    ensures |r| <= 5
    ensures forall i :: 0 <= i < |r| ==> (IsDigit(r[i]) || (i == 2 && r[i] == '/'))
    ensures |DigitsOnly(value)| < 2 ==> r == DigitsOnly(value)
    ensures |DigitsOnly(value)| >= 2 ==> |r| >= 3 && r[2] == '/'
  {
    var cleaned := DigitsOnly(value);
    if |cleaned| >= 2 then cleaned[..2] + "/" + cleaned[2..Min(4, |cleaned|)] else cleaned
  }

  /** The digits of `a/b`, for digit-only `a` and `b`, are `a + b`: the slash drops out. */
  lemma DigitsAroundSlash(a: string, b: string)
    requires forall i :: 0 <= i < |a| ==> IsDigit(a[i])
    requires forall i :: 0 <= i < |b| ==> IsDigit(b[i])
    ensures DigitsOnly(a + "/" + b) == a + b
  {
    var slash: string := "/";
    assert !IsDigit(slash[0]) && slash[1..] == [];
    assert DigitsOnly(slash) == [];
    DigitsOnlyAppend(a, slash);
    DigitsOnlyOfDigits(a);
    assert DigitsOnly(a + slash) == a;
    DigitsOnlyAppend(a + slash, b);
    DigitsOnlyOfDigits(b);
  }

  /** The digits of the formatted date are the first four digits typed. */
  lemma ExpiryKeepsLeadingDigits(value: string)
    ensures var cleaned := DigitsOnly(value);
      DigitsOnly(FormatExpiryDate(value)) == cleaned[..Min(4, |cleaned|)]
  {
    var cleaned := DigitsOnly(value);
    if |cleaned| >= 2 {
      ExpiryDigitsWithSlash(value, cleaned);
    } else {
      DigitsOnlyOfDigits(cleaned);
      assert cleaned[..|cleaned|] == cleaned;
    }
  }

  lemma ExpiryDigitsWithSlash(value: string, cleaned: string)
    requires cleaned == DigitsOnly(value) && |cleaned| >= 2
    ensures DigitsOnly(FormatExpiryDate(value)) == cleaned[..Min(4, |cleaned|)]
  {
    var m := Min(4, |cleaned|);
    var head, rest := cleaned[..2], cleaned[2..m];
    assert FormatExpiryDate(value) == head + "/" + rest;
    DigitsAroundSlash(head, rest);
    assert head + rest == cleaned[..m];
  }

  /** Reformatting the field's own text leaves it as it is. */
  lemma ExpiryIdempotent(value: string)
    ensures FormatExpiryDate(FormatExpiryDate(value)) == FormatExpiryDate(value)
  {
    var cleaned := DigitsOnly(value);
    var d := cleaned[..Min(4, |cleaned|)];
    ExpiryKeepsLeadingDigits(value);
    assert DigitsOnly(FormatExpiryDate(value)) == d;
    if |cleaned| >= 2 {
      assert d[..2] == cleaned[..2];
      assert d[2..Min(4, |d|)] == cleaned[2..Min(4, |cleaned|)];
    }
  }

  /** The CVV field: digits only, at most the first four. */
  function SanitizeCvv(value: string): (r: string)
    ensures |r| <= 4
    ensures forall i :: 0 <= i < |r| ==> IsDigit(r[i])
    ensures |r| <= |DigitsOnly(value)| && r == DigitsOnly(value)[..|r|]
    ensures |DigitsOnly(value)| >= 4 ==> |r| == 4
  {
    var cleaned := DigitsOnly(value);
    cleaned[..Min(4, |cleaned|)]
  }

  /** Re-sanitising the field's own text leaves it as it is. */
  lemma CvvIdempotent(value: string)
    ensures SanitizeCvv(SanitizeCvv(value)) == SanitizeCvv(value)
  {
    var r := SanitizeCvv(value);
    DigitsOnlyOfDigits(r);
    assert r[..|r|] == r;
  }

  // ---------------------------------------------------------------------------
  // Payment method
  // ---------------------------------------------------------------------------

  /** The method a payment-widget token selects: UPI and wallet offers pick the wallet, a card offer the credit card. */
  function MethodAfterAction(action: string, current: PaymentMethod): (m: PaymentMethod)
    ensures action == "upi_offer" || action == "wallet_offer" ==> m == Wallet
    ensures action == "card_offer" ==> m == CreditCard
    ensures action !in {"upi_offer", "wallet_offer", "card_offer"} ==> m == current
  {
    if action == "upi_offer" || action == "wallet_offer" then Wallet
    else if action == "card_offer" then CreditCard
    else current
  }

  /** Which form is shown: the card fields for either card, the wallet field for the wallet. */
  function CardFormShown(m: PaymentMethod): bool {
    m == CreditCard || m == DebitCard
  }

  function WalletFormShown(m: PaymentMethod): bool {
    m == Wallet
  }

  /** Exactly one of the two forms is on screen for every method. */
  lemma ExactlyOneForm(m: PaymentMethod)
    ensures CardFormShown(m) != WalletFormShown(m)
  {
  }

  class PaymentStep {
    /** The booking page that owns the payment method and the total. */
    const parent: FlightDetailPage
    /** The `useAIWidget('payment')` instance. */
    const widget: WidgetHook
    var cardNumber: string
    var cardName: string
    var expiryDate: string
    var cvv: string
    var walletId: string

    constructor (parent: FlightDetailPage)
      ensures this.parent == parent && fresh(widget) && widget.currentPage == "payment" && widget.widgetConfig.None?
      ensures cardNumber == "" && cardName == "" && expiryDate == "" && cvv == "" && walletId == ""
    {
      this.parent := parent;
      widget := new WidgetHook("payment");
      cardNumber, cardName, expiryDate, cvv, walletId := "", "", "", "", "";
    }

    /**
     * `onWidgetAction`: the token is acknowledged and the widget dismissed,
     * then the parent's payment method may switch; the total does not move.
     */
    method OnWidgetAction(action: string, env: Env)
      modifies widget`widgetConfig, parent`paymentMethod, env
      ensures widget.widgetConfig.None?
      ensures parent.paymentMethod == MethodAfterAction(action, old(parent.paymentMethod))
      ensures parent.Total() == old(parent.Total())
      ensures env.trace == old(env.trace) + CTAEffects(action)
    {
      var _ := widget.HandleCTAAction(action, env);
      if action == "upi_offer" || action == "wallet_offer" {
        parent.SetPaymentMethod(Wallet);
      } else if action == "card_offer" {
        parent.SetPaymentMethod(CreditCard);
      }
    }

    /** A radio button of the method group. */
    method ChooseMethod(m: PaymentMethod)
      modifies parent`paymentMethod
      ensures parent.paymentMethod == m
    {
      parent.SetPaymentMethod(m);
    }

    method EnterCardNumber(value: string)
      modifies this`cardNumber
      ensures cardNumber == FormatCardNumber(value)
    {
      cardNumber := FormatCardNumber(value);
    }

    method EnterCardName(value: string)
      modifies this`cardName
      ensures cardName == value
    {
      cardName := value;
    }

    method EnterExpiryDate(value: string)
      modifies this`expiryDate
      ensures expiryDate == FormatExpiryDate(value)
    {
      expiryDate := FormatExpiryDate(value);
    }

    method EnterCvv(value: string)
      modifies this`cvv
      ensures cvv == SanitizeCvv(value)
    {
      cvv := SanitizeCvv(value);
    }

    method EnterWalletId(value: string)
      modifies this`walletId
      ensures walletId == value
    {
      walletId := value;
    }

    /** "Back to booking", disabled while the booking is being made. */
    method Back()
      modifies parent`showPayment
      ensures parent.showPayment == (old(parent.showPayment) && parent.isBooking)
    {
      if !parent.isBooking {
        parent.BackFromPayment();
      }
    }
  }
}
