/**
 * The quantity selector and "Add to Cart" button of
 * `components/shared/product/add-to-cart.tsx`: a quantity that never drops
 * below 1, the payload handed to `addItemToCart`, the loading and added flags
 * around that call, the toast it raises, and the button's label.
 *
 * `addItemToCart` itself is not part of this model: its outcome is the
 * `succeeded` argument of `FinishAdd`.
 */
module AddToCartForm {
  import opened Wrappers
  import opened JsText
  import opened JsNumber
  import opened Toasts

  /** The `item` prop; the price is a whole number of cents. */
  datatype ItemInfo = ItemInfo(productId: string, name: string, slug: string, priceCents: int, image: string)

  /** The argument of `addItemToCart`. */
  datatype CartPayload = CartPayload(productId: string, name: string, slug: string, price: string, qty: int, image: string)

  const SuccessMessage := "Added to cart successfully!"
  const FailureMessage := "Failed to add to cart. Please try again."
  const LoadingLabel := "Adding to Cart..."
  const AddedLabel := "Added to Cart!"
  /** The separator between "Add to Cart" and the price, byte for byte as the source file spells it. */
  const LabelSeparator := "\U{E2}\U{20AC}\U{A2}"

  function Max(a: int, b: int): (m: int)
    ensures m >= a && m >= b && (m == a || m == b)
  {
    if a >= b then a else b
  }

  /** `Math.max(1, quantity + change)` */
  function Clamped(quantity: int, change: int): (q: int)
    ensures q >= 1
    ensures quantity + change >= 1 ==> q == quantity + change
    ensures quantity + change < 1 ==> q == 1
  {
    Max(1, quantity + change)
  }

  /** "+" then "-" gives back any reachable quantity; "-" at 1 stays at 1. */
  lemma PlusMinusRestores(q: int)
    requires q >= 1
    ensures Clamped(Clamped(q, 1), -1) == q
    ensures Clamped(q, -1) == q - 1 || q == 1
    ensures Clamped(1, -1) == 1
  {
  }

  // ---------------------------------------------------------------------------
  // `Number.parseInt` on the input's text

  /** The white space `parseInt` skips in front of the number. */
  function DropSpaces(s: string): (r: string)
    ensures |r| <= |s| && r == s[|s| - |r|..]
    ensures r == [] || !IsSpace(r[0])
  {
    if s != [] && IsSpace(s[0]) then DropSpaces(s[1..]) else s
  }

  /** The longest prefix of decimal digits. */
  function LeadingDigits(s: string): (r: string)
    ensures AllDigits(r) && StartsWith(s, r)
    ensures |r| < |s| ==> !IsDigit(s[|r|])
  {
    if s != [] && IsDigit(s[0]) then [s[0]] + LeadingDigits(s[1..]) else ""
  }

  /** Digits followed by the end or by a non-digit are the whole leading run. */
  lemma {:induction false} LeadingDigitsThen(d: string, rest: string)
    requires AllDigits(d)
    requires rest == "" || !IsDigit(rest[0])
    ensures LeadingDigits(d + rest) == d
  {
    if d != [] {
      assert (d + rest)[0] == d[0] && (d + rest)[1..] == d[1..] + rest;
      LeadingDigitsThen(d[1..], rest);
    }
  }

  /**
   * `Number.parseInt(s)`: skip leading white space, read an optional sign and
   * then the longest run of decimal digits; no digit at all is NaN (`None`).
   */
  function ParseInt(s: string): (v: Option<int>)
    ensures v.None? <==> LeadingDigits(UnsignedPart(DropSpaces(s))) == ""
  {
    var t := DropSpaces(s);
    var d := LeadingDigits(UnsignedPart(t));
    if d == "" then None
    else if |t| > 0 && t[0] == '-' then Some(-(DigitsValue(d) as int))
    else Some(DigitsValue(d))
  }

  /** The text after an optional leading sign. */
  function UnsignedPart(t: string): (r: string)
    ensures r == t || (|t| > 0 && r == t[1..] && (t[0] == '-' || t[0] == '+'))
  {
    if |t| > 0 && (t[0] == '-' || t[0] == '+') then t[1..] else t
  }

  /**
   * `parseInt` reads the decimal text of any natural number, with or without
   * a minus sign, and stops at the first character that is not a digit:
   * "2.5" gives 2, "-2.5" gives -2 and "1e3" gives 1.
   */
  lemma ParseIntOfNat(n: nat, rest: string)
    requires rest == "" || !IsDigit(rest[0])
    ensures ParseInt(NatToString(n) + rest) == Some(n)
    ensures ParseInt("-" + NatToString(n) + rest) == Some(-(n as int))
  {
    var s := NatToString(n);
    var t := s + rest;
    assert t[0] == s[0];
    ParseIntOfDigits(s, rest, t);
    var m := "-" + s + rest;
    assert m == "-" + t && m[1..] == t;
    ParseIntOfDigits(s, rest, m);
  }

  /** The sign and the digits of `t` are found where they were written. */
  lemma ParseIntOfDigits(d: string, rest: string, t: string)
    requires d != "" && AllDigits(d)
    requires rest == "" || !IsDigit(rest[0])
    requires t == d + rest || (t != "" && t[0] == '-' && t[1..] == d + rest)
    ensures ParseInt(t) == Some(if t[0] == '-' then -(DigitsValue(d) as int) else DigitsValue(d))
  {
    LeadingDigitsThen(d, rest);
    assert t[0] == '-' || t[0] == d[0];
    assert !IsSpace(t[0]);
    assert DropSpaces(t) == t;
    assert UnsignedPart(t) == d + rest;
  }

  /**
   * The input's `onChange`: `Math.max(1, Number.parseInt(value) || 1)`.  Text
   * without digits, zero and negative numbers all become 1.
   */
  function QuantityFromInput(text: string): (q: int)
    ensures q >= 1
    ensures ParseInt(text).None? ==> q == 1
    ensures ParseInt(text).Some? && ParseInt(text).value <= 0 ==> q == 1
    ensures ParseInt(text).Some? && ParseInt(text).value >= 1 ==> q == ParseInt(text).value
  {
    var parsed := match ParseInt(text) case None => 1 case Some(n) => if n == 0 then 1 else n;
    Max(1, parsed)
  }

  /** The field shows `quantity`; reading that text back gives the same quantity. */
  lemma InputRoundTrip(q: int)
    requires q >= 1
    ensures QuantityFromInput(NatToString(q)) == q
  {
    ParseIntOfNat(q, "");
    assert NatToString(q) + "" == NatToString(q);
  }

  /**
   * Typed text that starts with a number: a positive whole part is kept and
   * anything after it ignored, while zero or a negative number resets the
   * field to 1; so does text without digits.
   */
  lemma QuantityOfNumberText(n: nat, rest: string)
    requires rest == "" || !IsDigit(rest[0])
    ensures QuantityFromInput(NatToString(n) + rest) == if n == 0 then 1 else n
    ensures QuantityFromInput("-" + NatToString(n) + rest) == 1
  {
    ParseIntOfNat(n, rest);
  }

  /** "2.5" becomes 2: the fraction is not read. */
  lemma DecimalInput()
    ensures QuantityFromInput("2.5") == 2
  {
    QuantityOfNumberText(2, ".5");
    assert NatToString(2) + ".5" == "2.5";
  }

  /** "-2.5" becomes 1. */
  lemma NegativeDecimalInput()
    ensures QuantityFromInput("-2.5") == 1
  {
    ParseIntOfDigits("2", ".5", "-2.5");
  }

  /** "1e3" becomes 1: the exponent is not read. */
  lemma ExponentInput()
    ensures QuantityFromInput("1e3") == 1
  {
    QuantityOfNumberText(1, "e3");
    assert NatToString(1) + "e3" == "1e3";
  }

  /** The payload for the current quantity: the item's fields, the price as `String(price)`. */
  function Payload(item: ItemInfo, quantity: int): (p: CartPayload)
    ensures p.productId == item.productId && p.name == item.name && p.slug == item.slug && p.image == item.image
    ensures p.qty == quantity
    ensures ParseDecimal(p.price) == Some(item.priceCents as real / 100.0)
  {
    ParseCentsToString(item.priceCents);
    CartPayload(item.productId, item.name, item.slug, CentsToString(item.priceCents), quantity, item.image)
  }

  /** The label of the main button, by priority: loading, added, then the line total. */
  function ButtonLabel(isLoading: bool, isAdded: bool, priceCents: int, quantity: int): (s: string)
    ensures isLoading ==> s == LoadingLabel
    ensures !isLoading && isAdded ==> s == AddedLabel
    ensures !isLoading && !isAdded ==>
      s == "Add to Cart " + LabelSeparator + " $" + FixedTwo(priceCents * quantity) &&
      ParseDecimal(s[|"Add to Cart " + LabelSeparator + " $"|..]) == Some((priceCents * quantity) as real / 100.0)
  {
    if isLoading then LoadingLabel
    else if isAdded then AddedLabel
    else
      var prefix := "Add to Cart " + LabelSeparator + " $";
      var s := prefix + FixedTwo(priceCents * quantity);
      assert s[|prefix|..] == FixedTwo(priceCents * quantity);
      ParseFixedTwo(priceCents * quantity);
      s
  }

  class AddToCart {
    const item: ItemInfo
    const toasts: ToastList
    var quantity: int
    var isLoading: bool
    var isAdded: bool

    /** The quantity is at least 1 and the toast list is well formed. */
    predicate Valid()
      reads this, toasts, toasts.counter
    {
      quantity >= 1 && toasts.Valid()
    }

    constructor(item: ItemInfo, toasts: ToastList)
      requires toasts.Valid()
      ensures this.item == item && this.toasts == toasts
      ensures quantity == 1 && !isLoading && !isAdded
      ensures Valid()
    {
      this.item := item;
      this.toasts := toasts;
      quantity := 1;
      isLoading := false;
      isAdded := false;
    }

    /** The minus button is disabled at quantity 1 or below. */
    predicate MinusDisabled()
      reads this
    {
      quantity <= 1
    }

    /** In a valid state the minus button is disabled exactly at quantity 1, where "-" would change nothing. */
    lemma MinusDisabledAtOne()
      requires Valid()
      ensures MinusDisabled() <==> quantity == 1
      ensures MinusDisabled() ==> Clamped(quantity, -1) == quantity
    {
    }

    /** The main button is disabled while loading and while showing "Added". */
    predicate AddDisabled()
      reads this
    {
      isLoading || isAdded
    }

    /** The main button is disabled exactly when its label is not the price label. */
    lemma DisabledIffNoPriceLabel()
      ensures AddDisabled() <==>
        ButtonLabel(isLoading, isAdded, item.priceCents, quantity) in {LoadingLabel, AddedLabel}
    {
      var s := ButtonLabel(isLoading, isAdded, item.priceCents, quantity);
      if !AddDisabled() {
        assert s[3] == ' ';
        assert LoadingLabel[3] == 'i' && AddedLabel[3] == 'e';
      }
    }

    /** `handleQuantityChange(change)`, used with -1 and +1 by the two buttons. */
    method ChangeQuantity(change: int)
      requires Valid()
      modifies this
      ensures Valid()
      ensures quantity == Clamped(old(quantity), change)
      ensures isLoading == old(isLoading) && isAdded == old(isAdded)
    {
      quantity := Clamped(quantity, change);
    }

    /** The input's `onChange` with the field's text. */
    method SetQuantityFromInput(text: string)
      requires Valid()
      modifies this
      ensures Valid()
      ensures quantity == QuantityFromInput(text)
      ensures isLoading == old(isLoading) && isAdded == old(isAdded)
    {
      quantity := QuantityFromInput(text);
    }

    /** `handleAddToCart` up to the call: sets the loading flag and returns the payload. */
    method BeginAdd() returns (payload: CartPayload)
      requires Valid()
      modifies this
      ensures Valid()
      ensures isLoading && isAdded == old(isAdded) && quantity == old(quantity)
      ensures AddDisabled()
      ensures payload == Payload(item, quantity)
    {
      isLoading := true;
      payload := Payload(item, quantity);
    }

    /**
     * `handleAddToCart` after the call: on success the added flag is set, a
     * default toast is raised and the flag's reset is scheduled; on failure a
     * destructive toast is raised.  Either way the loading flag is cleared.
     */
    method FinishAdd(succeeded: bool) returns (resetScheduled: bool)
      requires Valid()
      modifies this, toasts, toasts.counter
      ensures Valid()
      ensures !isLoading
      ensures isAdded == (succeeded || old(isAdded))
      ensures AddDisabled() <==> isAdded
      ensures quantity == old(quantity)
      ensures resetScheduled == succeeded
      ensures |toasts.toasts| == |old(toasts.toasts)| + 1
      ensures toasts.toasts[..|old(toasts.toasts)|] == old(toasts.toasts)
      ensures var t := toasts.toasts[|toasts.toasts| - 1];
        t.title == None && t.duration == DefaultDuration &&
        (succeeded ==> t.description == Some(SuccessMessage) && t.variant == Some(Default)) &&
        (!succeeded ==> t.description == Some(FailureMessage) && t.variant == Some(Destructive))
    {
      var message, variant := FailureMessage, Destructive;
      if succeeded {
        isAdded := true;
        message, variant := SuccessMessage, Default;
      }
      var _, _ := toasts.AddToast(ToastOptions(None, Some(message), Some(variant), None));
      resetScheduled := succeeded;
      isLoading := false;
    }

    /** The timer scheduled on success: the button returns to its price label. */
    method AddedAnimationEnds()
      requires Valid()
      modifies this
      ensures Valid()
      ensures !isAdded && isLoading == old(isLoading) && quantity == old(quantity)
    {
      isAdded := false;
    }

  }
}
