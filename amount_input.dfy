/** The amount inputs of the cart page (scripts/cart.js) and of the product page
    (scripts/product.js): the number read from the field with `parseInt`, the reset
    of an invalid entry to 1, and the product page's minus and plus buttons.
    `parseInt`'s NaN is `None`. */
module AmountInput {
  import opened Seqs
  import opened Numbers

  /** `if (isNaN(amount) || amount < 1) amount = 1`. */
  function ClampAmount(parsed: Option<int>): (r: int)
    ensures r >= 1
    ensures parsed.Some? && parsed.value >= 1 ==> r == parsed.value
  {
    if parsed.None? || parsed.value < 1 then 1 else parsed.value
  }

  /** Clamping a clamped amount changes nothing, and no valid amount is clamped. */
  lemma ClampIsIdempotent(parsed: Option<int>)
    ensures ClampAmount(Some(ClampAmount(parsed))) == ClampAmount(parsed)
    ensures ClampAmount(parsed) == 1 <==> parsed.None? || parsed.value <= 1
  {
  }

  /** `price * amount` as `updateSubtotal` computes it, NaN (`None`) when there is no amount. */
  function SubtotalOf(price: nat, amount: Option<int>): (r: Option<int>)
    ensures r.None? <==> amount.None?
    ensures amount.Some? && amount.value >= 1 ==> r.value >= price
    ensures amount.Some? && amount.value <= 0 ==> r.value <= 0
  {
    match amount
    case None => None
    case Some(a) => Some(price * a)
  }

  /** JavaScript's `amount + 1` on a parsed amount: NaN stays NaN. */
  function PlusOne(amount: Option<int>): Option<int> {
    if amount.Some? then Some(amount.value + 1) else None
  }

  /** One item more costs exactly one price more. */
  lemma SubtotalOfNext(price: nat, a: int)
    ensures SubtotalOf(price, Some(a + 1)) == Some(SubtotalOf(price, Some(a)).value + price)
  {
    assert price * (a + 1) == price * a + price;
  }

  /** One item less costs exactly one price less. */
  lemma SubtotalOfPrevious(price: nat, a: int)
    ensures SubtotalOf(price, Some(a - 1)) == Some(SubtotalOf(price, Some(a)).value - price)
  {
    assert price * (a - 1) == price * a - price;
  }

  /** The subtotal of a clamped amount is a number, never below one price. */
  lemma SubtotalOfClamped(price: nat, parsed: Option<int>)
    ensures SubtotalOf(price, Some(ClampAmount(parsed))).Some?
    ensures SubtotalOf(price, Some(ClampAmount(parsed))).value >= price
  {
    var k := ClampAmount(parsed);
    assert price * k == price + price * (k - 1);
  }

  /** The product page's `<input name="amount">`, with the product's `price` that
      `updateSubtotal` multiplies by and the subtotal it last displayed (`None` for NaN). */
  class AmountField {
    var text: string
    const price: nat
    var shown: Option<int>

    /** The page fills the field, then calls `updateSubtotal()` once. */
    constructor(text: string, price: nat)
      ensures this.text == text && this.price == price
      ensures shown == Subtotal()
    {
      this.text := text;
      this.price := price;
      shown := SubtotalOf(price, ParseInt(text));
    }

    /** `parseInt(amountInput.value, 10)`. */
    function Amount(): Option<int>
      reads this
    {
      ParseInt(text)
    }

    /** `updateSubtotal`'s value for the field as it stands. */
    function Subtotal(): Option<int>
      reads this
    {
      SubtotalOf(price, Amount())
    }

    /** `updateSubtotal()`: display the subtotal of the field's current amount. */
    method UpdateSubtotal()
      modifies this
      ensures text == old(text) && shown == Subtotal()
    {
      shown := Subtotal();
    }

    /** `amountInput.value = v; updateSubtotal()`: the field reads back `v` and shows its subtotal. */
    method WriteAmount(v: int)
      modifies this
      ensures Amount() == Some(v) && shown == SubtotalOf(price, Some(v))
    {
      text := IntToString(v);
      ParseIntToString(v);
      UpdateSubtotal();
    }

    /** `amountInput.value = NaN; updateSubtotal()`: the field shows the text `NaN`, which
        reads back as no number, and the subtotal shown is NaN. */
    method WriteNaN()
      modifies this
      ensures Amount().None? && shown.None?
    {
      text := "NaN";
      ParseIntNoNumber(text);
      UpdateSubtotal();
    }

    /** `amountInput.value = v; updateSubtotal()` for a number or NaN. */
    method WriteParsed(v: Option<int>)
      modifies this
      ensures Amount() == v && shown == SubtotalOf(price, v)
    {
      if v.Some? {
        WriteAmount(v.value);
      } else {
        WriteNaN();
      }
    }

    /** The minus button: the amount goes down by one, but only from above 1, and then the
        subtotal of the new amount is shown, one price less than before (`SubtotalOfPrevious`). */
    method MinusClick()
      modifies this
      ensures old(Amount()).Some? && old(Amount()).value > 1 ==>
                Amount() == Some(old(Amount()).value - 1)
                && shown == SubtotalOf(price, Some(old(Amount()).value - 1))
      ensures !(old(Amount()).Some? && old(Amount()).value > 1) ==> text == old(text) && shown == old(shown)
    {
      var amount := Amount();
      if amount.Some? && amount.value > 1 {
        WriteAmount(amount.value - 1);
      }
    }

    /** The plus button: the amount goes up by exactly one (`NaN + 1` is written as `NaN`), and
        the subtotal of the new amount is shown, one price more than before (`SubtotalOfNext`). */
    method PlusClick()
      modifies this
      ensures Amount() == PlusOne(old(Amount()))
      ensures shown == SubtotalOf(price, Amount())
    {
      var amount := Amount();
      WriteParsed(PlusOne(amount));
    }

    /** The change handler: an entry that is NaN or below 1 is replaced by 1, any other is
        kept; the subtotal of the clamped amount is then shown, never below one price
        (`SubtotalOfClamped`). */
    method Change()
      modifies this
      ensures Amount() == Some(ClampAmount(old(Amount())))
      ensures old(Amount()).Some? && old(Amount()).value >= 1 ==> text == old(text)
      ensures shown == SubtotalOf(price, Some(ClampAmount(old(Amount()))))
    {
      var amount := Amount();
      if amount.None? || amount.value < 1 {
        text := "1";
        ParseIntToString(1);
        assert IntToString(1) == "1";
      }
      UpdateSubtotal();
    }
  }
}
