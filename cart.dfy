/** The shopping cart (scripts/cart.js, and the add-to-cart of scripts/product.js):
    a sequence of lines `{name, price, amount}` that the pages change in place.
    Each operation is specified by a function on the sequence of lines, and the
    lemmas below say what those functions do. */
module Cart {
  import opened Seqs
  import opened Numbers
  import opened Catalog
  import opened AmountInput

  /** One cart entry. `price` is the price recorded when the line was added. */
  datatype CartLine = CartLine(name: string, price: nat, amount: int)

  /** `cart.findIndex((item) => item.name === name)`, with `-1` as `None`. */
  function FirstIndex(lines: seq<CartLine>, name: string): (r: Option<nat>)
    ensures r.Some? ==> r.value < |lines| && lines[r.value].name == name
    ensures r.Some? ==> forall j :: 0 <= j < r.value ==> lines[j].name != name
    ensures r.None? ==> forall j :: 0 <= j < |lines| ==> lines[j].name != name
  {
    if lines == [] then None
    else if lines[0].name == name then Some(0)
    else
      match FirstIndex(lines[1..], name)
      case None => None
      case Some(i) => Some(i + 1)
  }

  /** At most one line per name. */
  ghost predicate NamesUnique(lines: seq<CartLine>) {
    forall i, j :: 0 <= i < j < |lines| ==> lines[i].name != lines[j].name
  }

  /** The cart invariant the pages keep: every amount at least 1, at most one line per name. */
  ghost predicate Valid(lines: seq<CartLine>) {
    && (forall i :: 0 <= i < |lines| ==> lines[i].amount >= 1)
    && NamesUnique(lines)
  }

  // ---------------------------------------------------------------------------
  // updateCartItemAmount

  /** The lines after `updateCartItemAmount(name, newAmount)`, written line by line: the first
      line with the name gets the new amount, or goes when that amount is 0 or less. */
  function SetAmount(lines: seq<CartLine>, name: string, newAmount: int): seq<CartLine> {
    if lines == [] then []
    else if lines[0].name == name then
      if newAmount <= 0 then lines[1..] else [lines[0].(amount := newAmount)] + lines[1..]
    else [lines[0]] + SetAmount(lines[1..], name, newAmount)
  }

  /** A name absent from the cart leaves it unchanged. */
  lemma {:induction false} SetAmountOfAbsent(lines: seq<CartLine>, name: string, newAmount: int)
    requires forall i :: 0 <= i < |lines| ==> lines[i].name != name
    ensures SetAmount(lines, name, newAmount) == lines
  {
    if lines != [] {
      SetAmountOfAbsent(lines[1..], name, newAmount);
    }
  }

  /** Past a head that does not match, the first match sits one place earlier in the tail. */
  lemma FirstIndexOfTail(lines: seq<CartLine>, name: string, i: nat)
    requires FirstIndex(lines, name) == Some(i) && lines[0].name != name
    ensures 1 <= i && FirstIndex(lines[1..], name) == Some(i - 1)
  {
  }

  /** With an amount of at least 1 the first matching line gets the new amount in place. */
  lemma {:induction false} SetAmountInPlace(lines: seq<CartLine>, name: string, newAmount: int, i: nat)
    requires newAmount >= 1 && FirstIndex(lines, name) == Some(i)
    ensures SetAmount(lines, name, newAmount) == lines[i := lines[i].(amount := newAmount)]
  {
    var tail := lines[1..];
    if lines[0].name == name {
      assert lines[0 := lines[0].(amount := newAmount)] == [lines[0].(amount := newAmount)] + tail;
    } else {
      FirstIndexOfTail(lines, name, i);
      SetAmountInPlace(tail, name, newAmount, i - 1);
      assert SetAmount(lines, name, newAmount) == [lines[0]] + SetAmount(tail, name, newAmount);
      assert lines[i := lines[i].(amount := newAmount)] ==
             [lines[0]] + tail[i - 1 := tail[i - 1].(amount := newAmount)];
    }
  }

  /** With an amount of 0 or less the first matching line is spliced out and the others
      keep their order. */
  lemma {:induction false} SetNonPositiveAmount(lines: seq<CartLine>, name: string, newAmount: int, i: nat)
    requires newAmount <= 0 && FirstIndex(lines, name) == Some(i)
    ensures SetAmount(lines, name, newAmount) == lines[..i] + lines[i + 1..]
  {
    var tail := lines[1..];
    if lines[0].name == name {
      assert lines[..0] + lines[1..] == tail;
    } else {
      FirstIndexOfTail(lines, name, i);
      SetNonPositiveAmount(tail, name, newAmount, i - 1);
      assert SetAmount(lines, name, newAmount) == [lines[0]] + SetAmount(tail, name, newAmount);
      DropAfterHead(lines, i);
    }
  }

  /** Dropping index `i >= 1` of a sequence is keeping its head and dropping index `i - 1` of its tail. */
  lemma DropAfterHead(lines: seq<CartLine>, i: nat)
    requires 1 <= i < |lines|
    ensures [lines[0]] + (lines[1..][..i - 1] + lines[1..][i..]) == lines[..i] + lines[i + 1..]
  {
    assert lines[..i] == [lines[0]] + lines[1..][..i - 1];
    assert lines[i + 1..] == lines[1..][i..];
  }

  /** `SetAmount` is the index-based update the source performs at the first matching line. */
  lemma SetAmountAt(lines: seq<CartLine>, name: string, newAmount: int, i: nat)
    requires FirstIndex(lines, name) == Some(i)
    ensures SetAmount(lines, name, newAmount) ==
              if newAmount <= 0 then lines[..i] + lines[i + 1..]
              else lines[i := lines[i].(amount := newAmount)]
  {
    if newAmount <= 0 {
      SetNonPositiveAmount(lines, name, newAmount, i);
    } else {
      SetAmountInPlace(lines, name, newAmount, i);
    }
  }

  /** With an amount of at least 1 only the first matching line changes, and only its amount. */
  lemma SetPositiveAmount(lines: seq<CartLine>, name: string, newAmount: int, i: nat)
    requires newAmount >= 1 && FirstIndex(lines, name) == Some(i)
    ensures |SetAmount(lines, name, newAmount)| == |lines|
    ensures SetAmount(lines, name, newAmount)[i] == CartLine(lines[i].name, lines[i].price, newAmount)
    ensures forall j :: 0 <= j < |lines| && j != i ==> SetAmount(lines, name, newAmount)[j] == lines[j]
  {
    SetAmountInPlace(lines, name, newAmount, i);
  }

  /** In a cart with one line per name, an amount of 0 or less leaves no line of that name. */
  lemma NonPositiveAmountRemovesName(lines: seq<CartLine>, name: string, newAmount: int)
    requires NamesUnique(lines) && newAmount <= 0
    ensures forall k :: 0 <= k < |SetAmount(lines, name, newAmount)| ==> SetAmount(lines, name, newAmount)[k].name != name
  {
    var r := SetAmount(lines, name, newAmount);
    if FirstIndex(lines, name).None? {
      SetAmountOfAbsent(lines, name, newAmount);
    } else {
      var i := FirstIndex(lines, name).value;
      SetNonPositiveAmount(lines, name, newAmount, i);
      forall k | 0 <= k < |r| ensures r[k].name != name {
        if k < i {
          assert r[k] == lines[k];
        } else {
          assert r[k] == lines[k + 1];
        }
      }
    }
  }

  /** Any amount update keeps the cart invariant: a line either gets an amount of at least 1
      or is removed. */
  lemma SetAmountKeepsValid(lines: seq<CartLine>, name: string, newAmount: int)
    requires Valid(lines)
    ensures Valid(SetAmount(lines, name, newAmount))
  {
    if FirstIndex(lines, name).None? {
      SetAmountOfAbsent(lines, name, newAmount);
    } else if newAmount >= 1 {
      SetAmountAt(lines, name, newAmount, FirstIndex(lines, name).value);
    } else {
      var i := FirstIndex(lines, name).value;
      SetAmountAt(lines, name, newAmount, i);
      DropKeepsValid(lines, i);
    }
  }

  /** Removing one line keeps the cart invariant. */
  lemma DropKeepsValid(lines: seq<CartLine>, i: nat)
    requires Valid(lines) && i < |lines|
    ensures Valid(lines[..i] + lines[i + 1..])
  {
    var r := lines[..i] + lines[i + 1..];
    forall a, b | 0 <= a < b < |r| ensures r[a].name != r[b].name {
      var a' := if a < i then a else a + 1;
      var b' := if b < i then b else b + 1;
      assert r[a] == lines[a'] && r[b] == lines[b'];
    }
  }

  // ---------------------------------------------------------------------------
  // removeItemFromCart

  function NotNamed(name: string): CartLine -> bool {
    (l: CartLine) => l.name != name
  }

  /** `cart.filter((item) => item.name !== name)`. */
  function RemoveNamed(lines: seq<CartLine>, name: string): seq<CartLine> {
    Filter(NotNamed(name), lines)
  }

  /** No line with the name is left, every other line is kept, in order. */
  lemma RemoveNamedEffect(lines: seq<CartLine>, name: string)
    ensures forall i :: 0 <= i < |RemoveNamed(lines, name)| ==> RemoveNamed(lines, name)[i].name != name
    ensures forall i :: 0 <= i < |lines| && lines[i].name != name ==> lines[i] in RemoveNamed(lines, name)
    ensures IsSubsequence(RemoveNamed(lines, name), lines)
  {
    FilterIsSubsequence(NotNamed(name), lines);
  }

  /** Removing twice is removing once. */
  lemma RemoveIsIdempotent(lines: seq<CartLine>, name: string)
    ensures RemoveNamed(RemoveNamed(lines, name), name) == RemoveNamed(lines, name)
  {
    FilterIdempotent(NotNamed(name), lines);
  }

  lemma {:induction false} FilterKeepsValid(f: CartLine -> bool, lines: seq<CartLine>)
    requires Valid(lines)
    ensures Valid(Filter(f, lines))
  {
    if lines != [] {
      var tail := lines[1..];
      assert Valid(tail) by {
        forall a, b | 0 <= a < b < |tail| ensures tail[a].name != tail[b].name {
          assert tail[a] == lines[a + 1] && tail[b] == lines[b + 1];
        }
      }
      FilterKeepsValid(f, tail);
      if f(lines[0]) {
        assert Filter(f, lines) == [lines[0]] + Filter(f, tail);
        assert forall k :: 0 <= k < |tail| ==> tail[k].name != lines[0].name by {
          forall k | 0 <= k < |tail| ensures tail[k].name != lines[0].name {
            assert tail[k] == lines[k + 1];
          }
        }
        FilterKeepsAbsent(f, tail, lines[0].name);
        ConsKeepsValid(lines[0], Filter(f, tail));
      } else {
        assert Filter(f, lines) == Filter(f, tail);
      }
    }
  }

  /** A name no line has stays absent after filtering. */
  lemma FilterKeepsAbsent(f: CartLine -> bool, lines: seq<CartLine>, name: string)
    requires forall k :: 0 <= k < |lines| ==> lines[k].name != name
    ensures forall k :: 0 <= k < |Filter(f, lines)| ==> Filter(f, lines)[k].name != name
  {
    var r := Filter(f, lines);
    forall k | 0 <= k < |r| ensures r[k].name != name {
      assert r[k] in lines;
    }
  }

  /** A line of a new name, with an amount of at least 1, in front of a valid cart. */
  lemma ConsKeepsValid(line: CartLine, lines: seq<CartLine>)
    requires line.amount >= 1 && Valid(lines)
    requires forall k :: 0 <= k < |lines| ==> lines[k].name != line.name
    ensures Valid([line] + lines)
  {
    var r := [line] + lines;
    forall a, b | 0 <= a < b < |r| ensures r[a].name != r[b].name {
      assert r[b] == lines[b - 1];
      if a > 0 {
        assert r[a] == lines[a - 1];
      }
    }
  }

  lemma RemoveKeepsValid(lines: seq<CartLine>, name: string)
    requires Valid(lines)
    ensures Valid(RemoveNamed(lines, name))
  {
    FilterKeepsValid(NotNamed(name), lines);
  }

  // ---------------------------------------------------------------------------
  // add to cart (product page)

  /** The lines after adding `amount` of `product`, written line by line: the first line
      with its name has its amount increased, or a new line is appended. */
  function AddLine(lines: seq<CartLine>, product: Product, amount: int): seq<CartLine> {
    if lines == [] then [CartLine(product.name, product.price, amount)]
    else if lines[0].name == product.name then [lines[0].(amount := lines[0].amount + amount)] + lines[1..]
    else [lines[0]] + AddLine(lines[1..], product, amount)
  }

  /** `AddLine` is the in-place increment or the `push` the source performs. */
  lemma {:induction false} AddLineAt(lines: seq<CartLine>, product: Product, amount: int)
    ensures FirstIndex(lines, product.name).None? ==>
              AddLine(lines, product, amount) == lines + [CartLine(product.name, product.price, amount)]
    ensures FirstIndex(lines, product.name).Some? ==>
              var i := FirstIndex(lines, product.name).value;
              AddLine(lines, product, amount) == lines[i := lines[i].(amount := lines[i].amount + amount)]
  {
    if lines != [] && lines[0].name != product.name {
      var tail := lines[1..];
      AddLineAt(tail, product, amount);
      assert lines == [lines[0]] + tail;
      if FirstIndex(tail, product.name).Some? {
        var i := FirstIndex(tail, product.name).value;
        assert lines[i + 1 := lines[i + 1].(amount := lines[i + 1].amount + amount)] ==
               [lines[0]] + tail[i := tail[i].(amount := tail[i].amount + amount)];
      } else {
        assert lines + [CartLine(product.name, product.price, amount)] ==
               [lines[0]] + (tail + [CartLine(product.name, product.price, amount)]);
      }
    }
  }

  /** Two adds of the same product are one add of the summed amount. */
  lemma {:induction false} AddTwiceAccumulates(lines: seq<CartLine>, product: Product, a: int, b: int)
    ensures AddLine(AddLine(lines, product, a), product, b) == AddLine(lines, product, a + b)
  {
    if lines != [] && lines[0].name != product.name {
      AddTwiceAccumulates(lines[1..], product, a, b);
    }
  }

  /** Adding any amount, zero and negative ones included, keeps one line per name. */
  lemma AddKeepsNamesUnique(lines: seq<CartLine>, product: Product, amount: int)
    requires NamesUnique(lines)
    ensures NamesUnique(AddLine(lines, product, amount))
  {
    AddLineAt(lines, product, amount);
    if FirstIndex(lines, product.name).None? {
      AppendNewNameKeepsNamesUnique(lines, CartLine(product.name, product.price, amount));
    }
  }

  /** A line whose name no line has, appended, keeps one line per name. */
  lemma AppendNewNameKeepsNamesUnique(lines: seq<CartLine>, line: CartLine)
    requires NamesUnique(lines)
    requires forall k :: 0 <= k < |lines| ==> lines[k].name != line.name
    ensures NamesUnique(lines + [line])
  {
    var r := lines + [line];
    forall a, b | 0 <= a < b < |r| ensures r[a].name != r[b].name {
      assert r[a] == lines[a];
      if b < |lines| {
        assert r[b] == lines[b];
      }
    }
  }

  /** Adding a positive amount keeps the cart invariant. */
  lemma AddKeepsValid(lines: seq<CartLine>, product: Product, amount: int)
    requires Valid(lines) && amount >= 1
    ensures Valid(AddLine(lines, product, amount))
  {
    AddKeepsNamesUnique(lines, product, amount);
    AddLineAt(lines, product, amount);
  }

  /** After an add, the product has a line with at least the amount added. */
  lemma AddedProductIsInCart(lines: seq<CartLine>, product: Product, amount: int)
    requires Valid(lines) && amount >= 1
    ensures FirstIndex(AddLine(lines, product, amount), product.name).Some?
    ensures var r := AddLine(lines, product, amount);
            r[FirstIndex(r, product.name).value].amount >= amount
  {
    AddLineAt(lines, product, amount);
    var r := AddLine(lines, product, amount);
    if FirstIndex(lines, product.name).Some? {
      var i := FirstIndex(lines, product.name).value;
      assert r[i].name == product.name;
    } else {
      assert r[|lines|].name == product.name;
    }
  }

  // ---------------------------------------------------------------------------
  // the total of renderCart

  /** A line's contribution to the total: the catalog price times the amount, or nothing
      when no product has the line's name. */
  function LineSubtotal(line: CartLine, catalog: seq<Product>): int {
    match FindProduct(catalog, line.name)
    case None => 0
    case Some(p) => p.price * line.amount
  }

  /** The sum of the line subtotals. */
  function TotalOf(lines: seq<CartLine>, catalog: seq<Product>): int {
    if lines == [] then 0
    else TotalOf(lines[..|lines| - 1], catalog) + LineSubtotal(lines[|lines| - 1], catalog)
  }

  lemma {:induction false} TotalOfConcat(a: seq<CartLine>, b: seq<CartLine>, catalog: seq<Product>)
    ensures TotalOf(a + b, catalog) == TotalOf(a, catalog) + TotalOf(b, catalog)
    decreases |b|
  {
    if b != [] {
      var b' := b[..|b| - 1];
      assert (a + b)[..|a + b| - 1] == a + b';
      assert (a + b)[|a + b| - 1] == b[|b| - 1];
      TotalOfConcat(a, b', catalog);
    } else {
      assert a + b == a;
    }
  }

  /** A cart of non-negative amounts never totals below 0. */
  lemma {:induction false} TotalIsNonNegative(lines: seq<CartLine>, catalog: seq<Product>)
    requires forall i :: 0 <= i < |lines| ==> lines[i].amount >= 0
    ensures TotalOf(lines, catalog) >= 0
  {
    if lines != [] {
      TotalIsNonNegative(lines[..|lines| - 1], catalog);
    }
  }

  /** Lines no catalog product resolves contribute nothing. */
  lemma {:induction false} UnresolvedLinesAddNothing(lines: seq<CartLine>, catalog: seq<Product>)
    requires forall i :: 0 <= i < |lines| ==> FindProduct(catalog, lines[i].name).None?
    ensures TotalOf(lines, catalog) == 0
  {
    if lines != [] {
      UnresolvedLinesAddNothing(lines[..|lines| - 1], catalog);
    }
  }

  lemma TotalOfUpdate(lines: seq<CartLine>, i: nat, line: CartLine, catalog: seq<Product>)
    requires i < |lines|
    ensures TotalOf(lines[i := line], catalog) ==
            TotalOf(lines, catalog) - LineSubtotal(lines[i], catalog) + LineSubtotal(line, catalog)
  {
    assert lines == lines[..i] + [lines[i]] + lines[i + 1..];
    assert lines[i := line] == lines[..i] + [line] + lines[i + 1..];
    TotalOfConcat(lines[..i] + [lines[i]], lines[i + 1..], catalog);
    TotalOfConcat(lines[..i] + [line], lines[i + 1..], catalog);
    TotalOfConcat(lines[..i], [lines[i]], catalog);
    TotalOfConcat(lines[..i], [line], catalog);
  }

  /** Raising one line of a catalog product by `amount` raises the total by its price times `amount`. */
  lemma TotalAfterIncrement(lines: seq<CartLine>, i: nat, product: Product, amount: int, catalog: seq<Product>)
    requires FindProduct(catalog, product.name) == Some(product)
    requires i < |lines| && lines[i].name == product.name
    ensures TotalOf(lines[i := lines[i].(amount := lines[i].amount + amount)], catalog) ==
            TotalOf(lines, catalog) + product.price * amount
  {
    var updated := lines[i].(amount := lines[i].amount + amount);
    TotalOfUpdate(lines, i, updated, catalog);
    ResolvedSubtotal(lines[i], product, catalog);
    ResolvedSubtotal(updated, product, catalog);
    PriceDistributes(product.price, lines[i].amount, amount);
  }

  /** A line that resolves to `product` costs its price times the line's amount. */
  lemma ResolvedSubtotal(line: CartLine, product: Product, catalog: seq<Product>)
    requires FindProduct(catalog, line.name) == Some(product)
    ensures LineSubtotal(line, catalog) == product.price * line.amount
  {
  }

  lemma PriceDistributes(price: int, a: int, b: int)
    ensures price * (a + b) == price * a + price * b
  {
  }

  /** Adding `amount` of a catalog product raises the total by its price times `amount`. */
  lemma TotalAfterAdd(lines: seq<CartLine>, product: Product, amount: int, catalog: seq<Product>)
    requires FindProduct(catalog, product.name) == Some(product)
    ensures TotalOf(AddLine(lines, product, amount), catalog) == TotalOf(lines, catalog) + product.price * amount
  {
    AddLineAt(lines, product, amount);
    var r := AddLine(lines, product, amount);
    var index := FirstIndex(lines, product.name);
    if index.Some? {
      var i := index.value;
      assert r == lines[i := lines[i].(amount := lines[i].amount + amount)];
      TotalAfterIncrement(lines, i, product, amount, catalog);
    } else {
      var added := CartLine(product.name, product.price, amount);
      assert r == lines + [added];
      assert r[..|r| - 1] == lines && r[|r| - 1] == added;
      assert LineSubtotal(added, catalog) == product.price * amount;
    }
  }

  // ---------------------------------------------------------------------------
  // the cart object

  /** The cart the pages read from and write back to storage. */
  class Cart {
    var lines: seq<CartLine>

    /** An empty cart: `JSON.parse('[]')`. */
    constructor()
      ensures lines == []
    {
      lines := [];
    }

    /** `updateCartItemAmount`: `saved` tells whether a line was found (and the cart saved). */
    method UpdateAmount(name: string, newAmount: int) returns (saved: bool)
      modifies this
      ensures saved <==> FirstIndex(old(lines), name).Some?
      ensures lines == SetAmount(old(lines), name, newAmount)
      ensures Valid(old(lines)) ==> Valid(lines)
      ensures NamesUnique(old(lines)) && newAmount <= 0 ==> forall k :: 0 <= k < |lines| ==> lines[k].name != name
    {
      if Valid(lines) {
        SetAmountKeepsValid(lines, name, newAmount);
      }
      if NamesUnique(lines) && newAmount <= 0 {
        NonPositiveAmountRemovesName(lines, name, newAmount);
      }
      var index := FirstIndex(lines, name);
      saved := false;
      if index.None? {
        SetAmountOfAbsent(lines, name, newAmount);
      } else {
        var i := index.value;
        SetAmountAt(lines, name, newAmount, i);
        lines := lines[i := lines[i].(amount := newAmount)];
        if lines[i].amount <= 0 {
          lines := lines[..i] + lines[i + 1..];
        }
        saved := true;
      }
    }

    /** `removeItemFromCart`. */
    method Remove(name: string)
      modifies this
      ensures lines == RemoveNamed(old(lines), name)
      ensures Valid(old(lines)) ==> Valid(lines)
    {
      if Valid(lines) {
        RemoveKeepsValid(lines, name);
      }
      lines := Filter(NotNamed(name), lines);
    }

    /** The submit handler of the product page: increment the first line of the product in
        place, or push a new line. */
    method Add(product: Product, amount: int)
      modifies this
      ensures lines == AddLine(old(lines), product, amount)
      ensures NamesUnique(old(lines)) ==> NamesUnique(lines)
      ensures Valid(old(lines)) && amount >= 1 ==> Valid(lines)
    {
      AddLineAt(lines, product, amount);
      if NamesUnique(lines) {
        AddKeepsNamesUnique(lines, product, amount);
      }
      if Valid(lines) && amount >= 1 {
        AddKeepsValid(lines, product, amount);
      }
      var index := FirstIndex(lines, product.name);
      if index.Some? {
        var i := index.value;
        lines := lines[i := lines[i].(amount := lines[i].amount + amount)];
      } else {
        lines := lines + [CartLine(product.name, product.price, amount)];
      }
    }

    /** The `total +=` loop of `renderCart`; a line whose product is not found is skipped. */
    method Total(catalog: seq<Product>) returns (total: int)
      ensures total == TotalOf(lines, catalog)
    {
      total := 0;
      var i := 0;
      while i < |lines|
        invariant 0 <= i <= |lines|
        invariant total == TotalOf(lines[..i], catalog)
      {
        assert lines[..i + 1][..i] == lines[..i];
        var product := FindProduct(catalog, lines[i].name);
        if product.Some? {
          total := total + product.value.price * lines[i].amount;
        }
        i := i + 1;
      }
      assert lines[..i] == lines;
    }

    /** The decrease button: `parseInt` of the field, and an update only from above 1. */
    method DecreaseClicked(name: string, input: string)
      modifies this
      ensures ParseInt(input).Some? && ParseInt(input).value > 1 ==>
                lines == SetAmount(old(lines), name, ParseInt(input).value - 1)
      ensures !(ParseInt(input).Some? && ParseInt(input).value > 1) ==> lines == old(lines)
      ensures Valid(old(lines)) ==> Valid(lines)
    {
      var amount := ParseInt(input);
      if amount.Some? && amount.value > 1 {
        var _ := UpdateAmount(name, amount.value - 1);
      }
    }

    /** The increase button: the field's amount plus one. */
    method IncreaseClicked(name: string, input: string)
      modifies this
      ensures ParseInt(input).Some? ==> lines == SetAmount(old(lines), name, ParseInt(input).value + 1)
      ensures ParseInt(input).None? ==> lines == old(lines)
      ensures Valid(old(lines)) ==> Valid(lines)
    {
      var amount := ParseInt(input);
      if amount.Some? {
        var next := amount.value + 1;
        var _ := UpdateAmount(name, next);
      }
    }

    /** The field's change handler: the clamped amount is written. */
    method AmountChanged(name: string, input: string)
      modifies this
      ensures lines == SetAmount(old(lines), name, ClampAmount(ParseInt(input)))
      ensures Valid(old(lines)) ==> Valid(lines)
    {
      var amount := ClampAmount(ParseInt(input));
      var _ := UpdateAmount(name, amount);
    }
  }

  /** Any amount of at least 1 keeps the cart's length and every line's name. */
  lemma PositiveAmountKeepsNames(lines: seq<CartLine>, name: string, newAmount: int)
    requires newAmount >= 1
    ensures |SetAmount(lines, name, newAmount)| == |lines|
    ensures forall i :: 0 <= i < |lines| ==> SetAmount(lines, name, newAmount)[i].name == lines[i].name
  {
    if FirstIndex(lines, name).None? {
      SetAmountOfAbsent(lines, name, newAmount);
    } else {
      SetPositiveAmount(lines, name, newAmount, FirstIndex(lines, name).value);
    }
  }

  /** The decrease button and the amount field never remove a line: whatever `parseInt`
      made of the field, the amount they write is at least 1, so the cart keeps its
      length and its names. */
  lemma ControlsKeepLines(lines: seq<CartLine>, name: string, parsed: Option<int>)
    ensures parsed.Some? && parsed.value > 1 ==> |SetAmount(lines, name, parsed.value - 1)| == |lines|
    ensures parsed.Some? && parsed.value > 1 ==>
              forall i :: 0 <= i < |lines| ==> SetAmount(lines, name, parsed.value - 1)[i].name == lines[i].name
    ensures |SetAmount(lines, name, ClampAmount(parsed))| == |lines|
    ensures forall i :: 0 <= i < |lines| ==> SetAmount(lines, name, ClampAmount(parsed))[i].name == lines[i].name
  {
    PositiveAmountKeepsNames(lines, name, ClampAmount(parsed));
    if parsed.Some? && parsed.value > 1 {
      PositiveAmountKeepsNames(lines, name, parsed.value - 1);
    }
  }
}
