/**
 * src/components/ProductCard.tsx: a product card picks the scoop colour
 * from the product's name, and keeps a quantity that the buttons and the
 * input field change and that adding to the cart resets.
 */
module ProductCard {
  import opened Prelude
  import opened Text
  import CartPage

  /** The colours object, in its declaration order (for..in visits keys in that order). */
  const Palette: seq<(string, string)> := [
    ("vanilla", "#F3E5AB"),
    ("chocolate", "#7B3F00"),
    ("strawberry", "#FC5A8D"),
    ("mango", "#FFC107"),
    ("butterscotch", "#E8AA42"),
    ("mint", "#98D8C8"),
    ("cookie", "#8B4513"),
    ("pistachio", "#93C572"),
    ("black", "#4A235A"),
    ("caramel", "#C68642")
  ]

  /** The pink used when no key occurs in the name. */
  const DefaultColor := "#FF6B9D"

  /** The colour of the first palette key that occurs in the name, else the fallback. */
  function FirstColor(palette: seq<(string, string)>, nameLower: string, fallback: string): string {
    if palette == [] then fallback
    else if Contains(nameLower, palette[0].0) then palette[0].1
    else FirstColor(palette[1..], nameLower, fallback)
  }

  /** Keys are tried in order: the first key that occurs decides, whatever later keys occur too. */
  lemma {:induction false} FirstColorIsFirstKey(palette: seq<(string, string)>, nameLower: string, fallback: string, i: nat)
    requires i < |palette| && Contains(nameLower, palette[i].0)
    requires forall j :: 0 <= j < i ==> !Contains(nameLower, palette[j].0)
    ensures FirstColor(palette, nameLower, fallback) == palette[i].1
    decreases i
  {
    if i > 0 {
      assert !Contains(nameLower, palette[0].0);
      FirstColorIsFirstKey(palette[1..], nameLower, fallback, i - 1);
    }
  }

  /** When no key occurs, the fallback is returned. */
  lemma {:induction false} FirstColorFallback(palette: seq<(string, string)>, nameLower: string, fallback: string)
    requires forall j :: 0 <= j < |palette| ==> !Contains(nameLower, palette[j].0)
    ensures FirstColor(palette, nameLower, fallback) == fallback
    decreases |palette|
  {
    if palette != [] {
      assert !Contains(nameLower, palette[0].0);
      FirstColorFallback(palette[1..], nameLower, fallback);
    }
  }

  /** The result is always one of the palette's colours or the fallback. */
  lemma {:induction false} FirstColorInPalette(palette: seq<(string, string)>, nameLower: string, fallback: string)
    ensures var c := FirstColor(palette, nameLower, fallback);
      c == fallback || exists j :: 0 <= j < |palette| && palette[j].1 == c && Contains(nameLower, palette[j].0)
    decreases |palette|
  {
    if palette != [] && !Contains(nameLower, palette[0].0) {
      FirstColorInPalette(palette[1..], nameLower, fallback);
      var c := FirstColor(palette, nameLower, fallback);
      if c != fallback {
        var j :| 0 <= j < |palette[1..]| && palette[1..][j].1 == c && Contains(nameLower, palette[1..][j].0);
        assert palette[j + 1] == palette[1..][j];
      }
    }
  }

  /** getColorFromName: lower-case the name, then scan the palette with an early return. */
  method GetColorFromName(name: string) returns (color: string)
    ensures color == FirstColor(Palette, LowerStr(name), DefaultColor)
  {
    var nameLower := LowerStr(name);
    var i := 0;
    while i < |Palette|
      invariant 0 <= i <= |Palette|
      invariant FirstColor(Palette[i..], nameLower, DefaultColor) == FirstColor(Palette, nameLower, DefaultColor)
    {
      assert Palette[i..][1..] == Palette[i + 1..];
      if Contains(nameLower, Palette[i].0) {
        return Palette[i].1;
      }
      i := i + 1;
    }
    return DefaultColor;
  }

  /** The lookup ignores case: names differing only in case get the same colour. */
  lemma ColorIgnoresCase(name: string)
    ensures FirstColor(Palette, LowerStr(LowerStr(name)), DefaultColor) == FirstColor(Palette, LowerStr(name), DefaultColor)
  {
    LowerStrIdempotent(name);
  }

  /** "chocolate mango" contains both keys; chocolate is declared first, so it wins. */
  lemma ChocolateBeforeMango()
    ensures Contains("chocolate mango", "mango")
    ensures FirstColor(Palette, "chocolate mango", DefaultColor) == "#7B3F00"
  {
    var s := "chocolate mango";
    assert MatchAt(s, "mango", 10);
    AbsentChar(s, "vanilla", 0);
    assert MatchAt(s, "chocolate", 0);
    FirstColorIsFirstKey(Palette, s, DefaultColor, 1);
  }

  /** "kesar kulfi" contains no key and gets the default pink. */
  lemma KesarKulfiIsPink()
    ensures FirstColor(Palette, "kesar kulfi", DefaultColor) == DefaultColor
  {
    var s := "kesar kulfi";
    AbsentChar(s, "vanilla", 0);
    AbsentChar(s, "chocolate", 0);
    AbsentChar(s, "strawberry", 4);
    AbsentChar(s, "mango", 0);
    AbsentChar(s, "butterscotch", 0);
    AbsentChar(s, "mint", 0);
    AbsentChar(s, "cookie", 0);
    AbsentChar(s, "pistachio", 0);
    AbsentChar(s, "black", 0);
    AbsentChar(s, "caramel", 0);
    FirstColorFallback(Palette, s, DefaultColor);
  }

  /** The card's quantity picker. */
  class QuantityPicker {
    var quantity: int

    /** The quantity never drops below 1. */
    ghost predicate Valid()
      reads this
    {
      quantity >= 1
    }

    /** useState(1) */
    constructor ()
      ensures quantity == 1 && Valid()
    {
      quantity := 1;
    }

    /** The minus button is disabled at a quantity of 1 or less. */
    predicate MinusDisabled()
      reads this
    {
      quantity <= 1
    }

    /** handleQuantityChange: a new quantity below 1 is ignored. */
    method Change(newQuantity: int)
      modifies this
      requires Valid()
      ensures Valid()
      ensures quantity == CartPage.QuantityChange(newQuantity).GetOr(old(quantity))
    {
      var update := CartPage.QuantityChange(newQuantity);
      if update.Some? {
        quantity := update.value;
      }
    }

    /** The plus button. */
    method Plus()
      modifies this
      requires Valid()
      ensures Valid() && quantity == old(quantity) + 1
    {
      Change(quantity + 1);
    }

    /** The minus button: one less, but never below 1 (the button is disabled there). */
    method Minus()
      modifies this
      requires Valid()
      ensures Valid()
      ensures quantity == if old(quantity) >= 2 then old(quantity) - 1 else old(quantity)
    {
      Change(quantity - 1);
    }

    /** The number field: `parseInt(value) || 1`, then the same guard. */
    method Input(parsed: Option<int>)
      modifies this
      requires Valid()
      ensures Valid()
      ensures parsed.None? ==> quantity == 1
      ensures parsed.Some? && parsed.value >= 1 ==> quantity == parsed.value
      ensures parsed.Some? && parsed.value == 0 ==> quantity == 1
      ensures parsed.Some? && parsed.value < 0 ==> quantity == old(quantity)
    {
      Change(CartPage.QuantityFromInput(parsed));
    }

    /** handleAddToCart: the current quantity goes to the cart, then the picker returns to 1. */
    method AddToCart() returns (added: int)
      modifies this
      requires Valid()
      ensures added == old(quantity) && added >= 1
      ensures quantity == 1 && Valid()
    {
      added := quantity;
      quantity := 1;
    }
  }

  /** Pressing minus on a fresh card changes nothing; plus then add-to-cart adds 2 and resets. */
  method PlusThenAdd() returns (added: int)
    ensures added == 2
  {
    var picker := new QuantityPicker();
    assert picker.MinusDisabled();
    picker.Minus();
    picker.Plus();
    added := picker.AddToCart();
    assert picker.quantity == 1;
  }
}
