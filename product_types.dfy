/**
 * src/types/product.ts: the nine product categories, the CATEGORIES table's
 * key order, the product records, and categorizeProduct, the ordered chain of
 * case-insensitive keyword tests with Bulks as the fallback. Also the
 * per-category tallies (Record<ProductCategory, number>) that the catalogue
 * pages compute and the category navigation sums.
 */
module ProductTypes {
  import opened Prelude
  import opened Text

  datatype Category =
    | Bulks | Lollies | Kulfi | Kasata | Balls
    | JumboRefill | BlackForest | HalfLiters | OneLiter

  /** The category's display name (its ProductCategory string). */
  function CategoryName(c: Category): string {
    match c
    case Bulks => "Bulks"
    case Lollies => "Lollies"
    case Kulfi => "Kulfi"
    case Kasata => "Kasata"
    case Balls => "Balls"
    case JumboRefill => "Jumbo Refill"
    case BlackForest => "Black Forest"
    case HalfLiters => "1/2 Liters"
    case OneLiter => "1 Liter"
  }

  /** The keys of CATEGORIES, in declaration order. */
  const CategoryKeys: seq<Category> :=
    [Bulks, Lollies, Kulfi, Kasata, Balls, JumboRefill, BlackForest, HalfLiters, OneLiter]

  /** Every category is a key of CATEGORIES, and no key is listed twice. */
  lemma CategoryKeysComplete()
    ensures |CategoryKeys| == 9
    ensures forall c :: c in CategoryKeys
    ensures forall i, j :: 0 <= i < j < |CategoryKeys| ==> CategoryKeys[i] != CategoryKeys[j]
  {
    forall c ensures c in CategoryKeys {
      match c
      case Bulks => assert CategoryKeys[0] == c;
      case Lollies => assert CategoryKeys[1] == c;
      case Kulfi => assert CategoryKeys[2] == c;
      case Kasata => assert CategoryKeys[3] == c;
      case Balls => assert CategoryKeys[4] == c;
      case JumboRefill => assert CategoryKeys[5] == c;
      case BlackForest => assert CategoryKeys[6] == c;
      case HalfLiters => assert CategoryKeys[7] == c;
      case OneLiter => assert CategoryKeys[8] == c;
    }
  }

  /** Each category occurs in the key list exactly once. */
  lemma KeyOccursOnce(c: Category)
    ensures multiset(CategoryKeys)[c] == 1
  {
    match c
    case Bulks =>
    case Lollies =>
    case Kulfi =>
    case Kasata =>
    case Balls =>
    case JumboRefill =>
    case BlackForest =>
    case HalfLiters =>
    case OneLiter =>
  }

  /** Selection in the catalogue views: 'All' or one category. */
  datatype Selection = All | Only(category: Category)

  /** Product (catalogue row); `category` is optional and filled in after fetching. */
  datatype Product = Product(
    id: int, name: string, price: real,
    category: Option<Category>, iconUrl: Option<string>, isActive: Option<bool>)
  {
    /** product.category || categorizeProduct(product.name) */
    function EffectiveCategory(): Category {
      if category.Some? then category.value else Categorize(name)
    }
  }

  /** CartItem: a product together with the quantity in the cart. */
  datatype CartItem = CartItem(product: Product, quantity: int)

  /** DiscountProduct (row of a discount page). */
  datatype DiscountProduct = DiscountProduct(
    id: string, productName: string, originalPrice: real, discountedPrice: real,
    category: Option<Category>)
  {
    /** product.category || categorizeProduct(product.product_name) */
    function EffectiveCategory(): Category {
      if category.Some? then category.value else Categorize(productName)
    }
  }

  /** Each product's category as the catalogue sees it: the stored one, or else categorizeProduct. */
  function CategoriesOf(products: seq<Product>): (cats: seq<Category>)
    ensures |cats| == |products|
  {
    seq(|products|, i requires 0 <= i < |products| => products[i].EffectiveCategory())
  }

  // ---- categorizeProduct ----

  /** categorizeProduct: the if-chain over the lower-cased name, Bulks as fallback. */
  function Categorize(productName: string): Category {
    var name := LowerStr(productName);
    if Contains(name, "bulk") || (Contains(name, "big") && Contains(name, "cup")) then Bulks
    else if Contains(name, "lollie") then Lollies
    else if Contains(name, "kulfi") then Kulfi
    else if Contains(name, "kasata") || Contains(name, "swinger") then Kasata
    else if Contains(name, "ball") then Balls
    else if Contains(name, "jumbo") && Contains(name, "refill") then JumboRefill
    else if Contains(name, "black forest") then BlackForest
    else if Contains(name, "1/2") || Contains(name, "half") then HalfLiters
    else if Contains(name, "1 liter") || Contains(name, "one liter") then OneLiter
    else Bulks
  }

  /** The same chain written as data: an ordered list of keyword rules. */
  const CategoryRules: seq<Rule<Category>> := [
    Rule([["bulk"], ["big", "cup"]], Bulks),
    Rule([["lollie"]], Lollies),
    Rule([["kulfi"]], Kulfi),
    Rule([["kasata"], ["swinger"]], Kasata),
    Rule([["ball"]], Balls),
    Rule([["jumbo", "refill"]], JumboRefill),
    Rule([["black forest"]], BlackForest),
    Rule([["1/2"], ["half"]], HalfLiters),
    Rule([["1 liter"], ["one liter"]], OneLiter)
  ]

  lemma FiresOne<T>(o: T, a: string, name: string)
    ensures Fires(Rule([[a]], o), name) <==> Contains(name, a)
  {
    if Contains(name, a) {
      assert AllPresent(name, [a]);
      assert [a] in Rule([[a]], o).alternatives;
    }
  }

  lemma FiresEither<T>(o: T, a: string, b: string, name: string)
    ensures Fires(Rule([[a], [b]], o), name) <==> Contains(name, a) || Contains(name, b)
  {
    if Contains(name, a) {
      assert AllPresent(name, [a]);
      assert [a] in Rule([[a], [b]], o).alternatives;
    }
    if Contains(name, b) {
      assert AllPresent(name, [b]);
      assert [b] in Rule([[a], [b]], o).alternatives;
    }
  }

  lemma FiresBoth<T>(o: T, a: string, b: string, name: string)
    ensures Fires(Rule([[a, b]], o), name) <==> Contains(name, a) && Contains(name, b)
  {
    if Contains(name, a) && Contains(name, b) {
      assert AllPresent(name, [a, b]);
      assert [a, b] in Rule([[a, b]], o).alternatives;
    }
  }

  lemma FiresEitherBoth<T>(o: T, a: string, b: string, c: string, name: string)
    ensures Fires(Rule([[a], [b, c]], o), name)
        <==> Contains(name, a) || (Contains(name, b) && Contains(name, c))
  {
    if Contains(name, a) {
      assert AllPresent(name, [a]);
      assert [a] in Rule([[a], [b, c]], o).alternatives;
    }
    if Contains(name, b) && Contains(name, c) {
      assert AllPresent(name, [b, c]);
      assert [b, c] in Rule([[a], [b, c]], o).alternatives;
    }
  }

  /**
   * categorizeProduct is exactly "first rule that fires, else Bulks" over the
   * ordered rule list, on the lower-cased name: order matters and && binds
   * tighter than ||.
   */
  lemma FirstMatchStep<T>(rules: seq<Rule<T>>, k: nat, name: string, fallback: T)
    requires k < |rules|
    ensures FirstMatch(rules[k..], name, fallback)
         == if Fires(rules[k], name) then rules[k].outcome else FirstMatch(rules[k + 1..], name, fallback)
  {
    assert rules[k..][1..] == rules[k + 1..];
  }

  lemma {:induction false} CategorizeFollowsRules(productName: string)
    ensures Categorize(productName) == FirstMatch(CategoryRules, LowerStr(productName), Bulks)
  {
    var n := LowerStr(productName);
    var rs := CategoryRules;
    LaterRules(n);
    FiresOne(Balls, "ball", n);
    FirstMatchStep(rs, 4, n, Bulks);
    FiresEither(Kasata, "kasata", "swinger", n);
    FirstMatchStep(rs, 3, n, Bulks);
    FiresOne(Kulfi, "kulfi", n);
    FirstMatchStep(rs, 2, n, Bulks);
    FiresOne(Lollies, "lollie", n);
    FirstMatchStep(rs, 1, n, Bulks);
    FiresEitherBoth(Bulks, "bulk", "big", "cup", n);
    FirstMatchStep(rs, 0, n, Bulks);
    assert rs[0..] == rs;
  }

  /** The rules after the ball rule, as the tail of the if-chain. */
  lemma {:induction false} LaterRules(n: string)
    ensures FirstMatch(CategoryRules[5..], n, Bulks) ==
      if Contains(n, "jumbo") && Contains(n, "refill") then JumboRefill
      else if Contains(n, "black forest") then BlackForest
      else if Contains(n, "1/2") || Contains(n, "half") then HalfLiters
      else if Contains(n, "1 liter") || Contains(n, "one liter") then OneLiter
      else Bulks
  {
    var rs := CategoryRules;
    assert rs[9..] == [];
    FiresEither(OneLiter, "1 liter", "one liter", n);
    FirstMatchStep(rs, 8, n, Bulks);
    FiresEither(HalfLiters, "1/2", "half", n);
    FirstMatchStep(rs, 7, n, Bulks);
    FiresOne(BlackForest, "black forest", n);
    FirstMatchStep(rs, 6, n, Bulks);
    FiresBoth(JumboRefill, "jumbo", "refill", n);
    FirstMatchStep(rs, 5, n, Bulks);
  }

  /** categorizeProduct is case-insensitive: it only sees the lower-cased name. */
  lemma CategorizeIgnoresCase(a: string, b: string)
    requires LowerStr(a) == LowerStr(b)
    ensures Categorize(a) == Categorize(b)
  {
  }

  lemma CategorizeOfLowered(name: string)
    ensures Categorize(LowerStr(name)) == Categorize(name)
  {
    LowerStrIdempotent(name);
  }

  /** bulk, or big together with cup, always gives Bulks, whatever else the name holds. */
  lemma BulkRule(name: string)
    requires Contains(LowerStr(name), "bulk")
          || (Contains(LowerStr(name), "big") && Contains(LowerStr(name), "cup"))
    ensures Categorize(name) == Bulks
  {
  }

  /** "Cups (BIG)": big together with cup, so Bulks. */
  lemma CategorizeCupsBig()
    ensures Categorize("Cups (BIG)") == Bulks
  {
    var n := "cups (big)";
    assert Lower('B') == 'b' && Lower('I') == 'i' && Lower('G') == 'g' && Lower('C') == 'c';
    assert LowerStr("Cups (BIG)") == n;
    assert MatchAt(n, "big", 6) && MatchAt(n, "cup", 0);
  }

  /** the kulfi rule is tried before the ball rule, so a kulfi ball is Kulfi. */
  lemma CategorizeKulfiBall()
    ensures Categorize("Kulfi Ball") == Kulfi
  {
    var n := "kulfi ball";
    assert Lower('K') == 'k' && Lower('B') == 'b';
    assert LowerStr("Kulfi Ball") == n;
    assert MatchAt(n, "kulfi", 0);
    AbsentPair(n, "bulk", 0);
    AbsentChar(n, "big", 2);
    AbsentChar(n, "lollie", 1);
  }

  /** the ball rule is tried before the black-forest rule, so a black forest ball is Balls. */
  lemma CategorizeBlackForestBall()
    ensures Categorize("black forest ball") == Balls
  {
    var n := "black forest ball";
    assert LowerStr(n) == n;
    assert MatchAt(n, "ball", 13);
    AbsentChar(n, "bulk", 1);
    AbsentChar(n, "big", 1);
    AbsentChar(n, "lollie", 4);
    AbsentChar(n, "kulfi", 1);
    AbsentPair(n, "kasata", 0);
    AbsentChar(n, "swinger", 1);
  }

  /** Jumbo Refill needs both words. */
  lemma CategorizeJumboRefill()
    ensures Categorize("Jumbo Refill") == JumboRefill
  {
    var n := "jumbo refill";
    assert Lower('J') == 'j' && Lower('R') == 'r';
    assert LowerStr("Jumbo Refill") == n;
    assert MatchAt(n, "jumbo", 0) && MatchAt(n, "refill", 6);
    JumboRefillHasNoEarlyKeyword();
  }

  lemma JumboRefillHasNoEarlyKeyword()
    ensures NoEarlyKeyword("jumbo refill")
  {
    var n := "jumbo refill";
    AbsentChar(n, "bulk", 3);
    AbsentChar(n, "big", 2);
    AbsentPair(n, "lollie", 0);
    AbsentChar(n, "kulfi", 0);
    AbsentChar(n, "kasata", 0);
    AbsentChar(n, "swinger", 1);
    AbsentChar(n, "ball", 1);
  }

  /** The name includes none of the keywords of the first five tests. */
  predicate NoEarlyKeyword(n: string) {
    !Contains(n, "bulk") && !Contains(n, "big") && !Contains(n, "lollie") && !Contains(n, "kulfi")
    && !Contains(n, "kasata") && !Contains(n, "swinger") && !Contains(n, "ball")
  }

  /** The name includes none of the keywords of the last four tests. */
  predicate NoLateKeyword(n: string) {
    !Contains(n, "jumbo") && !Contains(n, "black forest") && !Contains(n, "1/2")
    && !Contains(n, "half") && !Contains(n, "1 liter") && !Contains(n, "one liter")
  }

  /** The lower-cased name includes none of categorizeProduct's keywords. */
  predicate NoCategoryKeyword(n: string) {
    NoEarlyKeyword(n) && NoLateKeyword(n)
  }

  /** A name with none of the keywords falls back to Bulks. */
  lemma CategorizeFallback(productName: string)
    requires NoCategoryKeyword(LowerStr(productName))
    ensures Categorize(productName) == Bulks
  {
  }

  lemma ChocofiestHasNoEarlyKeyword()
    ensures NoEarlyKeyword("chocofiest")
  {
    var n := "chocofiest";
    AbsentChar(n, "bulk", 0);
    AbsentChar(n, "big", 0);
    AbsentChar(n, "lollie", 0);
    AbsentChar(n, "kulfi", 0);
    AbsentChar(n, "kasata", 0);
    AbsentChar(n, "swinger", 1);
    AbsentChar(n, "ball", 0);
  }

  lemma ChocofiestHasNoLateKeyword()
    ensures NoLateKeyword("chocofiest")
  {
    var n := "chocofiest";
    AbsentChar(n, "jumbo", 0);
    AbsentChar(n, "black forest", 0);
    AbsentChar(n, "1/2", 0);
    AbsentChar(n, "half", 1);
    AbsentChar(n, "1 liter", 0);
    AbsentChar(n, "one liter", 1);
  }

  /** "Chocofiest" names no category, so it is filed under Bulks. */
  lemma CategorizeChocofiest()
    ensures Categorize("Chocofiest") == Bulks
  {
    assert Lower('C') == 'c';
    assert LowerStr("Chocofiest") == "chocofiest";
    ChocofiestHasNoEarlyKeyword();
    ChocofiestHasNoLateKeyword();
    CategorizeFallback("Chocofiest");
  }

  lemma PunjabiKufiHasNoEarlyKeyword()
    ensures NoEarlyKeyword("punjabi kufi")
  {
    var n := "punjabi kufi";
    AbsentChar(n, "bulk", 2);
    AbsentChar(n, "big", 2);
    AbsentChar(n, "lollie", 0);
    AbsentChar(n, "kulfi", 2);
    AbsentChar(n, "kasata", 4);
    AbsentChar(n, "swinger", 1);
    AbsentChar(n, "ball", 2);
  }

  lemma PunjabiKufiHasNoLateKeyword()
    ensures NoLateKeyword("punjabi kufi")
  {
    var n := "punjabi kufi";
    AbsentChar(n, "jumbo", 4);
    AbsentChar(n, "black forest", 1);
    AbsentChar(n, "1/2", 0);
    AbsentChar(n, "half", 0);
    AbsentChar(n, "1 liter", 0);
    AbsentChar(n, "one liter", 0);
  }

  /** "Punjabi Kufi" is not spelled kulfi, so it falls back to Bulks. */
  lemma CategorizePunjabiKufi()
    ensures Categorize("Punjabi Kufi") == Bulks
  {
    assert Lower('P') == 'p' && Lower('K') == 'k';
    assert LowerStr("Punjabi Kufi") == "punjabi kufi";
    PunjabiKufiHasNoEarlyKeyword();
    PunjabiKufiHasNoLateKeyword();
    CategorizeFallback("Punjabi Kufi");
  }

  // ---- per-category tallies: Record<ProductCategory, number> ----

  /** Count for a category in a tally; an absent key reads as 0 (`counts[c] || 0`). */
  function CountFor(counts: map<Category, nat>, c: Category): nat {
    if c in counts then counts[c] else 0
  }

  /** The tally of a list of categories: each category present maps to its number of occurrences. */
  function TallyOf(cats: seq<Category>): map<Category, nat> {
    map c | c in cats :: multiset(cats)[c]
  }

  /** One more element bumps exactly that category's count (`acc[c] = (acc[c] || 0) + 1`). */
  lemma TallyStep(cats: seq<Category>, x: Category)
    ensures TallyOf(cats + [x]) == TallyOf(cats)[x := CountFor(TallyOf(cats), x) + 1]
  {
    var l, r := TallyOf(cats + [x]), TallyOf(cats)[x := CountFor(TallyOf(cats), x) + 1];
    assert multiset(cats + [x]) == multiset(cats) + multiset{x};
    assert l.Keys == r.Keys;
    forall c | c in l ensures l[c] == r[c] {
      if c != x {
        assert c in cats;
      }
    }
  }

  /** Sum of a tally over the listed categories. */
  function SumOver(cs: seq<Category>, counts: map<Category, nat>): nat {
    if cs == [] then 0 else SumOver(Init(cs), counts) + CountFor(counts, Last(cs))
  }

  /** Sum of all the values of a tally (Object.values(counts).reduce(+, 0)). */
  function SumCounts(counts: map<Category, nat>): nat {
    SumOver(CategoryKeys, counts)
  }

  lemma {:induction false} SumOverStep(cs: seq<Category>, cats: seq<Category>, x: Category)
    ensures SumOver(cs, TallyOf(cats + [x])) == SumOver(cs, TallyOf(cats)) + multiset(cs)[x]
    decreases |cs|
  {
    if cs != [] {
      SumOverStep(Init(cs), cats, x);
      TallyStep(cats, x);
      assert cs == Init(cs) + [Last(cs)];
      assert multiset(cs) == multiset(Init(cs)) + multiset{Last(cs)};
    }
  }

  /** A tally of n categories sums to n: every element is counted exactly once. */
  lemma {:induction false} TallySum(cats: seq<Category>)
    ensures SumCounts(TallyOf(cats)) == |cats|
    decreases |cats|
  {
    if cats == [] {
      assert TallyOf(cats) == map[];
      SumOverEmpty(CategoryKeys);
    } else {
      TallySum(Init(cats));
      assert cats == Init(cats) + [Last(cats)];
      SumOverStep(CategoryKeys, Init(cats), Last(cats));
      KeyOccursOnce(Last(cats));
    }
  }

  lemma {:induction false} SumOverEmpty(cs: seq<Category>)
    ensures SumOver(cs, map[]) == 0
    decreases |cs|
  {
    if cs != [] {
      SumOverEmpty(Init(cs));
    }
  }

  /**
   * The reduce both catalogue pages run: start from {} and, for each
   * category in turn, set acc[c] = (acc[c] || 0) + 1.
   */
  method Tally(cats: seq<Category>) returns (counts: map<Category, nat>)
    ensures counts == TallyOf(cats)
    ensures forall c :: c in counts <==> c in cats
    ensures forall c :: c in counts ==> counts[c] == multiset(cats)[c]
    ensures SumCounts(counts) == |cats|
  {
    counts := map[];
    var i := 0;
    while i < |cats|
      invariant 0 <= i <= |cats|
      invariant counts == TallyOf(cats[..i])
    {
      TallyStep(cats[..i], cats[i]);
      assert cats[..i + 1] == cats[..i] + [cats[i]];
      counts := counts[cats[i] := CountFor(counts, cats[i]) + 1];
      i := i + 1;
    }
    assert cats[..i] == cats;
    TallySum(cats);
  }

  // ---- the catalogue search ----

  /**
   * The search test shared by the catalogue pages: the lower-cased name, or
   * the stored category's lower-cased name, includes the lower-cased term.
   */
  predicate MatchesSearch(name: string, category: Option<Category>, term: string) {
    Contains(LowerStr(name), LowerStr(term))
    || (category.Some? && Contains(LowerStr(CategoryName(category.value)), LowerStr(term)))
  }

  /** Every name includes the empty string, so an empty term would match everything. */
  lemma EmptyTermMatches(name: string, category: Option<Category>)
    ensures MatchesSearch(name, category, "")
  {
    assert MatchAt(LowerStr(name), LowerStr(""), 0);
  }
}
