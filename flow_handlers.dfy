/**
  The data side of the WhatsApp Flows ordering form: the category list, the
  item list and the customisation options it shows, promo-code validation,
  the order total, and the order document written on submission.

  Money is exact `real`; `round(x, 2)` is `Round2`. The promo, menu and
  topping collections are parameters, and so is the clock (`now` for the
  promo validity window, `timestamp` and `createdAt` for the order).
 */
module FlowHandlers {
  import opened Wrappers
  import opened PyText
  import opened Menu

  // ---------------------------------------------------------------------
  // Rounding to hundredths

  /** `x` is a whole number of hundredths. */
  predicate IsCents(x: real) {
    (x * 100.0).Floor as real == x * 100.0
  }

  /** `round(x, 2)`, halves rounded up. */
  function Round2(x: real): (r: real)
    ensures IsCents(r)
    ensures r - 1.0 / 200.0 <= x < r + 1.0 / 200.0
  {
    var n := (x * 100.0 + 0.5).Floor;
    assert (n as real / 100.0) * 100.0 == n as real;
    n as real / 100.0
  }

  /** Rounding leaves a whole number of hundredths as it is. */
  lemma Round2OfCents(x: real)
    requires IsCents(x)
    ensures Round2(x) == x
  {
    var n := (x * 100.0).Floor;
    assert x * 100.0 + 0.5 == n as real + 0.5;
    assert (x * 100.0 + 0.5).Floor == n;
  }

  /** Rounding never reverses an order. */
  lemma Round2Monotone(x: real, y: real)
    requires x <= y
    ensures Round2(x) <= Round2(y)
  {
    assert (x * 100.0 + 0.5).Floor <= (y * 100.0 + 0.5).Floor;
  }

  // ---------------------------------------------------------------------
  // Categories, items and customisation options

  /** One `{id, title}` choice of a selector. */
  datatype Choice = Choice(id: string, title: string)

  /** `FLOW_CATEGORIES`, in declaration order. */
  const FlowCategories: seq<(string, string)> := [
    ("starters", "🍗 Starters"),
    ("spin_rolls", "🌯 Spin Rolls"),
    ("appetizers", "🍟 Appetizers"),
    ("wings", "🍗 Wings"),
    ("traditional_pizza", "🍕 Traditional Pizza"),
    ("special_pizza", "✨ Special Pizza"),
    ("signature_pizza", "👑 Signature Pizza"),
    ("square_pizza", "⬜ Square Pizza"),
    ("pastas", "🍝 Pastas"),
    ("royal_pizza", "👑 Royal Pizza"),
    ("burgers", "🍔 Burgers"),
    ("doner_wrap_shawarma", "🌯 Doner/Wrap/Shawarma"),
    ("french_fries", "🍟 French Fries"),
    ("sandwiches", "🥪 Sandwiches"),
    ("cold_drinks", "🥤 Cold Drinks"),
    ("toppings", "✨ Toppings")
  ]

  /** `get_categories_for_flow`: the fixed categories as choices, in declaration order. */
  method GetCategoriesForFlow() returns (categories: seq<Choice>)
    ensures |categories| == 16
    ensures forall i :: 0 <= i < 16 ==> categories[i] == Choice(FlowCategories[i].0, FlowCategories[i].1)
  {
    categories := [];
    var i := 0;
    while i < |FlowCategories|
      invariant 0 <= i <= |FlowCategories|
      invariant |categories| == i
      invariant forall k :: 0 <= k < i ==> categories[k] == Choice(FlowCategories[k].0, FlowCategories[k].1)
    {
      var (key, name) := FlowCategories[i];
      categories := categories + [Choice(key, name)];
      i := i + 1;
    }
  }

  /** `to_list(length=100)` on the item read of the form. */
  const FlowItemLimit: nat := 100

  /** What an item title shows: the starting price of a sized dish, a flat price, or the name alone. */
  datatype ItemTitle =
    | FromPrice(name: string, firstPrice: int)
    | AtPrice(name: string, price: int)
    | NameOnly(name: string)

  datatype FlowItem = FlowItem(id: string, title: ItemTitle)

  /**
    The title rule of `get_items_for_flow` for a document whose size dict,
    if any, is not empty (an empty one has no first price).
   */
  function ItemTitleOf(doc: MenuDoc): (t: ItemTitle)
    requires doc.sizes != Some([])
    ensures doc.sizes.Some? ==> t == FromPrice(doc.name.GetOr("Unknown"), doc.sizes.value[0].1)
    ensures doc.sizes.None? && doc.price.Some? ==> t == AtPrice(doc.name.GetOr("Unknown"), doc.price.value)
    ensures doc.sizes.None? && doc.price.None? ==> t == NameOnly(doc.name.GetOr("Unknown"))
  {
    var name := doc.name.GetOr("Unknown");
    match doc.sizes
    case Some(m) => FromPrice(name, m[0].1)
    case None => if doc.price.Some? then AtPrice(name, doc.price.value) else NameOnly(name)
  }

  /** The documents the form lists for `category`. */
  function FlowItemDocs(menus: seq<MenuDoc>, category: string): seq<MenuDoc> {
    Take(InCategory(menus, Some(category)), FlowItemLimit)
  }

  /** Some listed document carries an empty size dict. */
  ghost predicate HasEmptySizeDict(docs: seq<MenuDoc>) {
    exists i :: 0 <= i < |docs| && docs[i].sizes == Some([])
  }

  /**
    `get_items_for_flow`: one item per document of the category, in order,
    titled by `ItemTitleOf`. An empty size dict raises inside the loop and
    the error handler answers with no items at all.
   */
  method GetItemsForFlow(menus: seq<MenuDoc>, category: string) returns (items: seq<FlowItem>)
    ensures HasEmptySizeDict(FlowItemDocs(menus, category)) ==> items == []
    ensures !HasEmptySizeDict(FlowItemDocs(menus, category)) ==>
      var docs := FlowItemDocs(menus, category);
      && |items| == |docs|
      && forall i :: 0 <= i < |docs| ==> items[i] == FlowItem(docs[i].id, ItemTitleOf(docs[i]))
  {
    var docs := FlowItemDocs(menus, category);
    items := [];
    var i := 0;
    while i < |docs|
      invariant 0 <= i <= |docs|
      invariant |items| == i
      invariant forall k :: 0 <= k < i ==> docs[k].sizes != Some([])
      invariant forall k :: 0 <= k < i ==> items[k] == FlowItem(docs[k].id, ItemTitleOf(docs[k]))
    {
      if docs[i].sizes == Some([]) {
        return [];
      }
      items := items + [FlowItem(docs[i].id, ItemTitleOf(docs[i]))];
      i := i + 1;
    }
  }

  /** One `toppings` document. */
  datatype ToppingDoc = ToppingDoc(id: string, name: Option<string>, sizes: Option<SizeMap>)

  /** `to_list(length=50)` on the topping read. */
  const ToppingLimit: nat := 50

  datatype SizeOption = SizeOption(id: string, name: string, price: int)

  /** An add-on choice, priced at its topping's first size. */
  datatype AddonOption = AddonOption(id: string, name: string, price: int)

  datatype CustomizeOptions = CustomizeOptions(sizes: seq<SizeOption>, addons: seq<AddonOption>)

  /** `a` is priced at the first size of a topping of `toppings` that has the same id. */
  ghost predicate FromTopping(toppings: seq<ToppingDoc>, a: AddonOption) {
    exists j :: 0 <= j < |toppings| && toppings[j].id == a.id && toppings[j].sizes.Some? &&
      toppings[j].sizes.value != [] && a.price == toppings[j].sizes.value[0].1
  }

  /** The add-on a topping offers: its name, priced at its first size (0 when it has none). */
  function AddonOf(t: ToppingDoc): AddonOption {
    AddonOption(t.id, t.name.GetOr(""), if t.sizes.Some? && t.sizes.value != [] then t.sizes.value[0].1 else 0)
  }

  /**
    The add-ons offered from `toppings`: one per topping with a size dict,
    in order; a topping without one is skipped, and an empty size dict ends
    the list there (the error it raises is caught around the whole loop).
   */
  function Addons(toppings: seq<ToppingDoc>): (r: seq<AddonOption>)
    ensures |r| <= |toppings|
    ensures forall i :: 0 <= i < |r| ==> FromTopping(toppings, r[i])
  {
    if toppings == [] then []
    else
      var t := toppings[0];
      var rest := Addons(toppings[1..]);
      assert forall i :: 0 <= i < |rest| ==> FromTopping(toppings, rest[i]) by {
        forall i | 0 <= i < |rest|
          ensures FromTopping(toppings, rest[i])
        {
          var j :| 0 <= j < |toppings[1..]| && toppings[1..][j].id == rest[i].id && toppings[1..][j].sizes.Some? &&
            toppings[1..][j].sizes.value != [] && rest[i].price == toppings[1..][j].sizes.value[0].1;
          assert toppings[j + 1] == toppings[1..][j];
        }
      }
      match t.sizes
      case None => rest
      case Some(m) =>
        if m == [] then []
        else
          assert FromTopping(toppings, AddonOf(t)) by {
            assert toppings[0] == t;
          }
          [AddonOf(t)] + rest
  }

  /** The position of the first topping whose size dict is empty, or the number of toppings. */
  function FirstEmptySizes(toppings: seq<ToppingDoc>): (k: nat)
    ensures k <= |toppings|
    ensures forall j :: 0 <= j < k ==> toppings[j].sizes != Some([])
    ensures k < |toppings| ==> toppings[k].sizes == Some([])
  {
    if toppings == [] || toppings[0].sizes == Some([]) then 0
    else
      var k := FirstEmptySizes(toppings[1..]);
      assert forall j :: 1 <= j < k + 1 ==> toppings[j] == toppings[1..][j - 1];
      k + 1
  }

  /** The add-on each topping before the first empty size dict would offer. */
  ghost function AddonCandidates(toppings: seq<ToppingDoc>): (r: seq<AddonOption>)
    ensures |r| == FirstEmptySizes(toppings) && forall k :: 0 <= k < |r| ==> r[k] == AddonOf(toppings[k])
  {
    seq(FirstEmptySizes(toppings), k requires 0 <= k < FirstEmptySizes(toppings) => AddonOf(toppings[k]))
  }

  /** Which toppings before the first empty size dict have a size dict. */
  ghost function SizedMask(toppings: seq<ToppingDoc>): (keep: seq<bool>)
    ensures |keep| == FirstEmptySizes(toppings) && forall k :: 0 <= k < |keep| ==> keep[k] == toppings[k].sizes.Some?
  {
    seq(FirstEmptySizes(toppings), k requires 0 <= k < FirstEmptySizes(toppings) => toppings[k].sizes.Some?)
  }

  /** The positions `Addons` takes its toppings from. */
  lemma {:induction false} AddonsPositions(toppings: seq<ToppingDoc>) returns (idx: seq<nat>)
    ensures FilteredAt(Addons(toppings), AddonCandidates(toppings), SizedMask(toppings), idx)
  {
    if toppings == [] || toppings[0].sizes == Some([]) {
      return [];
    }
    var tail := toppings[1..];
    var rest := AddonsPositions(tail);
    var cands, keep := AddonCandidates(toppings), SizedMask(toppings);
    assert cands[1..] == AddonCandidates(tail);
    assert keep[1..] == SizedMask(tail);
    idx := FilteredCons(cands, keep, Addons(tail), rest);
    assert cands[0] == AddonOf(toppings[0]);
  }

  /**
    `Addons` offers, in order and each once, the add-on of every topping
    with a size dict that comes before the first topping whose size dict is
    empty, and nothing else.
   */
  lemma AddonsInOrder(toppings: seq<ToppingDoc>)
    ensures exists idx :: FilteredAt(Addons(toppings), AddonCandidates(toppings), SizedMask(toppings), idx)
  {
    var idx := AddonsPositions(toppings);
  }

  /** The size choices of a dish, one per entry of its sizes dictionary, in order. */
  method SizeOptions(m: SizeMap) returns (sizes: seq<SizeOption>)
    ensures |sizes| == |m|
    ensures forall i :: 0 <= i < |m| ==> sizes[i] == SizeOption(Slug(m[i].0), m[i].0, m[i].1)
  {
    sizes := [];
    var i := 0;
    while i < |m|
      invariant 0 <= i <= |m|
      invariant |sizes| == i
      invariant forall k :: 0 <= k < i ==> sizes[k] == SizeOption(Slug(m[k].0), m[k].0, m[k].1)
    {
      sizes := sizes + [SizeOption(Slug(m[i].0), m[i].0, m[i].1)];
      i := i + 1;
    }
  }

  /** The add-on loop: a topping with an empty sizes dictionary ends it. */
  method AddonOptions(ts: seq<ToppingDoc>) returns (addons: seq<AddonOption>)
    ensures addons == Addons(ts)
  {
    addons := [];
    var j := 0;
    var stopped := false;
    while j < |ts| && !stopped
      invariant 0 <= j <= |ts|
      invariant !stopped ==> addons + Addons(ts[j..]) == Addons(ts)
      invariant stopped ==> addons == Addons(ts)
    {
      var t := ts[j];
      assert ts[j..] == [t] + ts[j + 1..];
      match t.sizes {
        case None =>
        case Some(sm) =>
          if sm == [] {
            stopped := true;
          } else {
            addons := addons + [AddonOf(t)];
          }
      }
      j := j + 1;
    }
    if !stopped {
      assert ts[j..] == [];
    }
  }

  /**
    `get_customize_options` for the item found under the requested id (or
    `None`): every size of the item with its id `Slug(size)`, then the
    add-ons from the first 50 toppings.
   */
  method GetCustomizeOptions(item: Option<MenuDoc>, toppings: seq<ToppingDoc>) returns (options: CustomizeOptions)
    ensures item.None? ==> options == CustomizeOptions([], [])
    ensures item.Some? ==>
      var m := item.value.sizes.GetOr([]);
      && |options.sizes| == |m|
      && (forall i :: 0 <= i < |m| ==> options.sizes[i] == SizeOption(Slug(m[i].0), m[i].0, m[i].1))
      && options.addons == Addons(Take(toppings, ToppingLimit))
  {
    if item.None? {
      return CustomizeOptions([], []);
    }
    var sizes := SizeOptions(item.value.sizes.GetOr([]));
    var addons := AddonOptions(Take(toppings, ToppingLimit));
    options := CustomizeOptions(sizes, addons);
  }


  // ---------------------------------------------------------------------
  // Promo codes

  /** One `promo_codes` document; times are instants on one clock. */
  datatype PromoDoc = PromoDoc(
    code: string,
    validFrom: Option<int>,
    validUntil: Option<int>,
    minOrder: Option<real>,
    discountType: Option<string>,
    discountValue: Option<real>)

  /** What the promo message says. */
  datatype PromoMessage =
    | NotFound(code: string)
    | NotYetValid
    | Expired
    | MinimumOrder(minOrder: real)
    | Applied(discount: real)

  datatype PromoResult = PromoResult(valid: bool, discount: real, message: PromoMessage)

  /** `find_one({"code": code})`: the first promo stored under exactly `code`. */
  function FindPromo(promos: seq<PromoDoc>, code: string): (r: Option<PromoDoc>)
    ensures r.Some? ==> r.value in promos && r.value.code == code
    ensures r.None? ==> forall p :: p in promos ==> p.code != code
  {
    if promos == [] then None
    else if promos[0].code == code then Some(promos[0])
    else FindPromo(promos[1..], code)
  }

  function MinOrder(p: PromoDoc): real {
    p.minOrder.GetOr(0.0)
  }

  predicate IsPercentage(p: PromoDoc) {
    p.discountType.GetOr("percentage") == "percentage"
  }

  /** `amount * (rate / 100)`. */
  function Percent(amount: real, rate: real): real {
    amount * (rate / 100.0)
  }

  /** The discount a promo grants on `subtotal`. */
  function PromoDiscount(p: PromoDoc, subtotal: real): real {
    var value := p.discountValue.GetOr(0.0);
    if IsPercentage(p) then Round2(Percent(subtotal, value)) else value
  }

  /** A promo is redeemable when `now` lies in its window and the subtotal reaches its minimum. */
  ghost predicate Redeemable(p: PromoDoc, subtotal: real, now: int) {
    && (p.validFrom.None? || p.validFrom.value <= now)
    && (p.validUntil.None? || now <= p.validUntil.value)
    && MinOrder(p) <= subtotal
  }

  /**
    `validate_promo_code`: look the code up upper-cased, then reject, in
    this order, a missing record, a window not yet open, a window closed,
    a subtotal below the minimum; otherwise grant the discount.
   */
  function ValidatePromoCode(promos: seq<PromoDoc>, code: string, subtotal: real, now: int): (r: PromoResult)
    ensures r.valid <==> FindPromo(promos, Upper(code)).Some? && Redeemable(FindPromo(promos, Upper(code)).value, subtotal, now)
    ensures !r.valid ==> r.discount == 0.0
    ensures r.valid ==> r.message == Applied(r.discount)
    ensures r.message == NotFound(code) <==> FindPromo(promos, Upper(code)).None?
    ensures r.message == NotYetValid <==>
      && FindPromo(promos, Upper(code)).Some?
      && var p := FindPromo(promos, Upper(code)).value;
         p.validFrom.Some? && now < p.validFrom.value
    ensures r.message == Expired <==>
      && FindPromo(promos, Upper(code)).Some?
      && var p := FindPromo(promos, Upper(code)).value;
         (p.validFrom.None? || p.validFrom.value <= now) && p.validUntil.Some? && now > p.validUntil.value
    ensures r.message.MinimumOrder? <==>
      && FindPromo(promos, Upper(code)).Some?
      && var p := FindPromo(promos, Upper(code)).value;
         && (p.validFrom.None? || p.validFrom.value <= now)
         && (p.validUntil.None? || now <= p.validUntil.value)
         && subtotal < MinOrder(p)
    ensures r.message.MinimumOrder? ==> r.message.minOrder == MinOrder(FindPromo(promos, Upper(code)).value)
    ensures r.valid <==> r.message.Applied?
    ensures r.valid ==>
      var p := FindPromo(promos, Upper(code)).value;
      var value := p.discountValue.GetOr(0.0);
      if IsPercentage(p) then
        IsCents(r.discount) && r.discount - 1.0 / 200.0 <= Percent(subtotal, value) < r.discount + 1.0 / 200.0
      else
        r.discount == value
  {
    match FindPromo(promos, Upper(code))
    case None => PromoResult(false, 0.0, NotFound(code))
    case Some(p) =>
      if p.validFrom.Some? && now < p.validFrom.value then PromoResult(false, 0.0, NotYetValid)
      else if p.validUntil.Some? && now > p.validUntil.value then PromoResult(false, 0.0, Expired)
      else if subtotal < MinOrder(p) then PromoResult(false, 0.0, MinimumOrder(MinOrder(p)))
      else
        var discount := PromoDiscount(p, subtotal);
        PromoResult(true, discount, Applied(discount))
  }

  /** The code is matched whatever its letter case. */
  lemma PromoLookupIgnoresCase(promos: seq<PromoDoc>, code: string, subtotal: real, now: int)
    ensures ValidatePromoCode(promos, Upper(code), subtotal, now).valid == ValidatePromoCode(promos, code, subtotal, now).valid
    ensures ValidatePromoCode(promos, Upper(code), subtotal, now).discount == ValidatePromoCode(promos, code, subtotal, now).discount
  {
    UpperIdempotent(code);
  }

  lemma UpperIdempotent(s: string)
    ensures Upper(Upper(s)) == Upper(s)
  {
    var u := Upper(s);
    assert forall i :: 0 <= i < |u| ==> UpperChar(u[i]) == u[i];
  }

  /**
    A percentage of at most 100 never discounts more than the subtotal, nor
    less than nothing, when the subtotal is in whole hundredths.
   */
  lemma PercentageDiscountBounded(p: PromoDoc, subtotal: real)
    requires IsPercentage(p) && 0.0 <= p.discountValue.GetOr(0.0) <= 100.0
    requires 0.0 <= subtotal && IsCents(subtotal)
    ensures 0.0 <= PromoDiscount(p, subtotal) <= subtotal
  {
    var value := p.discountValue.GetOr(0.0);
    PercentWithin(subtotal, value);
    RoundedWithin(Percent(subtotal, value), subtotal);
  }

  /** Rounding an amount between 0 and a whole number of hundredths stays between them. */
  lemma RoundedWithin(x: real, a: real)
    requires 0.0 <= x <= a && IsCents(a)
    ensures 0.0 <= Round2(x) <= a
  {
    Round2Monotone(0.0, x);
    Round2Monotone(x, a);
    Round2OfCents(0.0);
    Round2OfCents(a);
  }

  /** A percentage between 0 and 100 of a non-negative amount lies between 0 and the amount. */
  lemma PercentWithin(amount: real, rate: real)
    requires 0.0 <= amount && 0.0 <= rate <= 100.0
    ensures 0.0 <= Percent(amount, rate) <= amount
  {
    var k := rate / 100.0;
    NonNegativeProduct(amount, k);
    NonNegativeProduct(amount, 1.0 - k);
    assert amount * (1.0 - k) == amount - amount * k;
  }

  lemma NonNegativeProduct(a: real, b: real)
    requires 0.0 <= a && 0.0 <= b
    ensures 0.0 <= a * b
  {
  }

  // ---------------------------------------------------------------------
  // Order total

  /** A cart line of the form; only its `item_total` is priced. */
  datatype FlowLine = FlowLine(itemTotal: Option<real>)

  /** The sum of the lines' `item_total`, a missing one counting 0. */
  function SumItemTotals(lines: seq<FlowLine>): real {
    if lines == [] then 0.0 else SumItemTotals(lines[..|lines| - 1]) + lines[|lines| - 1].itemTotal.GetOr(0.0)
  }

  /** The totals block; `promoMessage == None` is the empty message. */
  datatype OrderTotal = OrderTotal(subtotal: real, discount: real, tax: real, total: real, promoMessage: Option<PromoMessage>)

  /**
    `calculate_order_total`: the subtotal of the lines, the discount of the
    promo code when one is given and valid, no tax, and the total
    subtotal - discount + tax rounded to hundredths (not clamped at 0).
   */
  method CalculateOrderTotal(lines: seq<FlowLine>, promoCode: Option<string>, promos: seq<PromoDoc>, now: int)
    returns (totals: OrderTotal)
    ensures totals.subtotal == SumItemTotals(lines) && totals.tax == 0.0
    ensures promoCode.GetOr("") == "" ==> totals.discount == 0.0 && totals.promoMessage == None
    ensures promoCode.GetOr("") != "" ==>
      var r := ValidatePromoCode(promos, promoCode.value, totals.subtotal, now);
      totals.promoMessage == Some(r.message) && totals.discount == (if r.valid then r.discount else 0.0)
    ensures totals.total == Round2(totals.subtotal - totals.discount + totals.tax)
  {
    var subtotal := 0.0;
    var i := 0;
    while i < |lines|
      invariant 0 <= i <= |lines|
      invariant subtotal == SumItemTotals(lines[..i])
    {
      assert lines[..i + 1][..i] == lines[..i];
      subtotal := subtotal + lines[i].itemTotal.GetOr(0.0);
      i := i + 1;
    }
    assert lines[..|lines|] == lines;
    var discount := 0.0;
    var message: Option<PromoMessage> := None;
    if promoCode.GetOr("") != "" {
      var r := ValidatePromoCode(promos, promoCode.value, subtotal, now);
      if r.valid {
        discount := r.discount;
      }
      message := Some(r.message);
    }
    var tax := Round2(subtotal * 0.0);
    Round2OfCents(0.0);
    totals := OrderTotal(subtotal, discount, tax, Round2(subtotal - discount + tax), message);
  }

  /**
    The order total is not clamped at 0: when the promo code grants a
    discount at least one hundredth above the subtotal of the lines, the
    total `CalculateOrderTotal` answers (the rounded subtotal - discount + 0
    tax of its contract) is negative.
   */
  lemma TotalNotClamped(lines: seq<FlowLine>, code: string, promos: seq<PromoDoc>, now: int)
    requires code != ""
    requires ValidatePromoCode(promos, code, SumItemTotals(lines), now).valid
    requires ValidatePromoCode(promos, code, SumItemTotals(lines), now).discount >= SumItemTotals(lines) + 0.01
    ensures Round2(SumItemTotals(lines) - ValidatePromoCode(promos, code, SumItemTotals(lines), now).discount + 0.0) < 0.0
  {
    var x := SumItemTotals(lines) - ValidatePromoCode(promos, code, SumItemTotals(lines), now).discount + 0.0;
    assert x * 100.0 + 0.5 <= -0.5;
  }

  // ---------------------------------------------------------------------
  // Order document

  /** The phone with every `+` and space taken out. */
  function CleanPhone(phone: string): string {
    RemoveChar(RemoveChar(phone, '+'), ' ')
  }

  /** The cleaned phone holds neither `+` nor a space. */
  lemma CleanPhoneChars(phone: string)
    ensures forall j :: 0 <= j < |CleanPhone(phone)| ==> CleanPhone(phone)[j] != '+' && CleanPhone(phone)[j] != ' '
  {
    var withoutPlus := RemoveChar(phone, '+');
    assert '+' !in withoutPlus;
    assert forall j :: 0 <= j < |CleanPhone(phone)| ==> CleanPhone(phone)[j] in withoutPlus;
  }

  /** The order id: `LOM-`, the timestamp, `-`, and the last (up to) four characters of the cleaned phone. */
  function OrderId(phone: string, timestamp: string): (id: string)
    ensures |id| == 5 + |timestamp| + (if |CleanPhone(phone)| < 4 then |CleanPhone(phone)| else 4)
    ensures id[..4] == "LOM-" && id[4..4 + |timestamp|] == timestamp && id[4 + |timestamp|] == '-'
    ensures id[5 + |timestamp|..] == TakeLast(CleanPhone(phone), 4)
    ensures forall i :: 5 + |timestamp| <= i < |id| ==> id[i] != '+' && id[i] != ' '
  {
    var clean := CleanPhone(phone);
    CleanPhoneChars(phone);
    var suffix := TakeLast(clean, 4);
    assert forall j :: 0 <= j < |suffix| ==> suffix[j] == clean[|clean| - |suffix| + j];
    var head := "LOM-" + timestamp + "-";
    var id := head + suffix;
    assert id[..|head|] == head && id[|head|..] == suffix;
    assert head[..4] == "LOM-" && head[4..4 + |timestamp|] == timestamp;
    assert forall i :: |head| <= i < |id| ==> id[i] == suffix[i - |head|];
    id
  }

  lemma {:induction false} RemoveAbsentChar(s: string, a: char)
    requires a !in s
    ensures RemoveChar(s, a) == s
  {
    if s != [] {
      assert s[1..] == s[1..];
      assert a !in s[1..];
      RemoveAbsentChar(s[1..], a);
      assert [s[0]] + s[1..] == s;
    }
  }

  /**
    For a number written `+` then digits, at least four of them, the id
    ends with its last four digits.
   */
  lemma OrderIdOfInternationalNumber(phone: string, timestamp: string)
    requires |phone| >= 5 && phone[0] == '+' && AllDigits(phone[1..])
    ensures OrderId(phone, timestamp) == "LOM-" + timestamp + "-" + phone[|phone| - 4..]
  {
    var digits := phone[1..];
    assert '+' !in digits && ' ' !in digits;
    RemoveAbsentChar(digits, '+');
    RemoveAbsentChar(digits, ' ');
    assert phone == ['+'] + digits;
    assert RemoveChar(phone, '+') == RemoveChar(digits, '+');
    assert CleanPhone(phone) == digits;
    assert digits[|digits| - 4..] == phone[|phone| - 4..];
  }

  /** The input of `create_order_from_flow`; each key possibly absent. */
  datatype OrderData = OrderData(
    customerPhone: Option<string>,
    customerName: Option<string>,
    customerAddress: Option<string>,
    deliveryNotes: Option<string>,
    cartItems: Option<seq<FlowLine>>,
    subtotal: Option<real>,
    discount: Option<real>,
    tax: Option<real>,
    total: Option<real>,
    paymentMethod: Option<string>,
    promoCode: Option<string>)

  /** The order document inserted into `orders`. */
  datatype FlowOrderDoc = FlowOrderDoc(
    id: string,
    customerPhone: string,
    customerName: string,
    customerAddress: string,
    deliveryNotes: string,
    cartItems: seq<FlowLine>,
    subtotal: real,
    discount: real,
    tax: real,
    totalPrice: real,
    paymentMethod: string,
    promoCode: string,
    status: string,
    createdAt: string,
    source: string,
    language: string)

  datatype CreateResult = CreateResult(success: bool, orderId: string)

  /**
    `create_order_from_flow` up to the insert: the document to insert and
    the answer. `timestamp` is the local time as `%Y%m%d%H%M%S`, `createdAt`
    the UTC time in ISO form.
   */
  method CreateOrderFromFlow(data: OrderData, timestamp: string, createdAt: string)
    returns (result: CreateResult, doc: FlowOrderDoc)
    ensures result.success && result.orderId == doc.id
    ensures doc.id == OrderId(data.customerPhone.GetOr(""), timestamp)
    ensures doc.status == "new" && doc.source == "whatsapp_flow" && doc.language == "en" && doc.createdAt == createdAt
    ensures doc.paymentMethod == data.paymentMethod.GetOr("cod")
    ensures doc.customerPhone == data.customerPhone.GetOr("") && doc.cartItems == data.cartItems.GetOr([])
    ensures doc.customerName == data.customerName.GetOr("") && doc.customerAddress == data.customerAddress.GetOr("")
    ensures doc.deliveryNotes == data.deliveryNotes.GetOr("") && doc.promoCode == data.promoCode.GetOr("")
    ensures doc.totalPrice == data.total.GetOr(0.0) && doc.subtotal == data.subtotal.GetOr(0.0)
    ensures doc.discount == data.discount.GetOr(0.0) && doc.tax == data.tax.GetOr(0.0)
  {
    var phone := data.customerPhone.GetOr("");
    var orderId := OrderId(phone, timestamp);
    doc := FlowOrderDoc(
      orderId, phone, data.customerName.GetOr(""), data.customerAddress.GetOr(""),
      data.deliveryNotes.GetOr(""), data.cartItems.GetOr([]),
      data.subtotal.GetOr(0.0), data.discount.GetOr(0.0), data.tax.GetOr(0.0), data.total.GetOr(0.0),
      data.paymentMethod.GetOr("cod"), data.promoCode.GetOr(""),
      "new", createdAt, "whatsapp_flow", "en");
    result := CreateResult(true, orderId);
  }
}
