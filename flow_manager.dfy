/**
  The screen router of the WhatsApp Flows order form: the current screen's
  name and its form data go in, the next screen and the data it shows come
  out. The database reads are a `Store` value, and the two database writes
  (inserting the order, marking it confirmed) are returned as an `Effect`.
 */
module FlowManager {
  import opened Wrappers
  import opened PyText
  import Menu
  import FlowHandlers

  type Choice = FlowHandlers.Choice

  datatype Screen = Welcome | CategoryScreen | Items | Customize | Promo | Payment | Confirmation | Success

  /** The name a screen is registered under in the dispatch table. */
  function ScreenName(s: Screen): string {
    match s
    case Welcome => "WELCOME"
    case CategoryScreen => "CATEGORY"
    case Items => "ITEMS"
    case Customize => "CUSTOMIZE"
    case Promo => "PROMO"
    case Payment => "PAYMENT"
    case Confirmation => "CONFIRMATION"
    case Success => "SUCCESS"
  }

  /** `get_screen_handler`: the screen registered under `name`, if any. */
  function GetScreenHandler(name: string): (r: Option<Screen>)
    ensures r.Some? ==> ScreenName(r.value) == name
    ensures r.None? ==> forall s: Screen :: ScreenName(s) != name
  {
    if name == "WELCOME" then Some(Welcome)
    else if name == "CATEGORY" then Some(CategoryScreen)
    else if name == "ITEMS" then Some(Items)
    else if name == "CUSTOMIZE" then Some(Customize)
    else if name == "PROMO" then Some(Promo)
    else if name == "PAYMENT" then Some(Payment)
    else if name == "CONFIRMATION" then Some(Confirmation)
    else if name == "SUCCESS" then Some(Success)
    else None
  }

  /** Every screen is found under its own name: the table has exactly these eight entries. */
  lemma ScreenNameRoundTrip(s: Screen)
    ensures GetScreenHandler(ScreenName(s)) == Some(s)
  {
    match s {
      case Welcome =>
      case CategoryScreen =>
        assert "CATEGORY"[0] != "WELCOME"[0];
      case Items =>
      case Customize =>
        assert "CUSTOMIZE"[1] != "CATEGORY"[1];
      case Promo =>
      case Payment =>
        assert "PAYMENT"[1] != "PROMO"[1];
      case Confirmation =>
        assert "CONFIRMATION"[1] != "CATEGORY"[1] && |"CONFIRMATION"| != |"CUSTOMIZE"|;
      case Success =>
    }
  }

  // ---------------------------------------------------------------------
  // Database reads

  datatype CategoryDoc = CategoryDoc(id: string, name: Option<string>)

  /** One `items` document; `id` is its `_id` as printed (lower-case hex for an object id). */
  datatype ItemDoc = ItemDoc(id: string, name: Option<string>, category: Option<string>, price: Option<int>)

  /** One `promos` document: a percentage discount that applies while `active`. */
  datatype PromoRecord = PromoRecord(code: string, active: bool, discount: Option<real>)

  /** The `categories`, `items` and `promos` collections. */
  datatype Store = Store(categories: seq<CategoryDoc>, items: seq<ItemDoc>, promos: seq<PromoRecord>)

  const CategoryLimit: nat := 100
  const ItemLimit: nat := 20

  /** An item choice; its title reads "name - Rs. price". */
  datatype ItemChoice = ItemChoice(id: string, name: string, price: int)

  const DefaultCategories: seq<Choice> := [
    FlowHandlers.Choice("pizzas", "🍕 Pizzas"),
    FlowHandlers.Choice("burgers", "🍔 Burgers"),
    FlowHandlers.Choice("biryani", "🍛 Biryani"),
    FlowHandlers.Choice("drinks", "🥤 Drinks"),
    FlowHandlers.Choice("desserts", "🍰 Desserts")
  ]

  const DefaultItems: seq<ItemChoice> := [
    ItemChoice("item1", "Margherita", 550),
    ItemChoice("item2", "Chicken Supreme", 850),
    ItemChoice("item3", "Pepperoni", 750)
  ]

  /** The categories the form lists: those stored (up to 100), or the defaults when there are none. */
  function CategoryChoices(store: Store): (r: seq<Choice>)
    ensures Menu.Take(store.categories, CategoryLimit) == [] ==> r == DefaultCategories
    ensures Menu.Take(store.categories, CategoryLimit) != [] ==>
      var docs := Menu.Take(store.categories, CategoryLimit);
      |r| == |docs| && forall i :: 0 <= i < |docs| ==> r[i] == FlowHandlers.Choice(docs[i].id, docs[i].name.GetOr("Unknown"))
  {
    var docs := Menu.Take(store.categories, CategoryLimit);
    if docs == [] then DefaultCategories
    else seq(|docs|, i requires 0 <= i < |docs| => FlowHandlers.Choice(docs[i].id, docs[i].name.GetOr("Unknown")))
  }

  /** `get_all_categories` of the form. */
  method GetAllCategories(store: Store) returns (categories: seq<Choice>)
    ensures categories == CategoryChoices(store)
  {
    var docs := Menu.Take(store.categories, CategoryLimit);
    categories := [];
    var i := 0;
    while i < |docs|
      invariant 0 <= i <= |docs|
      invariant |categories| == i
      invariant forall k :: 0 <= k < i ==> categories[k] == FlowHandlers.Choice(docs[k].id, docs[k].name.GetOr("Unknown"))
    {
      categories := categories + [FlowHandlers.Choice(docs[i].id, docs[i].name.GetOr("Unknown"))];
      i := i + 1;
    }
    if categories == [] {
      categories := DefaultCategories;
    }
  }

  /** The items filed under `category`, in collection order. */
  function ItemsIn(items: seq<ItemDoc>, category: string): (r: seq<ItemDoc>)
    ensures |r| <= |items|
    ensures forall i :: 0 <= i < |r| ==> r[i].category == Some(category) && r[i] in items
    ensures forall d :: d in items && d.category == Some(category) ==> d in r
  {
    if items == [] then []
    else
      var rest := ItemsIn(items[1..], category);
      if items[0].category == Some(category) then [items[0]] + rest else rest
  }

  /** Which item documents are filed under `category`. */
  ghost function ItemMask(items: seq<ItemDoc>, category: string): (keep: seq<bool>)
    ensures |keep| == |items| && forall k :: 0 <= k < |items| ==> keep[k] == (items[k].category == Some(category))
  {
    seq(|items|, k requires 0 <= k < |items| => items[k].category == Some(category))
  }

  /** The positions `ItemsIn` picks its documents from. */
  lemma {:induction false} ItemsInPositions(items: seq<ItemDoc>, category: string) returns (idx: seq<nat>)
    ensures Menu.FilteredAt(ItemsIn(items, category), items, ItemMask(items, category), idx)
  {
    if items == [] {
      return [];
    }
    var rest := ItemsInPositions(items[1..], category);
    assert ItemMask(items, category)[1..] == ItemMask(items[1..], category);
    idx := Menu.FilteredCons(items, ItemMask(items, category), ItemsIn(items[1..], category), rest);
  }

  /** `ItemsIn` keeps exactly the items filed under the category, each once, in collection order. */
  lemma ItemsInInOrder(items: seq<ItemDoc>, category: string)
    ensures exists idx :: Menu.FilteredAt(ItemsIn(items, category), items, ItemMask(items, category), idx)
  {
    var idx := ItemsInPositions(items, category);
  }

  /** The item documents the form reads for `category`: all items when it is empty. */
  function ItemDocsFor(store: Store, category: string): seq<ItemDoc> {
    Menu.Take(if category == "" then store.items else ItemsIn(store.items, category), ItemLimit)
  }

  function ItemChoiceOf(d: ItemDoc): ItemChoice {
    ItemChoice(d.id, d.name.GetOr("Item"), d.price.GetOr(0))
  }

  /** The items the form lists for `category`: those read (up to 20), or the defaults when there are none. */
  function ItemChoices(store: Store, category: string): (r: seq<ItemChoice>)
    ensures ItemDocsFor(store, category) == [] ==> r == DefaultItems
    ensures ItemDocsFor(store, category) != [] ==>
      var docs := ItemDocsFor(store, category);
      |r| == |docs| && forall i :: 0 <= i < |docs| ==> r[i] == ItemChoiceOf(docs[i])
  {
    var docs := ItemDocsFor(store, category);
    if docs == [] then DefaultItems
    else seq(|docs|, i requires 0 <= i < |docs| => ItemChoiceOf(docs[i]))
  }

  /** `get_items_for_category`. */
  method GetItemsForCategory(store: Store, category: string) returns (items: seq<ItemChoice>)
    ensures items == ItemChoices(store, category)
  {
    var docs := ItemDocsFor(store, category);
    items := [];
    var i := 0;
    while i < |docs|
      invariant 0 <= i <= |docs|
      invariant |items| == i
      invariant forall k :: 0 <= k < i ==> items[k] == ItemChoiceOf(docs[k])
    {
      items := items + [ItemChoiceOf(docs[i])];
      i := i + 1;
    }
    if items == [] {
      items := DefaultItems;
    }
  }

  predicate IsHexDigit(c: char) {
    '0' <= c <= '9' || 'a' <= c <= 'f' || 'A' <= c <= 'F'
  }

  /**
    `ObjectId(text)`: exactly 24 hexadecimal digits, in either case, read as
    the lower-case form a stored `_id` prints as; anything else raises.
   */
  function ParseObjectId(text: string): (r: Option<string>)
    ensures r.Some? <==> |text| == 24 && forall i :: 0 <= i < |text| ==> IsHexDigit(text[i])
    ensures r.Some? ==> |r.value| == 24 && forall i :: 0 <= i < 24 ==> r.value[i] == LowerChar(text[i])
  {
    if |text| == 24 && forall i :: 0 <= i < |text| ==> IsHexDigit(text[i]) then Some(Lower(text)) else None
  }

  /** An id written in upper case parses to the same object id. */
  lemma ObjectIdIgnoresCase(text: string)
    ensures ParseObjectId(Upper(text)) == ParseObjectId(text)
  {
    var u := Upper(text);
    assert forall i :: 0 <= i < |text| ==> (IsHexDigit(u[i]) <==> IsHexDigit(text[i]));
    if ParseObjectId(text).Some? {
      assert Lower(u) == Lower(text);
    }
  }

  /** The first item document whose `_id` is `oid`. */
  function FindItem(items: seq<ItemDoc>, oid: string): (r: Option<ItemDoc>)
    ensures r.Some? ==> r.value in items && r.value.id == oid
    ensures r.None? ==> forall d :: d in items ==> d.id != oid
  {
    if items == [] then None
    else if items[0].id == oid then Some(items[0])
    else FindItem(items[1..], oid)
  }

  /**
    `get_item_details`: the item stored under the object id `id` names, if
    any; an id that does not parse finds nothing (the error is caught and
    the answer is empty).
   */
  function GetItemDetails(items: seq<ItemDoc>, id: string): (r: Option<ItemDoc>)
    ensures ParseObjectId(id).None? ==> r.None?
    ensures r.Some? ==> r.value in items && ParseObjectId(id) == Some(r.value.id)
    ensures ParseObjectId(id).Some? && r.None? ==> forall d :: d in items ==> d.id != ParseObjectId(id).value
  {
    match ParseObjectId(id)
    case None => None
    case Some(oid) => FindItem(items, oid)
  }

  /** The item found does not depend on the letter case of the id. */
  lemma ItemDetailsIgnoreCase(items: seq<ItemDoc>, id: string)
    ensures GetItemDetails(items, Upper(id)) == GetItemDetails(items, id)
  {
    ObjectIdIgnoresCase(id);
  }

  // ---------------------------------------------------------------------
  // Fixed sizes and add-ons

  /** An add-on choice as listed; its title reads "name +Rs. price". */
  datatype AddonChoice = AddonChoice(id: string, name: string, price: int)

  const FixedSizes: seq<Choice> := [
    FlowHandlers.Choice("regular", "Regular (10 inch)"),
    FlowHandlers.Choice("large", "Large (12 inch) +Rs. 150"),
    FlowHandlers.Choice("xlarge", "XL (14 inch) +Rs. 300")
  ]

  /** `get_addons`. */
  const FixedAddons: seq<AddonChoice> := [
    AddonChoice("extra_cheese", "Extra Cheese", 100),
    AddonChoice("bacon", "Bacon", 150),
    AddonChoice("olives", "Olives", 80),
    AddonChoice("mushrooms", "Mushrooms", 60),
    AddonChoice("onions", "Onions", 40)
  ]

  /** The price table of the customisation step; an unknown add-on costs nothing. */
  function AddonPrice(addon: string): (p: int)
    ensures 0 <= p <= 150
  {
    if addon == "extra_cheese" then 100
    else if addon == "bacon" then 150
    else if addon == "olives" then 80
    else if addon == "mushrooms" then 60
    else if addon == "onions" then 40
    else 0
  }

  /** The add-ons are charged the price their choice shows. */
  lemma AddonPricesMatchChoices()
    ensures forall i :: 0 <= i < |FixedAddons| ==> AddonPrice(FixedAddons[i].id) == FixedAddons[i].price
  {
    assert "bacon"[0] != "extra_cheese"[0];
    assert "olives"[0] != "extra_cheese"[0] && "olives"[0] != "bacon"[0];
    assert "mushrooms"[0] != "extra_cheese"[0] && "mushrooms"[0] != "bacon"[0] && "mushrooms"[0] != "olives"[0];
    assert "onions"[1] != "olives"[1] && "onions"[0] != "extra_cheese"[0] && "onions"[0] != "bacon"[0]
      && "onions"[0] != "mushrooms"[0];
  }

  /** The sum of the selected add-ons' prices. */
  function AddonTotal(addons: seq<string>): (t: int)
    ensures 0 <= t <= 150 * |addons|
  {
    if addons == [] then 0 else AddonTotal(addons[..|addons| - 1]) + AddonPrice(addons[|addons| - 1])
  }

  /** Add-on totals add up over joined selections. */
  lemma {:induction false} AddonTotalConcat(a: seq<string>, b: seq<string>)
    ensures AddonTotal(a + b) == AddonTotal(a) + AddonTotal(b)
  {
    if b == [] {
      assert a + b == a;
    } else {
      var c := b[..|b| - 1];
      AddonTotalConcat(a, c);
      assert (a + b)[..|a + b| - 1] == a + c;
    }
  }

  // ---------------------------------------------------------------------
  // Form data and results

  /** One line of the form's cart. */
  datatype CartEntry = CartEntry(item: string, quantity: int, addons: seq<string>, price: real)

  /** The JSON value under `quantity`: a text or a number. */
  datatype QuantityField = QuantityText(text: string) | QuantityNumber(number: real)

  /** The form data; each key possibly absent. A JSON number is a `real`, whole or not. */
  datatype FormData = FormData(
    category: Option<string>,
    selectedItem: Option<string>,
    quantity: Option<QuantityField>,
    addons: Option<seq<string>>,
    itemPrice: Option<real>,
    cartTotal: Option<real>,
    cartItems: Option<seq<CartEntry>>,
    promoCode: Option<string>,
    paymentMethod: Option<string>,
    finalTotal: Option<real>,
    discount: Option<real>,
    customerName: Option<string>,
    customerPhone: Option<string>,
    customerAddress: Option<string>,
    deliveryNotes: Option<string>,
    orderId: Option<string>)

  /** The order document the confirmation step inserts. */
  datatype ScreenOrder = ScreenOrder(
    id: string,
    customerName: string,
    customerPhone: string,
    customerAddress: string,
    deliveryNotes: string,
    cartItems: seq<CartEntry>,
    cartTotal: real,
    discount: real,
    finalTotal: real,
    paymentMethod: string,
    promoCode: string,
    status: string,
    createdAt: string,
    source: string)

  /** What the next screen is shown. */
  datatype ScreenData =
    | WelcomeMessage
    | CategoryList(categories: seq<Choice>)
    | CategoryItems(category: string, items: seq<ItemChoice>)
    | CustomizeChoices(selectedItem: string, itemName: string, itemPrice: int, category: string,
                       sizes: seq<Choice>, addons: seq<AddonChoice>)
    | CartUpdate(cartItems: seq<CartEntry>, cartTotal: real, itemTotal: real)
    | CartUnchanged(cartTotal: real)
    | PromoTotals(cartTotal: real, discount: real, finalTotal: real, promoCode: string, applied: bool)
    | PaymentChoice(paymentMethod: string, finalTotal: real)
    | MissingFields
    | OrderPlaced(orderId: string, customerName: string, finalTotal: real)
    | OrderClosed(orderId: string)
    | UnknownScreen(name: string)

  /** The database write a step makes, if any. */
  datatype Effect = NoEffect | InsertOrder(order: ScreenOrder) | MarkConfirmed(orderId: string)

  datatype ScreenResult = ScreenResult(next: Option<Screen>, data: ScreenData, effect: Effect)

  // ---------------------------------------------------------------------
  // Screen handlers

  /** WELCOME always leads to CATEGORY. */
  function HandleWelcomeScreen(form: FormData): (r: ScreenResult)
    ensures r.next == Some(CategoryScreen) && r.effect == NoEffect
  {
    ScreenResult(Some(CategoryScreen), WelcomeMessage, NoEffect)
  }

  /**
    CATEGORY without a category stays, listing the categories; with one it
    goes to ITEMS with that category's items.
   */
  method HandleCategoryScreen(store: Store, form: FormData) returns (r: ScreenResult)
    ensures r.effect == NoEffect
    ensures form.category.GetOr("") == "" ==>
      r.next == Some(CategoryScreen) && r.data == CategoryList(CategoryChoices(store))
    ensures form.category.GetOr("") != "" ==>
      r.next == Some(Items) && r.data == CategoryItems(form.category.value, ItemChoices(store, form.category.value))
  {
    var selected := form.category.GetOr("");
    if selected == "" {
      var categories := GetAllCategories(store);
      r := ScreenResult(Some(CategoryScreen), CategoryList(categories), NoEffect);
    } else {
      var items := GetItemsForCategory(store, selected);
      r := ScreenResult(Some(Items), CategoryItems(selected, items), NoEffect);
    }
  }

  /** ITEMS leads to CUSTOMIZE with the chosen item's name and price, and the fixed sizes and add-ons. */
  function HandleItemsScreen(store: Store, form: FormData): (r: ScreenResult)
    ensures r.next == Some(Customize) && r.effect == NoEffect && r.data.CustomizeChoices?
    ensures r.data.selectedItem == form.selectedItem.GetOr("") && r.data.category == form.category.GetOr("pizzas")
    ensures r.data.sizes == FixedSizes && r.data.addons == FixedAddons
    ensures GetItemDetails(store.items, form.selectedItem.GetOr("")).None? ==> r.data.itemName == "Item" && r.data.itemPrice == 0
    ensures GetItemDetails(store.items, form.selectedItem.GetOr("")).Some? ==>
      var d := GetItemDetails(store.items, form.selectedItem.GetOr("")).value;
      r.data.itemName == d.name.GetOr("") && r.data.itemPrice == d.price.GetOr(0)
  {
    var selected := form.selectedItem.GetOr("");
    var details := GetItemDetails(store.items, selected);
    var name := if details.Some? then details.value.name.GetOr("") else "Item";
    var price := if details.Some? then details.value.price.GetOr(0) else 0;
    ScreenResult(Some(Customize), CustomizeChoices(selected, name, price, form.category.GetOr("pizzas"), FixedSizes, FixedAddons), NoEffect)
  }

  /** `int(x)` of a number: the whole part, rounding toward zero on either side. */
  function Truncate(x: real): (n: int)
    ensures 0.0 <= x ==> n as real <= x < n as real + 1.0
    ensures x < 0.0 ==> n as real - 1.0 < x <= n as real
  {
    if x >= 0.0 then x.Floor else -((-x).Floor)
  }

  /** Truncation is symmetric about zero: `int(-x) == -int(x)`. */
  lemma TruncateOdd(x: real)
    ensures Truncate(-x) == -Truncate(x)
  {
    if x > 0.0 {
      assert -x < 0.0;
    }
  }

  /**
    The quantity of the form: 1 when absent, `int()` of the given text, or
    the number truncated toward zero.
   */
  function Quantity(form: FormData): (q: Option<int>)
    ensures form.quantity.None? ==> q == Some(1)
    ensures form.quantity.Some? && form.quantity.value.QuantityText? ==> q == ParseInt(form.quantity.value.text)
    ensures form.quantity.Some? && form.quantity.value.QuantityNumber? ==>
      var x := form.quantity.value.number;
      && q.Some?
      && (0.0 <= x ==> 0 <= q.value && q.value as real <= x < q.value as real + 1.0)
      && (x < 0.0 ==> q.value <= 0 && q.value as real - 1.0 < x <= q.value as real)
  {
    match form.quantity
    case None => Some(1)
    case Some(QuantityText(t)) => ParseInt(t)
    case Some(QuantityNumber(x)) => Some(Truncate(x))
  }

  /** `(item_price + addon_total) * quantity`. */
  function LineTotal(itemPrice: real, addonTotal: int, quantity: int): real {
    (itemPrice + addonTotal as real) * quantity as real
  }

  /** The sum of the cart entries' prices. */
  function CartSum(entries: seq<CartEntry>): real {
    if entries == [] then 0.0 else CartSum(entries[..|entries| - 1]) + entries[|entries| - 1].price
  }

  /**
    CUSTOMIZE prices the line as (item price + add-on prices) x quantity,
    appends it to the cart and adds it to the cart total; a quantity that is
    not an integer leaves the total as it was. Either way PROMO is next.
   */
  function HandleCustomizeScreen(form: FormData): (r: ScreenResult)
    ensures r.next == Some(Promo) && r.effect == NoEffect
    ensures Quantity(form).None? ==> r.data == CartUnchanged(form.cartTotal.GetOr(0.0))
    ensures Quantity(form).Some? ==>
      var qty := Quantity(form).value;
      var addons := form.addons.GetOr([]);
      var before := form.cartItems.GetOr([]);
      && r.data.CartUpdate?
      && r.data.itemTotal == LineTotal(form.itemPrice.GetOr(550.0), AddonTotal(addons), qty)
      && r.data.cartTotal == form.cartTotal.GetOr(0.0) + r.data.itemTotal
      && |r.data.cartItems| == |before| + 1 && r.data.cartItems[..|before|] == before
      && r.data.cartItems[|before|] == CartEntry(form.selectedItem.GetOr(""), qty, addons, r.data.itemTotal)
  {
    match Quantity(form)
    case None => ScreenResult(Some(Promo), CartUnchanged(form.cartTotal.GetOr(0.0)), NoEffect)
    case Some(qty) =>
      var addons := form.addons.GetOr([]);
      var itemTotal := LineTotal(form.itemPrice.GetOr(550.0), AddonTotal(addons), qty);
      var entry := CartEntry(form.selectedItem.GetOr(""), qty, addons, itemTotal);
      var items := form.cartItems.GetOr([]) + [entry];
      ScreenResult(Some(Promo), CartUpdate(items, form.cartTotal.GetOr(0.0) + itemTotal, itemTotal), NoEffect)
  }

  /** The form's cart total is the sum of its entries' prices. */
  ghost predicate CartConsistent(form: FormData) {
    form.cartTotal.GetOr(0.0) == CartSum(form.cartItems.GetOr([]))
  }

  /** CUSTOMIZE keeps the cart total equal to the sum of the cart's prices. */
  lemma CustomizeKeepsCartTotal(form: FormData)
    requires CartConsistent(form)
    requires Quantity(form).Some?
    ensures HandleCustomizeScreen(form).data.cartTotal == CartSum(HandleCustomizeScreen(form).data.cartItems)
  {
    var r := HandleCustomizeScreen(form);
    var before := form.cartItems.GetOr([]);
    assert r.data.cartItems[..|r.data.cartItems| - 1] == before;
  }

  /** `find_one({"code": code})`: the first promo stored under exactly `code`, active or not. */
  function FindPromoRecord(promos: seq<PromoRecord>, code: string): (r: Option<PromoRecord>)
    ensures r.Some? ==> r.value in promos && r.value.code == code
    ensures r.None? ==> forall p :: p in promos ==> p.code != code
  {
    if promos == [] then None
    else if promos[0].code == code then Some(promos[0])
    else FindPromoRecord(promos[1..], code)
  }

  /** `(amount * percent) / 100`. */
  function PercentOf(amount: real, percent: real): real {
    amount * percent / 100.0
  }

  /**
    PROMO applies the percentage of the promo stored under the stripped
    code when it is active; otherwise no discount. PAYMENT is next.
   */
  function HandlePromoScreen(store: Store, form: FormData): (r: ScreenResult)
    ensures r.next == Some(Payment) && r.effect == NoEffect && r.data.PromoTotals?
    ensures r.data.cartTotal == form.cartTotal.GetOr(0.0) && r.data.promoCode == Strip(form.promoCode.GetOr(""))
    ensures r.data.finalTotal + r.data.discount == r.data.cartTotal
    ensures r.data.applied <==>
      Strip(form.promoCode.GetOr("")) != "" && FindPromoRecord(store.promos, Strip(form.promoCode.GetOr(""))).Some?
      && FindPromoRecord(store.promos, Strip(form.promoCode.GetOr(""))).value.active
    ensures r.data.applied ==>
      r.data.discount == PercentOf(r.data.cartTotal, FindPromoRecord(store.promos, r.data.promoCode).value.discount.GetOr(0.0))
    ensures !r.data.applied ==> r.data.discount == 0.0
  {
    var code := Strip(form.promoCode.GetOr(""));
    var total := form.cartTotal.GetOr(0.0);
    var promo := if code != "" then FindPromoRecord(store.promos, code) else None;
    if promo.Some? && promo.value.active then
      var discount := PercentOf(total, promo.value.discount.GetOr(0.0));
      ScreenResult(Some(Payment), PromoTotals(total, discount, total - discount, code, true), NoEffect)
    else
      ScreenResult(Some(Payment), PromoTotals(total, 0.0, total, code, false), NoEffect)
  }

  /** With a percentage between 0 and 100 and a non-negative cart, the final total lies between 0 and the cart total. */
  lemma PromoFinalWithinCart(store: Store, form: FormData)
    requires 0.0 <= form.cartTotal.GetOr(0.0)
    requires forall p :: p in store.promos ==> 0.0 <= p.discount.GetOr(0.0) <= 100.0
    ensures 0.0 <= HandlePromoScreen(store, form).data.finalTotal <= HandlePromoScreen(store, form).data.cartTotal
  {
    var r := HandlePromoScreen(store, form);
    if r.data.applied {
      var p := FindPromoRecord(store.promos, r.data.promoCode).value;
      var total := r.data.cartTotal;
      var percent := p.discount.GetOr(0.0);
      assert PercentOf(total, percent) == FlowHandlers.Percent(total, percent);
      FlowHandlers.PercentWithin(total, percent);
    }
  }

  /** PAYMENT keeps the method (cash on delivery by default) and the final total, and CONFIRMATION is next. */
  function HandlePaymentScreen(form: FormData): (r: ScreenResult)
    ensures r.next == Some(Confirmation) && r.effect == NoEffect && r.data.PaymentChoice?
    ensures r.data.paymentMethod == form.paymentMethod.GetOr("cod")
    ensures form.finalTotal.Some? ==> r.data.finalTotal == form.finalTotal.value
    ensures form.finalTotal.None? ==> r.data.finalTotal == form.cartTotal.GetOr(0.0)
  {
    ScreenResult(Some(Confirmation),
      PaymentChoice(form.paymentMethod.GetOr("cod"), form.finalTotal.GetOr(form.cartTotal.GetOr(0.0))), NoEffect)
  }

  /** The order id of the confirmation step: `LOM-`, the timestamp, `-`, the last (up to) four characters of the phone. */
  function ScreenOrderId(phone: string, timestamp: string): (id: string)
    ensures |id| == 5 + |timestamp| + (if |phone| < 4 then |phone| else 4)
    ensures id[..4] == "LOM-" && id[4..4 + |timestamp|] == timestamp && id[4 + |timestamp|] == '-'
    ensures id[5 + |timestamp|..] == phone[|phone| - (|id| - 5 - |timestamp|)..]
  {
    var suffix := TakeLast(phone, 4);
    var id := "LOM-" + timestamp + "-" + suffix;
    assert id[5 + |timestamp|..] == suffix;
    id
  }

  /**
    For a number written `+` then at least four digits, the confirmation
    step and the order creation of the form backend give the same id.
   */
  lemma ScreenOrderIdAgrees(phone: string, timestamp: string)
    requires |phone| >= 5 && phone[0] == '+' && AllDigits(phone[1..])
    ensures ScreenOrderId(phone, timestamp) == FlowHandlers.OrderId(phone, timestamp)
  {
    FlowHandlers.OrderIdOfInternationalNumber(phone, timestamp);
  }

  /** The stripped name, phone and address of the form are all non-blank. */
  predicate FieldsComplete(form: FormData) {
    && Strip(form.customerName.GetOr("")) != ""
    && Strip(form.customerPhone.GetOr("")) != ""
    && Strip(form.customerAddress.GetOr("")) != ""
  }

  /**
    CONFIRMATION stays, with an error and no order, unless name, phone and
    address are all non-blank after stripping; then it inserts the order and
    SUCCESS is next. `timestamp` is the local time as `%Y%m%d%H%M%S`,
    `createdAt` the UTC time in ISO form.
   */
  function HandleConfirmationScreen(form: FormData, timestamp: string, createdAt: string): (r: ScreenResult)
    ensures !FieldsComplete(form) ==> r == ScreenResult(Some(Confirmation), MissingFields, NoEffect)
    ensures FieldsComplete(form) ==>
      && r.next == Some(Success) && r.effect.InsertOrder?
      && var o := r.effect.order;
      && o.id == ScreenOrderId(o.customerPhone, timestamp)
      && o.customerName == Strip(form.customerName.GetOr("")) && o.customerName != ""
      && o.customerPhone == Strip(form.customerPhone.GetOr("")) && o.customerPhone != ""
      && o.customerAddress == Strip(form.customerAddress.GetOr("")) && o.customerAddress != ""
      && o.status == "new" && o.source == "whatsapp_flow" && o.createdAt == createdAt
      && o.paymentMethod == form.paymentMethod.GetOr("cod")
      && o.finalTotal == form.finalTotal.GetOr(form.cartTotal.GetOr(0.0))
      && o.deliveryNotes == Strip(form.deliveryNotes.GetOr(""))
      && o.cartItems == form.cartItems.GetOr([]) && o.cartTotal == form.cartTotal.GetOr(0.0)
      && o.discount == form.discount.GetOr(0.0) && o.promoCode == form.promoCode.GetOr("")
      && r.data == OrderPlaced(o.id, o.customerName, o.finalTotal)
  {
    var name := Strip(form.customerName.GetOr(""));
    var phone := Strip(form.customerPhone.GetOr(""));
    var address := Strip(form.customerAddress.GetOr(""));
    var notes := Strip(form.deliveryNotes.GetOr(""));
    if name == "" || phone == "" || address == "" then
      ScreenResult(Some(Confirmation), MissingFields, NoEffect)
    else
      var order := ScreenOrder(
        ScreenOrderId(phone, timestamp), name, phone, address, notes,
        form.cartItems.GetOr([]), form.cartTotal.GetOr(0.0), form.discount.GetOr(0.0),
        form.finalTotal.GetOr(form.cartTotal.GetOr(0.0)), form.paymentMethod.GetOr("cod"),
        form.promoCode.GetOr(""), "new", createdAt, "whatsapp_flow");
      ScreenResult(Some(Success), OrderPlaced(order.id, name, order.finalTotal), InsertOrder(order))
  }

  /** SUCCESS ends the flow, marking the order confirmed when an order id is given. */
  function HandleSuccessScreen(form: FormData): (r: ScreenResult)
    ensures r.next == None && r.data == OrderClosed(form.orderId.GetOr(""))
    ensures form.orderId.GetOr("") != "" <==> r.effect == MarkConfirmed(form.orderId.GetOr(""))
    ensures form.orderId.GetOr("") == "" <==> r.effect == NoEffect
  {
    var id := form.orderId.GetOr("");
    ScreenResult(None, OrderClosed(id), if id != "" then MarkConfirmed(id) else NoEffect)
  }

  // ---------------------------------------------------------------------
  // Dispatch

  /** The screen graph: which screen may come after which. */
  predicate CanFollow(s: Screen, next: Screen) {
    match s
    case Welcome => next == CategoryScreen
    case CategoryScreen => next == CategoryScreen || next == Items
    case Items => next == Customize
    case Customize => next == Promo
    case Promo => next == Payment
    case Payment => next == Confirmation
    case Confirmation => next == Confirmation || next == Success
    case Success => false
  }

  /**
    `process_flow_screen`: run the handler registered under `name`. An
    unknown name ends the flow with an error; every known screen moves along
    the screen graph; only CONFIRMATION inserts an order and only SUCCESS
    marks one confirmed.
   */
  method ProcessFlowScreen(name: string, form: FormData, store: Store, timestamp: string, createdAt: string)
    returns (r: ScreenResult)
    ensures GetScreenHandler(name).None? ==> r == ScreenResult(None, UnknownScreen(name), NoEffect)
    ensures GetScreenHandler(name) == Some(Welcome) ==> r == HandleWelcomeScreen(form)
    ensures GetScreenHandler(name) == Some(CategoryScreen) ==>
      && r.effect == NoEffect
      && (form.category.GetOr("") == "" ==>
            r.next == Some(CategoryScreen) && r.data == CategoryList(CategoryChoices(store)))
      && (form.category.GetOr("") != "" ==>
            r.next == Some(Items) && r.data == CategoryItems(form.category.value, ItemChoices(store, form.category.value)))
    ensures GetScreenHandler(name) == Some(Items) ==> r == HandleItemsScreen(store, form)
    ensures GetScreenHandler(name) == Some(Customize) ==> r == HandleCustomizeScreen(form)
    ensures GetScreenHandler(name) == Some(Promo) ==> r == HandlePromoScreen(store, form)
    ensures GetScreenHandler(name) == Some(Payment) ==> r == HandlePaymentScreen(form)
    ensures GetScreenHandler(name) == Some(Confirmation) ==> r == HandleConfirmationScreen(form, timestamp, createdAt)
    ensures GetScreenHandler(name) == Some(Success) ==> r == HandleSuccessScreen(form)
    ensures r.next.Some? ==> GetScreenHandler(name).Some? && CanFollow(GetScreenHandler(name).value, r.next.value)
    ensures r.next.None? ==> GetScreenHandler(name).None? || name == "SUCCESS"
    ensures r.effect.InsertOrder? ==> name == "CONFIRMATION"
    ensures r.effect.MarkConfirmed? ==> name == "SUCCESS"
  {
    match GetScreenHandler(name) {
      case None =>
        r := ScreenResult(None, UnknownScreen(name), NoEffect);
      case Some(screen) =>
        match screen {
          case Welcome => r := HandleWelcomeScreen(form);
          case CategoryScreen => r := HandleCategoryScreen(store, form);
          case Items => r := HandleItemsScreen(store, form);
          case Customize => r := HandleCustomizeScreen(form);
          case Promo => r := HandlePromoScreen(store, form);
          case Payment => r := HandlePaymentScreen(form);
          case Confirmation => r := HandleConfirmationScreen(form, timestamp, createdAt);
          case Success => r := HandleSuccessScreen(form);
        }
    }
  }
}
