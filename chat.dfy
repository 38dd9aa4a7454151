/**
  The free-text ordering conversation (`handle_user_message`). One inbound
  text moves the customer's session through
  idle -> show_menu -> pick_deal | pick_item -> pick_size -> pick_qty ->
  add_more -> ask_name -> ask_address -> confirm_order.

  The session is the dict read from the `sessions` collection (or a fresh
  one); every `update_one` that saves it is modelled as returning the new
  session in `write`, and a branch that returns without saving gives
  `write == None`. The catalog reads are the `Snapshot` parameter, the
  clock reading is `now`, and reply texts are the `Reply` values that carry
  what the text shows (numbering, lists, totals).
 */
module Chat {
  import opened Wrappers
  import opened PyText
  import opened Menu
  import opened Cart

  /** The session's `state` string; any other stored string is `Unrecognised`. */
  datatype State =
    | Idle | ShowMenu | PickDeal | PickItem | PickSize | PickQty
    | AddMore | AskName | AskAddress | ConfirmOrder
    | Unrecognised(stored: string)

  /** The `temp_item` dict: the line being built, each key possibly absent. */
  datatype TempItem = TempItem(
    categoryName: Option<string>,
    menuId: Option<string>,
    itemName: Option<string>,
    sizes: Option<SizeMap>,
    size: Option<string>,
    unitPrice: Option<int>)

  const NoTemp := TempItem(None, None, None, None, None, None)

  datatype Session = Session(
    state: State,
    cart: seq<CartLine>,
    temp: TempItem,
    customerName: Option<string>,
    customerAddress: Option<string>)

  /** The session used for a phone number with no stored session. */
  const NewSession := Session(Idle, [], NoTemp, None, None)

  /** The session stored for `phone`, or a new one when there is none. */
  function LoadSession(store: map<string, Session>, phone: string): (s: Session)
    ensures phone in store ==> s == store[phone]
    ensures phone !in store ==> s.state == Idle && s.cart == [] && s.temp == NoTemp
  {
    if phone in store then store[phone] else NewSession
  }

  datatype MenuEntry = MenuEntry(number: int, text: string)

  const DealsLabel := "🎁 Special Deals"

  /** What each reply text shows. */
  datatype Reply =
    | Greeting
    | MainMenu(entries: seq<MenuEntry>)
    | InvalidCategoryNumber(options: int)
    | InvalidCategoryInput(options: int)
    | DealsMenu(deals: seq<DealDoc>)
    | InvalidDealNumber
    | InvalidDealInput
    | ItemsList(category: Option<string>, items: seq<MenuDoc>)
    | InvalidItemNumber
    | InvalidItemInput
    | SizeMenu(itemName: Option<string>, sizes: SizeMap)
    | InvalidSizeNumber(count: int)
    | InvalidSizeInput
    | ItemChosen(itemName: Option<string>, price: int)
    | SizeChosen(itemName: Option<string>, size: string, price: int)
    | AskQuantity(itemName: Option<string>)
    | QuantityTooLow
    | QuantityTooHigh
    | InvalidQuantity
    | AddMoreMenu(cart: seq<CartLine>, subtotal: int)
    | NamePrompt
    | NameRequired
    | AddressPrompt
    | AddressRequired
    | OrderSummary(cart: seq<CartLine>, phone: string, name: Option<string>, address: Option<string>, total: int)
    | OrderConfirmed(total: int, address: Option<string>)
    | OrderCancelled

  const RestartWords: set<string> := {"menu", "start", "restart", "main menu"}
  const AddMoreYes: set<string> := {"1", "yes", "y", "add more"}
  const AddMoreNo: set<string> := {"2", "no", "n", "checkout", "confirm"}
  const ConfirmYes: set<string> := {"1", "yes", "y", "confirm"}
  const ConfirmNo: set<string> := {"2", "no", "n", "cancel"}

  /** `normalize_text`: strip, then lower-case. */
  function Normalize(textBody: string): (text: string)
    ensures text == "" <==> Strip(textBody) == ""
  {
    Lower(Strip(textBody))
  }

  /** Normalising a normalised text changes nothing. */
  lemma NormalizeIdempotent(textBody: string)
    ensures Normalize(Normalize(textBody)) == Normalize(textBody)
  {
    var s := Strip(textBody);
    LowerKeepsSpaces(s);
    StripOfTrimmed(Lower(s));
    LowerIdempotent(s);
  }

  /** The categories and the deals the chat lists, as read from a snapshot. */
  function CategoriesOf(snap: Snapshot): seq<Category> {
    Categories(Take(snap.menus, FetchLimit))
  }

  /** Categories numbered from 1, then the deals entry as number n + 1. */
  ghost predicate NumberedMenu(entries: seq<MenuEntry>, cats: seq<Category>) {
    && |entries| == |cats| + 1
    && (forall i :: 0 <= i < |cats| ==> entries[i] == MenuEntry(i + 1, cats[i].name))
    && entries[|cats|] == MenuEntry(|cats| + 1, DealsLabel)
  }

  /** The numbered lines of `show_main_menu`. */
  method ShowMainMenu(cats: seq<Category>) returns (entries: seq<MenuEntry>)
    ensures NumberedMenu(entries, cats)
  {
    entries := [];
    var i := 0;
    while i < |cats|
      invariant 0 <= i <= |cats|
      invariant |entries| == i
      invariant forall k :: 0 <= k < i ==> entries[k] == MenuEntry(k + 1, cats[k].name)
    {
      entries := entries + [MenuEntry(i + 1, cats[i].name)];
      i := i + 1;
    }
    entries := entries + [MenuEntry(|cats| + 1, DealsLabel)];
  }

  /** `show_main_menu` on the current catalog. */
  method MainMenuReply(snap: Snapshot) returns (reply: Reply)
    ensures reply.MainMenu? && NumberedMenu(reply.entries, CategoriesOf(snap))
  {
    var cats := GetAllCategories(snap.menus);
    var entries := ShowMainMenu(cats);
    reply := MainMenu(entries);
  }

  /** `show_add_more_menu`: the cart with its running subtotal. */
  method ShowAddMoreMenu(cart: seq<CartLine>) returns (reply: Reply)
    ensures reply == AddMoreMenu(cart, Subtotal(cart))
  {
    var total := 0;
    var i := 0;
    while i < |cart|
      invariant 0 <= i <= |cart|
      invariant total == Subtotal(cart[..i])
    {
      assert cart[..i + 1][..i] == cart[..i];
      total := total + cart[i].LineTotal();
      i := i + 1;
    }
    assert cart[..|cart|] == cart;
    reply := AddMoreMenu(cart, total);
  }

  /** `show_order_summary`: the cart, the contact details and the total. */
  method ShowOrderSummary(cart: seq<CartLine>, phone: string, name: Option<string>, address: Option<string>)
    returns (reply: Reply)
    ensures reply == OrderSummary(cart, phone, name, address, Subtotal(cart))
  {
    var total := 0;
    var i := 0;
    while i < |cart|
      invariant 0 <= i <= |cart|
      invariant total == Subtotal(cart[..i])
    {
      assert cart[..i + 1][..i] == cart[..i];
      total := total + cart[i].LineTotal();
      i := i + 1;
    }
    assert cart[..|cart|] == cart;
    reply := OrderSummary(cart, phone, name, address, total);
  }

  /** The session after a restart, a fresh start from idle, a confirmation or a cancellation. */
  function Cleared(session: Session, state: State): Session {
    session.(state := state, cart := [], temp := NoTemp)
  }

  /** The cart line for the deal at 1-based position `ordinal`. */
  function DealLine(deal: DealDoc, ordinal: int): CartLine {
    Deal(deal.code.GetOr("Deal " + IntToString(ordinal)), deal.items, deal.price.GetOr(0))
  }

  /** The dish line for `qty` units of the line being built (size "N/A" when none was picked). */
  function DishLine(temp: TempItem, qty: int): CartLine {
    var unit := temp.unitPrice.GetOr(0);
    Regular(temp.itemName, temp.size.GetOr("N/A"), qty, unit, unit * qty)
  }

  /** The rule of state `idle`: any non-empty text opens the menu with an empty cart. */
  ghost predicate IdleRule(text: string, session: Session, snap: Snapshot, reply: Reply, write: Option<Session>) {
    && (text == "" ==> reply == Greeting && write == None)
    && (text != "" ==>
          write == Some(Cleared(session, ShowMenu)) && reply.MainMenu? && NumberedMenu(reply.entries, CategoriesOf(snap)))
  }

  /** State `idle`. */
  method HandleIdle(text: string, ghost textBody: string, session: Session, snap: Snapshot) returns (reply: Reply, write: Option<Session>)
    requires session.state == Idle
    ensures IdleRule(text, session, snap, reply, write)
    ensures SavedStep(session, text, textBody, write)
  {
    if text == "" {
      return Greeting, None;
    }
    reply := MainMenuReply(snap);
    write := Some(Cleared(session, ShowMenu));
    ClearedStep(session, text, textBody, ShowMenu);
  }

  /**
    The rule of state `show_menu`: with n categories, ordinal k in 1..n
    opens category k, k = n + 1 opens the deals; any other number or a
    non-number is refused with the session left as it was.
   */
  ghost predicate ShowMenuRule(text: string, session: Session, snap: Snapshot, reply: Reply, write: Option<Session>) {
    && (text == "" ==> write == None && reply.MainMenu? && NumberedMenu(reply.entries, CategoriesOf(snap)))
    && (text != "" && ParseInt(text).None? ==>
          write == None && reply == InvalidCategoryInput(|CategoriesOf(snap)| + 1))
    && (ParseInt(text) == Some(|CategoriesOf(snap)| + 1) ==>
          write == Some(session.(state := PickDeal)) && reply == DealsMenu(DealsOf(snap)))
    && (ParseInt(text).Some? && 1 <= ParseInt(text).value <= |CategoriesOf(snap)| ==>
          var name := CategoriesOf(snap)[ParseInt(text).value - 1].name;
          && write == Some(session.(state := PickItem, temp := NoTemp.(categoryName := Some(name))))
          && reply == ItemsList(Some(name), ItemsOf(snap, Some(name))))
    && (ParseInt(text).Some? && !(1 <= ParseInt(text).value <= |CategoriesOf(snap)| + 1) ==>
          write == None && reply == InvalidCategoryNumber(|CategoriesOf(snap)| + 1))
  }

  /** State `show_menu`; the rule is spelled out clause by clause, then named for the dispatch. */
  method HandleShowMenu(text: string, ghost textBody: string, session: Session, snap: Snapshot) returns (reply: Reply, write: Option<Session>)
    ensures text == "" ==> write == None && reply.MainMenu? && NumberedMenu(reply.entries, CategoriesOf(snap))
    ensures text != "" && ParseInt(text).None? ==>
      write == None && reply == InvalidCategoryInput(|CategoriesOf(snap)| + 1)
    ensures ParseInt(text) == Some(|CategoriesOf(snap)| + 1) ==>
      write == Some(session.(state := PickDeal)) && reply == DealsMenu(DealsOf(snap))
    ensures ParseInt(text).Some? && 1 <= ParseInt(text).value <= |CategoriesOf(snap)| ==>
      var name := CategoriesOf(snap)[ParseInt(text).value - 1].name;
      && write == Some(session.(state := PickItem, temp := NoTemp.(categoryName := Some(name))))
      && reply == ItemsList(Some(name), ItemsOf(snap, Some(name)))
    ensures ParseInt(text).Some? && !(1 <= ParseInt(text).value <= |CategoriesOf(snap)| + 1) ==>
      write == None && reply == InvalidCategoryNumber(|CategoriesOf(snap)| + 1)
    ensures ShowMenuRule(text, session, snap, reply, write)
    ensures SavedStep(session, text, textBody, write)
  {
    write := None;
    if text == "" {
      reply := MainMenuReply(snap);
      return;
    }
    var categories := GetAllCategories(snap.menus);
    var deals := DealsOf(snap);
    var totalOptions := |categories| + 1;
    var parsed := ParseInt(text);
    if parsed.None? {
      return InvalidCategoryInput(totalOptions), None;
    }
    var idx := parsed.value - 1;
    if idx == |categories| {
      KeptCartStep(session, text, textBody, session.(state := PickDeal));
      return DealsMenu(deals), Some(session.(state := PickDeal));
    }
    if 0 <= idx < |categories| {
      var name := categories[idx].name;
      reply := ItemsList(Some(name), ItemsOf(snap, Some(name)));
      write := Some(session.(state := PickItem, temp := NoTemp.(categoryName := Some(name))));
      KeptCartStep(session, text, textBody, write.value);
    } else {
      reply := InvalidCategoryNumber(totalOptions);
    }
  }

  /** The rule of state `pick_deal`: ordinal k in 1..|deals| appends deal k to the cart. */
  ghost predicate PickDealRule(text: string, session: Session, snap: Snapshot, reply: Reply, write: Option<Session>) {
    && (text == "" ==> write == None && reply == DealsMenu(DealsOf(snap)))
    && (text != "" && ParseInt(text).None? ==> write == None && reply == InvalidDealInput)
    && (ParseInt(text).Some? && 1 <= ParseInt(text).value <= |DealsOf(snap)| ==>
          var k := ParseInt(text).value;
          var cart := session.cart + [DealLine(DealsOf(snap)[k - 1], k)];
          && write == Some(session.(state := AddMore, cart := cart, temp := NoTemp))
          && reply == AddMoreMenu(cart, Subtotal(cart)))
    && (ParseInt(text).Some? && !(1 <= ParseInt(text).value <= |DealsOf(snap)|) ==>
          write == None && reply == InvalidDealNumber)
  }

  /** State `pick_deal`. */
  method HandlePickDeal(text: string, ghost textBody: string, session: Session, snap: Snapshot) returns (reply: Reply, write: Option<Session>)
    requires text !in RestartWords && session.state == PickDeal
    ensures PickDealRule(text, session, snap, reply, write)
    ensures SavedStep(session, text, textBody, write)
  {
    var deals := DealsOf(snap);
    write := None;
    if text == "" {
      return DealsMenu(deals), None;
    }
    var parsed := ParseInt(text);
    if parsed.None? {
      return InvalidDealInput, None;
    }
    var idx := parsed.value - 1;
    if 0 <= idx < |deals| {
      var cart := session.cart + [DealLine(deals[idx], idx + 1)];
      write := Some(session.(state := AddMore, cart := cart, temp := NoTemp));
      AddedLineStep(session, text, textBody, DealLine(deals[idx], idx + 1), write.value);
      reply := ShowAddMoreMenu(cart);
    } else {
      reply := InvalidDealNumber;
    }
  }

  /**
    The rule of state `pick_item`: ordinal k picks the k-th dish of the
    chosen category; a dish with a size map goes on to size selection, any
    other dish straight to the quantity with its flat price (0 when it has
    none).
   */
  ghost predicate PickItemRule(text: string, session: Session, snap: Snapshot, reply: Reply, write: Option<Session>) {
    && (text == "" ==>
          write == None && reply == ItemsList(session.temp.categoryName, ItemsOf(snap, session.temp.categoryName)))
    && (text != "" && ParseInt(text).None? ==> write == None && reply == InvalidItemInput)
    && (ParseInt(text).Some? && 1 <= ParseInt(text).value <= |ItemsOf(snap, session.temp.categoryName)| ==>
          var category := session.temp.categoryName;
          var item := ItemsOf(snap, category)[ParseInt(text).value - 1];
          if item.sizes.GetOr([]) != [] then
            && write == Some(session.(state := PickSize,
                 temp := TempItem(category, Some(item.id), item.name, item.sizes, None, None)))
            && reply == SizeMenu(item.name, item.sizes.GetOr([]))
          else
            && write == Some(session.(state := PickQty,
                 temp := TempItem(category, Some(item.id), item.name, None, None, Some(item.price.GetOr(0)))))
            && reply == ItemChosen(item.name, item.price.GetOr(0)))
    && (ParseInt(text).Some? && !(1 <= ParseInt(text).value <= |ItemsOf(snap, session.temp.categoryName)|) ==>
          write == None && reply == InvalidItemNumber)
  }

  /** State `pick_item`. */
  method HandlePickItem(text: string, ghost textBody: string, session: Session, snap: Snapshot) returns (reply: Reply, write: Option<Session>)
    ensures PickItemRule(text, session, snap, reply, write)
    ensures SavedStep(session, text, textBody, write)
  {
    var category := session.temp.categoryName;
    write := None;
    if text == "" {
      return ItemsList(category, ItemsOf(snap, category)), None;
    }
    var parsed := ParseInt(text);
    if parsed.None? {
      return InvalidItemInput, None;
    }
    var idx := parsed.value - 1;
    var items := ItemsOf(snap, category);
    if 0 <= idx < |items| {
      var item := items[idx];
      var sizes := item.sizes.GetOr([]);
      if sizes != [] {
        write := Some(session.(state := PickSize,
          temp := TempItem(category, Some(item.id), item.name, item.sizes, None, None)));
        KeptCartStep(session, text, textBody, write.value);
        reply := SizeMenu(item.name, sizes);
      } else {
        var price := item.price.GetOr(0);
        write := Some(session.(state := PickQty,
          temp := TempItem(category, Some(item.id), item.name, None, None, Some(price))));
        KeptCartStep(session, text, textBody, write.value);
        reply := ItemChosen(item.name, price);
      }
    } else {
      reply := InvalidItemNumber;
    }
  }

  /** The rule of state `pick_size`: ordinal k picks the k-th size of the dish, in map order, and its price. */
  ghost predicate PickSizeRule(text: string, session: Session, reply: Reply, write: Option<Session>) {
    && (text == "" ==> write == None && reply == SizeMenu(session.temp.itemName, session.temp.sizes.GetOr([])))
    && (text != "" && ParseInt(text).None? ==> write == None && reply == InvalidSizeInput)
    && (ParseInt(text).Some? && 1 <= ParseInt(text).value <= |session.temp.sizes.GetOr([])| ==>
          var chosen := session.temp.sizes.GetOr([])[ParseInt(text).value - 1];
          && write == Some(session.(state := PickQty,
               temp := session.temp.(size := Some(chosen.0), unitPrice := Some(chosen.1))))
          && reply == SizeChosen(session.temp.itemName, chosen.0, chosen.1))
    && (ParseInt(text).Some? && !(1 <= ParseInt(text).value <= |session.temp.sizes.GetOr([])|) ==>
          write == None && reply == InvalidSizeNumber(|session.temp.sizes.GetOr([])|))
  }

  /** State `pick_size`. */
  method HandlePickSize(text: string, ghost textBody: string, session: Session) returns (reply: Reply, write: Option<Session>)
    ensures PickSizeRule(text, session, reply, write)
    ensures SavedStep(session, text, textBody, write)
  {
    var sizes := session.temp.sizes.GetOr([]);
    write := None;
    if text == "" {
      return SizeMenu(session.temp.itemName, sizes), None;
    }
    var parsed := ParseInt(text);
    if parsed.None? {
      return InvalidSizeInput, None;
    }
    var idx := parsed.value - 1;
    if 0 <= idx < |sizes| {
      var (sizeName, price) := sizes[idx];
      write := Some(session.(state := PickQty, temp := session.temp.(size := Some(sizeName), unitPrice := Some(price))));
      KeptCartStep(session, text, textBody, write.value);
      reply := SizeChosen(session.temp.itemName, sizeName, price);
    } else {
      reply := InvalidSizeNumber(|sizes|);
    }
  }

  /**
    The rule of state `pick_qty`: a quantity in 1..100 appends exactly one
    dish line priced unit price times quantity; below 1, above 100 and
    non-numbers are each refused with their own reply and the session left
    as it was.
   */
  ghost predicate PickQtyRule(text: string, session: Session, reply: Reply, write: Option<Session>) {
    && (text == "" ==> write == None && reply == AskQuantity(session.temp.itemName))
    && (text != "" && ParseInt(text).None? ==> write == None && reply == InvalidQuantity)
    && (ParseInt(text).Some? && ParseInt(text).value <= 0 ==> write == None && reply == QuantityTooLow)
    && (ParseInt(text).Some? && ParseInt(text).value > 100 ==> write == None && reply == QuantityTooHigh)
    && (ParseInt(text).Some? && 1 <= ParseInt(text).value <= 100 ==>
          var cart := session.cart + [DishLine(session.temp, ParseInt(text).value)];
          && write == Some(session.(state := AddMore, cart := cart, temp := NoTemp))
          && reply == AddMoreMenu(cart, Subtotal(cart)))
  }

  /** State `pick_qty`. */
  method HandlePickQty(text: string, ghost textBody: string, session: Session) returns (reply: Reply, write: Option<Session>)
    requires text !in RestartWords && session.state == PickQty
    ensures PickQtyRule(text, session, reply, write)
    ensures SavedStep(session, text, textBody, write)
  {
    write := None;
    if text == "" {
      return AskQuantity(session.temp.itemName), None;
    }
    var parsed := ParseInt(text);
    if parsed.None? {
      return InvalidQuantity, None;
    }
    var qty := parsed.value;
    if qty <= 0 {
      return QuantityTooLow, None;
    }
    if qty > 100 {
      return QuantityTooHigh, None;
    }
    var cart := session.cart + [DishLine(session.temp, qty)];
    write := Some(session.(state := AddMore, cart := cart, temp := NoTemp));
    AddedLineStep(session, text, textBody, DishLine(session.temp, qty), write.value);
    reply := ShowAddMoreMenu(cart);
  }

  /** The rule of state `add_more`: yes goes back to the menu keeping the cart, no goes on to the name. */
  ghost predicate AddMoreRule(text: string, session: Session, snap: Snapshot, reply: Reply, write: Option<Session>) {
    && (text in AddMoreYes ==>
          write == Some(session.(state := ShowMenu, temp := NoTemp)) && reply.MainMenu? && NumberedMenu(reply.entries, CategoriesOf(snap)))
    && (text in AddMoreNo ==> write == Some(session.(state := AskName)) && reply == NamePrompt)
    && (text !in AddMoreYes && text !in AddMoreNo ==>
          write == None && reply == AddMoreMenu(session.cart, Subtotal(session.cart)))
  }

  /** State `add_more`. */
  method HandleAddMore(text: string, ghost textBody: string, session: Session, snap: Snapshot) returns (reply: Reply, write: Option<Session>)
    ensures AddMoreRule(text, session, snap, reply, write)
    ensures SavedStep(session, text, textBody, write)
  {
    if text in AddMoreYes {
      write := Some(session.(state := ShowMenu, temp := NoTemp));
      KeptCartStep(session, text, textBody, write.value);
      reply := MainMenuReply(snap);
    } else if text in AddMoreNo {
      write := Some(session.(state := AskName));
      KeptCartStep(session, text, textBody, write.value);
      reply := NamePrompt;
    } else {
      write := None;
      reply := ShowAddMoreMenu(session.cart);
    }
  }

  /** The rule of state `ask_name`: a non-blank text is kept as the name, stripped but with its case. */
  ghost predicate AskNameRule(text: string, textBody: string, session: Session, reply: Reply, write: Option<Session>) {
    && (text == "" ==> write == None && reply == NameRequired)
    && (text != "" ==>
          Strip(textBody) != "" && write == Some(session.(state := AskAddress, customerName := Some(Strip(textBody))))
          && reply == AddressPrompt)
  }

  /** State `ask_name`. */
  method HandleAskName(text: string, textBody: string, session: Session) returns (reply: Reply, write: Option<Session>)
    requires text == Normalize(textBody) && session.state == AskName
    ensures AskNameRule(text, textBody, session, reply, write)
    ensures SavedStep(session, text, textBody, write)
  {
    if text == "" {
      return NameRequired, None;
    }
    write := Some(session.(state := AskAddress, customerName := Some(Strip(textBody))));
    ContactStep(session, text, textBody, write.value);
    reply := AddressPrompt;
  }

  /** The rule of state `ask_address`: a non-blank text is kept as the address and the summary is shown. */
  ghost predicate AskAddressRule(text: string, textBody: string, phone: string, session: Session, reply: Reply, write: Option<Session>) {
    && (text == "" ==> write == None && reply == AddressRequired)
    && (text != "" ==>
          Strip(textBody) != "" && write == Some(session.(state := ConfirmOrder, customerAddress := Some(Strip(textBody))))
          && reply == OrderSummary(session.cart, phone, session.customerName, Some(Strip(textBody)), Subtotal(session.cart)))
  }

  /** State `ask_address`. */
  method HandleAskAddress(text: string, textBody: string, phone: string, session: Session)
    returns (reply: Reply, write: Option<Session>)
    requires text == Normalize(textBody) && session.state == AskAddress
    ensures AskAddressRule(text, textBody, phone, session, reply, write)
    ensures SavedStep(session, text, textBody, write)
  {
    if text == "" {
      return AddressRequired, None;
    }
    var address := Strip(textBody);
    write := Some(session.(state := ConfirmOrder, customerAddress := Some(address)));
    ContactStep(session, text, textBody, write.value);
    reply := ShowOrderSummary(session.cart, phone, session.customerName, Some(address));
  }

  /**
    The rule of state `confirm_order`: yes writes one order for the whole
    cart, priced at the sum of its lines, and clears the session back to
    idle; no clears it without an order; anything else shows the summary
    again.
   */
  ghost predicate ConfirmOrderRule(text: string, phone: string, session: Session, now: string,
                                   reply: Reply, write: Option<Session>, order: Option<ChatOrder>) {
    && (text in ConfirmYes ==>
          && order == Some(ChatOrder(phone, session.customerName, session.customerAddress, session.cart,
                                     Subtotal(session.cart), "new", now, now, "whatsapp"))
          && write == Some(Cleared(session, Idle))
          && reply == OrderConfirmed(Subtotal(session.cart), session.customerAddress))
    && (text !in ConfirmYes && text in ConfirmNo ==>
          order == None && write == Some(Cleared(session, Idle)) && reply == OrderCancelled)
    && (text !in ConfirmYes && text !in ConfirmNo ==>
          && order == None && write == None
          && reply == OrderSummary(session.cart, phone, session.customerName, session.customerAddress, Subtotal(session.cart)))
  }

  /** State `confirm_order`. */
  method HandleConfirmOrder(text: string, ghost textBody: string, phone: string, session: Session, now: string)
    returns (reply: Reply, write: Option<Session>, order: Option<ChatOrder>)
    requires session.state == ConfirmOrder
    ensures ConfirmOrderRule(text, phone, session, now, reply, write, order)
    ensures SavedStep(session, text, textBody, write)
  {
    if text in ConfirmYes {
      var total := Subtotal(session.cart);
      order := Some(ChatOrder(phone, session.customerName, session.customerAddress, session.cart,
                              total, "new", now, now, "whatsapp"));
      write := Some(Cleared(session, Idle));
      ClearedStep(session, text, textBody, Idle);
      reply := OrderConfirmed(total, session.customerAddress);
    } else if text in ConfirmNo {
      order := None;
      write := Some(Cleared(session, Idle));
      ClearedStep(session, text, textBody, Idle);
      reply := OrderCancelled;
    } else {
      order := None;
      write := None;
      reply := ShowOrderSummary(session.cart, phone, session.customerName, session.customerAddress);
    }
  }

  /** `after`'s cart is `before`'s with exactly one line added at the end. */
  ghost predicate Appended(before: seq<CartLine>, after: seq<CartLine>) {
    |after| == |before| + 1 && after[..|before|] == before
  }

  /**
    The only ways one message changes the cart: a restart, a fresh start
    from idle, a confirmation or a cancellation empty it; a deal pick or a
    quantity pick appends one line.
   */
  ghost predicate CartEvolves(before: Session, text: string, after: Session) {
    || after.cart == before.cart
    || (after.cart == [] && (text in RestartWords || before.state == Idle || before.state == ConfirmOrder))
    || (text !in RestartWords && (before.state == PickDeal || before.state == PickQty) && Appended(before.cart, after.cart))
  }

  /**
    The name is only ever set in `ask_name` and the address only in
    `ask_address`, each to the stripped, non-blank text of the message.
   */
  ghost predicate ContactsEvolve(before: Session, textBody: string, after: Session) {
    && (after.customerName != before.customerName ==>
          before.state == AskName && after.customerName == Some(Strip(textBody)) && Strip(textBody) != "")
    && (after.customerAddress != before.customerAddress ==>
          before.state == AskAddress && after.customerAddress == Some(Strip(textBody)) && Strip(textBody) != "")
  }

  /**
    What every saved session satisfies with respect to the one it replaces,
    `text` being the normalised message and `textBody` the raw one.
   */
  ghost predicate SavedStep(before: Session, text: string, textBody: string, write: Option<Session>) {
    write.Some? ==>
      && CartEvolves(before, text, write.value)
      && (CartWellFormed(before.cart) ==> CartWellFormed(write.value.cart))
      && ContactsEvolve(before, textBody, write.value)
  }

  /** Emptying the cart by a restart, a fresh start from idle, a confirmation or a cancellation is a saved step. */
  lemma ClearedStep(before: Session, text: string, textBody: string, state: State)
    requires text in RestartWords || before.state == Idle || before.state == ConfirmOrder
    ensures SavedStep(before, text, textBody, Some(Cleared(before, state)))
  {
  }

  /** Keeping the cart and the contact details is a saved step, whatever else changes. */
  lemma KeptCartStep(before: Session, text: string, textBody: string, after: Session)
    requires after.cart == before.cart
    requires after.customerName == before.customerName && after.customerAddress == before.customerAddress
    ensures SavedStep(before, text, textBody, Some(after))
  {
  }

  /** Appending one well-formed line in `pick_deal` or `pick_qty` is a saved step. */
  lemma AddedLineStep(before: Session, text: string, textBody: string, line: CartLine, after: Session)
    requires text !in RestartWords && (before.state == PickDeal || before.state == PickQty)
    requires line.WellFormed() && after.cart == before.cart + [line]
    requires after.customerName == before.customerName && after.customerAddress == before.customerAddress
    ensures SavedStep(before, text, textBody, Some(after))
  {
    assert Appended(before.cart, after.cart);
  }

  /** Setting the contact detail asked for to the stripped, non-blank text is a saved step. */
  lemma ContactStep(before: Session, text: string, textBody: string, after: Session)
    requires Strip(textBody) != "" && after.cart == before.cart
    requires before.state == AskName || before.state == AskAddress
    requires before.state == AskName ==>
      after.customerName == Some(Strip(textBody)) && after.customerAddress == before.customerAddress
    requires before.state == AskAddress ==>
      after.customerAddress == Some(Strip(textBody)) && after.customerName == before.customerName
    ensures SavedStep(before, text, textBody, Some(after))
  {
  }

  /** The states that lead to a category, a deal or a dish. */
  predicate Choosing(state: State) {
    state.Idle? || state.ShowMenu? || state.PickDeal?
  }

  /** The states that turn a chosen dish into a cart line. */
  predicate Dish(state: State) {
    state.PickItem? || state.PickSize? || state.PickQty?
  }

  /** The rules of the states `idle`, `show_menu` and `pick_deal`. */
  method HandleChoosing(text: string, textBody: string, session: Session, snap: Snapshot)
    returns (reply: Reply, write: Option<Session>)
    requires text !in RestartWords && Choosing(session.state)
    ensures session.state == Idle ==> IdleRule(text, session, snap, reply, write)
    ensures session.state == ShowMenu ==> ShowMenuRule(text, session, snap, reply, write)
    ensures session.state == PickDeal ==> PickDealRule(text, session, snap, reply, write)
    ensures SavedStep(session, text, textBody, write)
  {
    match session.state {
      case Idle =>
        reply, write := HandleIdle(text, textBody, session, snap);
      case ShowMenu =>
        reply, write := HandleShowMenu(text, textBody, session, snap);
      case PickDeal =>
        reply, write := HandlePickDeal(text, textBody, session, snap);
    }
  }

  /** The rules of the states `pick_item`, `pick_size` and `pick_qty`. */
  method HandleDish(text: string, textBody: string, session: Session, snap: Snapshot)
    returns (reply: Reply, write: Option<Session>)
    requires text !in RestartWords && Dish(session.state)
    ensures session.state == PickItem ==> PickItemRule(text, session, snap, reply, write)
    ensures session.state == PickSize ==> PickSizeRule(text, session, reply, write)
    ensures session.state == PickQty ==> PickQtyRule(text, session, reply, write)
    ensures SavedStep(session, text, textBody, write)
  {
    match session.state {
      case PickItem =>
        reply, write := HandlePickItem(text, textBody, session, snap);
      case PickSize =>
        reply, write := HandlePickSize(text, textBody, session);
      case PickQty =>
        reply, write := HandlePickQty(text, textBody, session);
    }
  }

  /** The rules of the states `add_more` to `confirm_order`. */
  method HandleCheckout(text: string, textBody: string, phone: string, session: Session, snap: Snapshot, now: string)
    returns (reply: Reply, write: Option<Session>, order: Option<ChatOrder>)
    requires text == Normalize(textBody) && text !in RestartWords
    requires session.state.AddMore? || session.state.AskName? || session.state.AskAddress? || session.state.ConfirmOrder?
    ensures session.state == AddMore ==> AddMoreRule(text, session, snap, reply, write) && order == None
    ensures session.state == AskName ==> AskNameRule(text, textBody, session, reply, write) && order == None
    ensures session.state == AskAddress ==> AskAddressRule(text, textBody, phone, session, reply, write) && order == None
    ensures session.state == ConfirmOrder ==> ConfirmOrderRule(text, phone, session, now, reply, write, order)
    ensures order.Some? <==> session.state == ConfirmOrder && text in ConfirmYes
    ensures SavedStep(session, text, textBody, write)
  {
    order := None;
    match session.state {
      case AddMore =>
        reply, write := HandleAddMore(text, textBody, session, snap);
      case AskName =>
        reply, write := HandleAskName(text, textBody, session);
      case AskAddress =>
        reply, write := HandleAskAddress(text, textBody, phone, session);
      case ConfirmOrder =>
        reply, write, order := HandleConfirmOrder(text, textBody, phone, session, now);
    }
  }

  /**
    The rule of the session's state for a normalised `text` that is not a
    restart word; a state string the bot does not know gets the greeting and
    nothing is saved.
   */
  ghost predicate StateRule(text: string, textBody: string, phone: string, session: Session, snap: Snapshot, now: string,
                            reply: Reply, write: Option<Session>, order: Option<ChatOrder>) {
    match session.state
    case Idle => IdleRule(text, session, snap, reply, write) && order == None
    case ShowMenu => ShowMenuRule(text, session, snap, reply, write) && order == None
    case PickDeal => PickDealRule(text, session, snap, reply, write) && order == None
    case PickItem => PickItemRule(text, session, snap, reply, write) && order == None
    case PickSize => PickSizeRule(text, session, reply, write) && order == None
    case PickQty => PickQtyRule(text, session, reply, write) && order == None
    case AddMore => AddMoreRule(text, session, snap, reply, write) && order == None
    case AskName => AskNameRule(text, textBody, session, reply, write) && order == None
    case AskAddress => AskAddressRule(text, textBody, phone, session, reply, write) && order == None
    case ConfirmOrder => ConfirmOrderRule(text, phone, session, now, reply, write, order)
    case Unrecognised(_) => reply == Greeting && write == None && order == None
  }

  /**
    `handle_user_message`: normalise the text, apply the restart rule from
    any state, otherwise the rule of the session's state. `write` is the
    session saved back, if any; `order` the order document inserted, if any.
   */
  method HandleUserMessage(textBody: string, phone: string, session: Session, snap: Snapshot, now: string)
    returns (reply: Reply, write: Option<Session>, order: Option<ChatOrder>)
    ensures Normalize(textBody) in RestartWords ==>
      && write == Some(Cleared(session, ShowMenu)) && order == None
      && reply.MainMenu? && NumberedMenu(reply.entries, CategoriesOf(snap))
    ensures order.Some? <==>
      Normalize(textBody) !in RestartWords && session.state == ConfirmOrder && Normalize(textBody) in ConfirmYes
    ensures order.Some? ==>
      && order.value.items == session.cart && order.value.totalPrice == Subtotal(session.cart)
      && order.value.status == "new" && order.value.customerPhone == phone
      && write == Some(Cleared(session, Idle))
    ensures Normalize(textBody) !in RestartWords ==>
      StateRule(Normalize(textBody), textBody, phone, session, snap, now, reply, write, order)
    ensures SavedStep(session, Normalize(textBody), textBody, write)
  {
    var text := Normalize(textBody);
    order := None;
    if text in RestartWords {
      write := Some(Cleared(session, ShowMenu));
      ClearedStep(session, text, textBody, ShowMenu);
      reply := MainMenuReply(snap);
    } else if Choosing(session.state) {
      reply, write := HandleChoosing(text, textBody, session, snap);
    } else if Dish(session.state) {
      reply, write := HandleDish(text, textBody, session, snap);
    } else if session.state.Unrecognised? {
      reply, write := Greeting, None;
    } else {
      reply, write, order := HandleCheckout(text, textBody, phone, session, snap, now);
    }
  }

}
