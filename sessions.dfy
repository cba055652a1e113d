/** The per-user record of main.py (`user_data[user_id]`), the chat events the
    handlers cause, and the callback-data formats the inline buttons carry. */
module Sessions {
  import opened Wrappers
  import opened PyStr
  import opened Carts

  type UserId = int
  type MessageId = int

  /** `user_data[user_id]`: the menu message with the reply keyboard, the
      transient messages shown under it, the cart, and what checkout collected.
      `phone` is `None` while the key is absent; `address` is `None` while the
      key is absent and also when the address message had no text. */
  datatype Session = Session(
    mainMessageId: Option<MessageId>,
    otherMessages: seq<MessageId>,
    cart: Cart,
    phone: Option<string>,
    address: Option<string>)

  /** The record created on a user's first visit (main.py:54-55). */
  const NewSession: Session := Session(None, [], map[], None, None)

  /** `user_data[user_id]`, created on first use. */
  function SessionOr(sessions: map<UserId, Session>, u: UserId): Session {
    if u in sessions then sessions[u] else NewSession
  }

  /** `if user_data[user_id]['main_message_id']:` — `None` and 0 both read as
      "no main message". */
  predicate HasMainMessage(s: Session) {
    s.mainMessageId.Some? && s.mainMessageId.value != 0
  }

  /** The text of update_main_message when no greeting is given. */
  const MainMenuTitle: string := "Главное меню"

  /** The greeting of /start (main.py:94). */
  const StartGreeting: string := "Добро пожаловать в наш магазин!"

  /** What a sent message shows, as far as the model distinguishes messages. */
  datatype Content =
    | MenuMessage(title: string)           // the main message with the reply keyboard
    | CategoryChoice                       // "Выберите категорию товаров:"
    | DeliveryText
    | CallText
    | ChatText
    | EmptyCartText                        // "Корзина пуста"
    | CartText(total: int)                 // the cart summary with edit / checkout buttons
    | CategoryProducts(category: string)   // the product list of one category
    | ProductCard(product: ProductId)      // a product with its "-" / "+" / add buttons
    | ItemPicker                           // "Выберите товар, который нужно изменить:"
    | ItemCard(product: ProductId)         // a cart line with its "-" / "+" / remove buttons
    | OrderText(total: int)                // the checkout summary asking for a phone
    | PhoneRePrompt
    | AddressRequest
    | OrderAccepted(total: int, phone: Option<string>, address: Option<string>)

  /** The screens of the main reply keyboard that show one transient message. */
  datatype Screen = CatalogScreen | DeliveryScreen | CallScreen | ChatScreen

  function ScreenContent(sc: Screen): Content {
    match sc
    case CatalogScreen => CategoryChoice
    case DeliveryScreen => DeliveryText
    case CallScreen => CallText
    case ChatScreen => ChatText
  }

  /** A call on the chat transport. A delete is recorded when it is issued;
      whether it succeeded is never looked at. */
  datatype Event =
    | Deleted(chat: UserId, message: MessageId)
    | Sent(chat: UserId, message: MessageId, content: Content)

  // ---------------------------------------------------------------------
  // The message lifecycle
  // ---------------------------------------------------------------------

  /** The events of update_main_message: a delete of the old main message when
      there is one, then the send of the new one (main.py:57-68). */
  function MainRefresh(u: UserId, s: Session, id: MessageId, title: string): (e: seq<Event>)
    ensures |e| == if HasMainMessage(s) then 2 else 1
    ensures HasMainMessage(s) ==> e[0] == Deleted(u, s.mainMessageId.value)
    ensures e[|e| - 1] == Sent(u, id, MenuMessage(title))
  {
    (if HasMainMessage(s) then [Deleted(u, s.mainMessageId.value)] else []) + [Sent(u, id, MenuMessage(title))]
  }

  /** The events of clean_other_messages: one delete per stored id, in order
      (main.py:74-79). */
  function DeleteEach(u: UserId, ids: seq<MessageId>): (e: seq<Event>)
    ensures |e| == |ids|
    ensures forall i :: 0 <= i < |ids| ==> e[i] == Deleted(u, ids[i])
  {
    if ids == [] then [] else DeleteEach(u, ids[..|ids| - 1]) + [Deleted(u, ids[|ids| - 1])]
  }

  /** The events of a navigation handler: refresh the main message, delete the
      transients, delete the user's own message when the handler does, and send
      the new transient when there is one. The transport numbers messages in
      order, so the transient gets the id after the main message's. */
  function NavigationEvents(u: UserId, s: Session, mainId: MessageId, title: string,
                            incoming: Option<MessageId>, content: Option<Content>): seq<Event>
  {
    MainRefresh(u, s, mainId, title) + DeleteEach(u, s.otherMessages)
    + (if incoming.Some? then [Deleted(u, incoming.value)] else [])
    + (if content.Some? then [Sent(u, mainId + 1, content.value)] else [])
  }

  /** The record after a navigation handler: the new main message, and as the
      only transient the message it sent, if any. */
  function Navigated(s: Session, mainId: MessageId, content: Option<Content>): Session {
    s.(mainMessageId := Some(mainId), otherMessages := if content.Some? then [mainId + 1] else [])
  }

  /** Recording the transient after a refresh gives the record a navigation
      with that transient leaves. */
  lemma NavigatedThenAppend(m: map<UserId, Session>, u: UserId, s: Session, mainId: MessageId, c: Content)
    ensures var r := Navigated(s, mainId, None);
            m[u := r][u := r.(otherMessages := r.otherMessages + [mainId + 1])] == m[u := Navigated(s, mainId, Some(c))]
  {
    var r := Navigated(s, mainId, None);
    assert r.otherMessages + [mainId + 1] == [mainId + 1];
  }

  /** The events of a navigation that sends a transient are those of the same
      navigation without it, followed by the send. */
  lemma NavigationThenSend(u: UserId, s: Session, mainId: MessageId, title: string,
                           incoming: Option<MessageId>, c: Content)
    ensures NavigationEvents(u, s, mainId, title, incoming, Some(c))
         == NavigationEvents(u, s, mainId, title, incoming, None) + [Sent(u, mainId + 1, c)]
  {
  }

  /** The ids a record holds are ids the transport handed out before `bound`. */
  ghost predicate SessionOk(s: Session, bound: MessageId) {
    && Positive(s.cart)
    && (forall i :: 0 <= i < |s.otherMessages| ==> 1 <= s.otherMessages[i] < bound)
    && (s.mainMessageId.Some? ==> 1 <= s.mainMessageId.value < bound && s.mainMessageId.value !in s.otherMessages)
  }

  /** Handing out more ids keeps a record's ids within what was handed out. */
  lemma SessionOkGrow(s: Session, bound: MessageId, bound': MessageId)
    requires SessionOk(s, bound) && bound <= bound'
    ensures SessionOk(s, bound')
  {
  }

  /** The transport numbers its messages in order: every id sent in `log` is
      below `bound`, and each is above the ids sent before it. */
  predicate SentInOrder(log: seq<Event>, bound: MessageId)
    decreases |log|
  {
    if log == [] then true
    else
      var e := log[|log| - 1];
      if e.Sent? then e.message < bound && SentInOrder(log[..|log| - 1], e.message)
      else SentInOrder(log[..|log| - 1], bound)
  }

  /** What the order means: the ids sent are distinct, increase along the log
      and stay below the bound, so the next send reuses none of them. */
  lemma {:induction false} SentInOrderMeans(log: seq<Event>, bound: MessageId)
    requires SentInOrder(log, bound)
    ensures forall i :: 0 <= i < |log| && log[i].Sent? ==> log[i].message < bound
    ensures forall i, j :: 0 <= i < j < |log| && log[i].Sent? && log[j].Sent? ==> log[i].message < log[j].message
    decreases |log|
  {
    if log != [] {
      var e := log[|log| - 1];
      var rest := log[..|log| - 1];
      assert forall i :: 0 <= i < |rest| ==> log[i] == rest[i];
      if e.Sent? {
        SentInOrderMeans(rest, e.message);
      } else {
        SentInOrderMeans(rest, bound);
      }
    }
  }

  /** The order of a navigation handler's events: the old main message is
      deleted first, the new main message is sent next, and only then are the
      old transients deleted, then the user's message, and the new transient
      is sent last. Nothing deleted is the new main message or the new
      transient. */
  lemma NavigationOrder(u: UserId, s: Session, mainId: MessageId, title: string,
                        incoming: Option<MessageId>, content: Option<Content>)
    requires SessionOk(s, mainId)
    requires incoming.Some? ==> incoming.value < mainId
    ensures var e := NavigationEvents(u, s, mainId, title, incoming, content);
            var m := if HasMainMessage(s) then 1 else 0;
            var k := |s.otherMessages|;
      && |e| == m + 1 + k + (if incoming.Some? then 1 else 0) + (if content.Some? then 1 else 0)
      && (m == 1 ==> e[0] == Deleted(u, s.mainMessageId.value))
      && e[m] == Sent(u, mainId, MenuMessage(title))
      && (forall i :: 0 <= i < k ==> e[m + 1 + i] == Deleted(u, s.otherMessages[i]))
      && (incoming.Some? ==> e[m + 1 + k] == Deleted(u, incoming.value))
      && (content.Some? ==> e[|e| - 1] == Sent(u, mainId + 1, content.value))
      && (forall j :: 0 <= j < |e| && e[j].Deleted? ==> e[j].message < mainId)
  {
    var e := NavigationEvents(u, s, mainId, title, incoming, content);
    var r := MainRefresh(u, s, mainId, title);
    var d := DeleteEach(u, s.otherMessages);
    var tail := (if incoming.Some? then [Deleted(u, incoming.value)] else [])
      + (if content.Some? then [Sent(u, mainId + 1, content.value)] else []);
    assert e == r + d + tail;
    forall j | 0 <= j < |e| && e[j].Deleted?
      ensures e[j].message < mainId
    {
      if j < |r| {
        assert e[j] == r[j];
      } else if j < |r| + |d| {
        assert e[j] == d[j - |r|];
      } else {
        assert e[j] == tail[j - |r| - |d|];
      }
    }
  }

  /** After a navigation handler the record holds exactly one transient when
      the handler sent one, none otherwise, and its ids stay within what the
      transport has handed out. */
  lemma NavigatedOk(s: Session, mainId: MessageId, content: Option<Content>)
    requires SessionOk(s, mainId) && mainId >= 1
    ensures var n := Navigated(s, mainId, content);
      && SessionOk(n, mainId + 2)
      && n.otherMessages == (if content.Some? then [mainId + 1] else [])
      && n.cart == s.cart && n.phone == s.phone && n.address == s.address
  {
  }

  // ---------------------------------------------------------------------
  // Callback data
  // ---------------------------------------------------------------------

  /** `int(data.split("_")[k])`. */
  function IdAt(data: string, k: nat): (r: Result<int>)
    ensures r.Err? ==> r.error == IndexError || r.error == ValueError
  {
    var parts := Split(data, '_');
    if k < |parts| then
      match ParseInt(parts[k])
      case Some(n) => Ok(n)
      case None => Err(ValueError)
    else Err(IndexError)
  }

  /** The product id of the `*_item_<id>` buttons: the third `_` part, or the
      second when there is no third (main.py:262-265 and the handlers after
      it). */
  function ItemId(data: string): (r: Result<int>)
    ensures r.Err? ==> r.error == IndexError || r.error == ValueError
  {
    match IdAt(data, 2)
    case Err(IndexError) => IdAt(data, 1)
    case r => r
  }

  /** `callback.data.split("_")[1]` for data the `category_` filter let
      through; the split has at least two parts, so it cannot raise. */
  function CategoryOf(data: string): string
    requires StartsWith(data, "category_")
  {
    assert data[..9][8] == data[8];
    CountPositive(data, '_', 8);
    Split(data, '_')[1]
  }

  /** The callback data of a button for product `p`: `f"{prefix}{p}"`. */
  function ButtonData(prefix: string, p: ProductId): string {
    prefix + IntToStr(p)
  }

  /** A button whose prefix is one word and an underscore hands back its own
      product id. */
  lemma IdAtRoundTrip(word: string, p: ProductId)
    requires '_' !in word
    ensures IdAt(ButtonData(word + "_", p), 1) == Ok(p)
  {
    var digits := IntToStr(p);
    IntToStrNoUnderscore(p);
    assert ButtonData(word + "_", p) == word + ['_'] + digits;
    SplitAt(word, digits, '_');
    SplitNoSep(word, '_');
    SplitNoSep(digits, '_');
    IntRoundTrip(p);
  }

  /** An `*_item_` button hands back its own product id. */
  lemma ItemIdRoundTrip(word: string, p: ProductId)
    requires '_' !in word
    ensures ItemId(ButtonData(word + "_item_", p)) == Ok(p)
  {
    var digits := IntToStr(p);
    IntToStrNoUnderscore(p);
    ItemButtonParts(word, digits);
    IntRoundTrip(p);
  }

  /** The parts of an `*_item_` button. */
  lemma ItemButtonParts(word: string, digits: string)
    requires '_' !in word && '_' !in digits
    ensures Split(word + "_item_" + digits, '_') == [word, "item", digits]
  {
    assert word + "_item_" + digits == word + ['_'] + ("item" + ['_'] + digits);
    SplitAfterWord(word, "item" + ['_'] + digits, '_');
    SplitAfterWord("item", digits, '_');
    SplitNoSep(digits, '_');
  }

  // ---------------------------------------------------------------------
  // Which callback handler runs
  // ---------------------------------------------------------------------

  /** The callback handlers of main.py, in the order they are registered. */
  datatype CallbackHandler =
    | EditCart | EditItem | BackToCartFromEdit | DecreaseItem | IncreaseItem | RemoveItem
    | ShowCategory | BackToCategories | ShowProduct | ContinueShopping
    | AddToCart | IncreaseQuantity | DecreaseQuantity | NoAction | CheckoutButton | ClearCart
    | NoCallbackHandler

  /** The first handler whose filter accepts the data. */
  function RouteCallback(data: string): CallbackHandler {
    if data == "edit_cart" then EditCart
    else if StartsWith(data, "edit_item_") then EditItem
    else if data == "back_to_cart_from_edit" then BackToCartFromEdit
    else if StartsWith(data, "dec_item_") then DecreaseItem
    else if StartsWith(data, "inc_item_") then IncreaseItem
    else if StartsWith(data, "del_item_") then RemoveItem
    else if StartsWith(data, "category_") then ShowCategory
    else if data == "back_to_categories" then BackToCategories
    else if StartsWith(data, "product_") then ShowProduct
    else if data == "continue_shopping" then ContinueShopping
    else if StartsWith(data, "add_") then AddToCart
    else if StartsWith(data, "increase_") then IncreaseQuantity
    else if StartsWith(data, "decrease_") then DecreaseQuantity
    else if data == "no_action" then NoAction
    else if data == "checkout" then CheckoutButton
    else if data == "clear_cart" then ClearCart
    else NoCallbackHandler
  }

  /** A string that starts with `p` neither starts with nor equals a `q` that
      differs from `p` at position `i`. */
  lemma PrefixMismatch(s: string, p: string, q: string, i: nat)
    requires StartsWith(s, p) && i < |p| && i < |q| && p[i] != q[i]
    ensures !StartsWith(s, q) && s != q
  {
    assert s[..|p|][i] == s[i];
    if |q| <= |s| {
      assert s[..|q|][i] == s[i];
    }
  }

  // Every product button reaches its own handler, whatever follows the
  // prefix; in particular "-" on the product card (`decrease_`) and "-" in the
  // cart editor (`dec_item_`) reach different handlers.

  lemma AddButtonRoute(rest: string)
    ensures RouteCallback("add_" + rest) == AddToCart
  {
    var data := "add_" + rest;
    StartsWithConcat("add_", rest);
    PrefixMismatch(data, "add_", "edit_cart", 0);
    PrefixMismatch(data, "add_", "edit_item_", 0);
    PrefixMismatch(data, "add_", "back_to_cart_from_edit", 0);
    PrefixMismatch(data, "add_", "dec_item_", 0);
    PrefixMismatch(data, "add_", "inc_item_", 0);
    PrefixMismatch(data, "add_", "del_item_", 0);
    PrefixMismatch(data, "add_", "category_", 0);
    PrefixMismatch(data, "add_", "back_to_categories", 0);
    PrefixMismatch(data, "add_", "product_", 0);
    PrefixMismatch(data, "add_", "continue_shopping", 0);
  }

  lemma IncreaseButtonRoute(rest: string)
    ensures RouteCallback("increase_" + rest) == IncreaseQuantity
  {
    var data := "increase_" + rest;
    StartsWithConcat("increase_", rest);
    PrefixMismatch(data, "increase_", "edit_cart", 0);
    PrefixMismatch(data, "increase_", "edit_item_", 0);
    PrefixMismatch(data, "increase_", "back_to_cart_from_edit", 0);
    PrefixMismatch(data, "increase_", "dec_item_", 0);
    PrefixMismatch(data, "increase_", "inc_item_", 3);
    PrefixMismatch(data, "increase_", "del_item_", 0);
    PrefixMismatch(data, "increase_", "category_", 0);
    PrefixMismatch(data, "increase_", "back_to_categories", 0);
    PrefixMismatch(data, "increase_", "product_", 0);
    PrefixMismatch(data, "increase_", "continue_shopping", 0);
    PrefixMismatch(data, "increase_", "add_", 0);
  }

  lemma DecreaseButtonRoute(rest: string)
    ensures RouteCallback("decrease_" + rest) == DecreaseQuantity
  {
    var data := "decrease_" + rest;
    StartsWithConcat("decrease_", rest);
    PrefixMismatch(data, "decrease_", "edit_cart", 0);
    PrefixMismatch(data, "decrease_", "edit_item_", 0);
    PrefixMismatch(data, "decrease_", "back_to_cart_from_edit", 0);
    PrefixMismatch(data, "decrease_", "dec_item_", 3);
    PrefixMismatch(data, "decrease_", "inc_item_", 0);
    PrefixMismatch(data, "decrease_", "del_item_", 2);
    PrefixMismatch(data, "decrease_", "category_", 0);
    PrefixMismatch(data, "decrease_", "back_to_categories", 0);
    PrefixMismatch(data, "decrease_", "product_", 0);
    PrefixMismatch(data, "decrease_", "continue_shopping", 0);
    PrefixMismatch(data, "decrease_", "add_", 0);
    PrefixMismatch(data, "decrease_", "increase_", 0);
  }

  lemma DecItemButtonRoute(rest: string)
    ensures RouteCallback("dec_item_" + rest) == DecreaseItem
  {
    var data := "dec_item_" + rest;
    StartsWithConcat("dec_item_", rest);
    PrefixMismatch(data, "dec_item_", "edit_cart", 0);
    PrefixMismatch(data, "dec_item_", "edit_item_", 0);
    PrefixMismatch(data, "dec_item_", "back_to_cart_from_edit", 0);
  }

  lemma IncItemButtonRoute(rest: string)
    ensures RouteCallback("inc_item_" + rest) == IncreaseItem
  {
    var data := "inc_item_" + rest;
    StartsWithConcat("inc_item_", rest);
    PrefixMismatch(data, "inc_item_", "edit_cart", 0);
    PrefixMismatch(data, "inc_item_", "edit_item_", 0);
    PrefixMismatch(data, "inc_item_", "back_to_cart_from_edit", 0);
    PrefixMismatch(data, "inc_item_", "dec_item_", 0);
  }

  lemma DelItemButtonRoute(rest: string)
    ensures RouteCallback("del_item_" + rest) == RemoveItem
  {
    var data := "del_item_" + rest;
    StartsWithConcat("del_item_", rest);
    PrefixMismatch(data, "del_item_", "edit_cart", 0);
    PrefixMismatch(data, "del_item_", "edit_item_", 0);
    PrefixMismatch(data, "del_item_", "back_to_cart_from_edit", 0);
    PrefixMismatch(data, "del_item_", "dec_item_", 2);
    PrefixMismatch(data, "del_item_", "inc_item_", 0);
  }
}
