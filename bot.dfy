/** The shop bot of main.py as one object: the global `user_data` dictionary,
    the dialogue state the dispatcher keeps per user, the transport's message
    numbering, and the log of transport calls. Each handler is a method. */
module Bot {
  import opened Wrappers
  import opened PyStr
  import opened Messages
  import opened Carts
  import opened Checkout
  import opened Sessions

  /** The products a category lists: get_products_by_category. */
  function ProductsIn(catalog: Catalog, category: string): (r: set<ProductId>)
    ensures forall p :: p in r <==> p in catalog && catalog[p].category == category
  {
    set p | p in catalog && catalog[p].category == category
  }

  class Shop {
    /** `user_data`. */
    var sessions: map<UserId, Session>
    /** The dispatcher's FSM state per user; a missing key is "no state". */
    var dialogue: map<UserId, CheckoutState>
    /** The id the transport gives the next message it sends. */
    var nextId: MessageId
    /** Every delete and send issued so far, in order. */
    ghost var log: seq<Event>

    ghost predicate Valid()
      reads this
    {
      && nextId >= 1
      && dialogue.Keys <= sessions.Keys
      && (forall u :: u in dialogue ==> dialogue[u] != Idle)
      && (forall u :: u in sessions ==> SessionOk(sessions[u], nextId))
      && SentInOrder(log, nextId)
    }

    constructor()
      ensures Valid()
      ensures sessions == map[] && dialogue == map[] && log == []
    {
      sessions := map[];
      dialogue := map[];
      nextId := 1;
      log := [];
    }

    /** No id the transport will hand out has been sent already. */
    lemma SentIdsFresh()
      requires Valid()
      ensures forall i :: 0 <= i < |log| && log[i].Sent? ==> log[i].message < nextId
      ensures forall i, j :: 0 <= i < j < |log| && log[i].Sent? && log[j].Sent? ==> log[i].message != log[j].message
    {
      SentInOrderMeans(log, nextId);
    }

    /** `await state.get_state()`. */
    function StateOf(u: UserId): CheckoutState
      reads this
    {
      if u in dialogue then dialogue[u] else Idle
    }

    // -------------------------------------------------------------------
    // The transport
    // -------------------------------------------------------------------

    method SendMessage(chat: UserId, content: Content) returns (id: MessageId)
      modifies this
      ensures id == old(nextId) && nextId == id + 1
      ensures log == old(log) + [Sent(chat, id, content)]
      ensures sessions == old(sessions) && dialogue == old(dialogue)
      ensures SentInOrder(old(log), old(nextId)) ==> SentInOrder(log, nextId)
    {
      id := nextId;
      nextId := nextId + 1;
      log := log + [Sent(chat, id, content)];
    }

    /** A delete whose failure is logged and swallowed: only the attempt
        matters. */
    method DeleteMessage(chat: UserId, id: MessageId)
      modifies this
      ensures log == old(log) + [Deleted(chat, id)]
      ensures sessions == old(sessions) && dialogue == old(dialogue) && nextId == old(nextId)
      ensures SentInOrder(old(log), old(nextId)) ==> SentInOrder(log, nextId)
    {
      log := log + [Deleted(chat, id)];
    }

    // -------------------------------------------------------------------
    // The message lifecycle
    // -------------------------------------------------------------------

    /** update_main_message (main.py:52-68): creates the record on first use,
        deletes the old main message when there is one, sends the new one and
        records its id. */
    method UpdateMainMessage(u: UserId, title: string) returns (id: MessageId)
      requires Valid()
      modifies this
      ensures Valid()
      ensures id == old(nextId) && nextId == id + 1
      ensures sessions == old(sessions)[u := SessionOr(old(sessions), u).(mainMessageId := Some(id))]
      ensures dialogue == old(dialogue)
      ensures log == old(log) + MainRefresh(u, SessionOr(old(sessions), u), id, title)
    {
      var s := SessionOr(sessions, u);
      if HasMainMessage(s) {
        DeleteMessage(u, s.mainMessageId.value);
      }
      id := SendMessage(u, MenuMessage(title));
      sessions := sessions[u := s.(mainMessageId := Some(id))];
      forall v | v in sessions
        ensures SessionOk(sessions[v], nextId)
      {
        if v != u {
          SessionOkGrow(old(sessions)[v], old(nextId), nextId);
        }
      }
    }

    /** clean_other_messages (main.py:70-79): one delete per stored transient,
        whatever their outcomes, then an empty list. */
    method CleanOtherMessages(u: UserId)
      requires Valid()
      modifies this
      ensures Valid()
      ensures u in old(sessions) ==> sessions == old(sessions)[u := old(sessions)[u].(otherMessages := [])]
      ensures u in old(sessions) ==> log == old(log) + DeleteEach(u, old(sessions)[u].otherMessages)
      ensures u !in old(sessions) ==> sessions == old(sessions) && log == old(log)
      ensures dialogue == old(dialogue) && nextId == old(nextId)
    {
      if u in sessions {
        var ids := sessions[u].otherMessages;
        for i := 0 to |ids|
          invariant sessions == old(sessions) && dialogue == old(dialogue) && nextId == old(nextId)
          invariant log == old(log) + DeleteEach(u, ids[..i])
          invariant SentInOrder(log, nextId)
        {
          assert ids[..i + 1][..i] == ids[..i];
          DeleteMessage(u, ids[i]);
        }
        assert ids[..|ids|] == ids;
        sessions := sessions[u := sessions[u].(otherMessages := [])];
      }
    }

    /** Sends a transient message and records its id after the others. */
    method AppendTransient(u: UserId, content: Content) returns (id: MessageId)
      requires Valid() && u in sessions
      modifies this
      ensures Valid()
      ensures id == old(nextId) && nextId == id + 1
      ensures sessions == old(sessions)[u := old(sessions)[u].(otherMessages := old(sessions)[u].otherMessages + [id])]
      ensures dialogue == old(dialogue)
      ensures log == old(log) + [Sent(u, id, content)]
    {
      id := SendMessage(u, content);
      var s := sessions[u];
      sessions := sessions[u := s.(otherMessages := s.otherMessages + [id])];
      forall v | v in sessions
        ensures SessionOk(sessions[v], nextId)
      {
        if v != u {
          SessionOkGrow(old(sessions)[v], old(nextId), nextId);
        }
      }
    }

    /** What every navigation handler does first: refresh the main message,
        clean the transients, and delete the user's message when there is
        one. */
    method RefreshScreen(u: UserId, title: string, incoming: Option<MessageId>) returns (mainId: MessageId)
      requires Valid()
      modifies this
      ensures Valid()
      ensures mainId == old(nextId) && nextId == mainId + 1
      ensures sessions == old(sessions)[u := Navigated(SessionOr(old(sessions), u), mainId, None)]
      ensures dialogue == old(dialogue)
      ensures log == old(log) + NavigationEvents(u, SessionOr(old(sessions), u), mainId, title, incoming, None)
    {
      ghost var s := SessionOr(sessions, u);
      ghost var before := log;
      mainId := UpdateMainMessage(u, title);
      CleanOtherMessages(u);
      assert sessions == old(sessions)[u := s.(mainMessageId := Some(mainId), otherMessages := [])];
      if incoming.Some? {
        DeleteMessage(u, incoming.value);
      }
      ghost var own := if incoming.Some? then [Deleted(u, incoming.value)] else [];
      assert log == before + MainRefresh(u, s, mainId, title) + DeleteEach(u, s.otherMessages) + own;
    }

    /** The body every navigation handler shares: the refresh, then the
        handler's own transient, sent and recorded, when it has one. */
    method Navigate(u: UserId, title: string, incoming: Option<MessageId>, content: Option<Content>)
      returns (mainId: MessageId)
      requires Valid()
      modifies this
      ensures Valid()
      ensures mainId == old(nextId)
      ensures nextId == old(nextId) + (if content.Some? then 2 else 1)
      ensures sessions == old(sessions)[u := Navigated(SessionOr(old(sessions), u), mainId, content)]
      ensures dialogue == old(dialogue)
      ensures log == old(log) + NavigationEvents(u, SessionOr(old(sessions), u), mainId, title, incoming, content)
    {
      ghost var s := SessionOr(sessions, u);
      ghost var before := sessions;
      mainId := RefreshScreen(u, title, incoming);
      if content.Some? {
        ghost var refreshed := log;
        var id := AppendTransient(u, content.value);
        NavigatedThenAppend(before, u, s, mainId, content.value);
        NavigationThenSend(u, s, mainId, title, incoming, content.value);
        assert log == refreshed + [Sent(u, mainId + 1, content.value)];
      }
    }

    // -------------------------------------------------------------------
    // Navigation handlers
    // -------------------------------------------------------------------

    /** cmd_start (main.py:88-96). */
    method Start(u: UserId, incoming: MessageId) returns (mainId: MessageId)
      requires Valid()
      modifies this
      ensures Valid()
      ensures mainId == old(nextId)
      ensures sessions == old(sessions)[u := Navigated(SessionOr(old(sessions), u), mainId, None)]
      ensures dialogue == old(dialogue)
      ensures log == old(log) + NavigationEvents(u, SessionOr(old(sessions), u), mainId, StartGreeting, Some(incoming), None)
      ensures nextId == old(nextId) + 1
    {
      mainId := Navigate(u, StartGreeting, Some(incoming), None);
    }

    /** The "Каталог", "Доставка", "Позвонить" and "Онлайн-чат" buttons
        (main.py:98-172): afterwards the screen's message is the only
        transient. */
    method ShowScreen(u: UserId, incoming: MessageId, screen: Screen) returns (mainId: MessageId)
      requires Valid()
      modifies this
      ensures Valid()
      ensures mainId == old(nextId)
      ensures u in sessions && sessions[u].otherMessages == [mainId + 1]
      ensures sessions == old(sessions)[u := Navigated(SessionOr(old(sessions), u), mainId, Some(ScreenContent(screen)))]
      ensures dialogue == old(dialogue)
      ensures log == old(log) + NavigationEvents(u, SessionOr(old(sessions), u), mainId, MainMenuTitle, Some(incoming), Some(ScreenContent(screen)))
      ensures nextId == old(nextId) + 2
    {
      mainId := Navigate(u, MainMenuTitle, Some(incoming), Some(ScreenContent(screen)));
    }

    /** back_to_main_menu (main.py:905-913). */
    method BackToMainMenu(u: UserId, incoming: MessageId) returns (mainId: MessageId)
      requires Valid()
      modifies this
      ensures Valid()
      ensures mainId == old(nextId)
      ensures sessions == old(sessions)[u := Navigated(SessionOr(old(sessions), u), mainId, None)]
      ensures dialogue == old(dialogue)
      ensures log == old(log) + NavigationEvents(u, SessionOr(old(sessions), u), mainId, MainMenuTitle, Some(incoming), None)
      ensures nextId == old(nextId) + 1
    {
      mainId := Navigate(u, MainMenuTitle, Some(incoming), None);
    }

    /** What show_cart sends under the main message for a cart. */
    ghost function CartContent(c: Cart, catalog: Catalog): Content {
      if c == map[] then EmptyCartText else CartText(Total(c, catalog))
    }

    /** show_cart (main.py:174-215): the notice "Корзина пуста" for an empty
        cart, otherwise the summary with the total over the lines whose product
        still resolves. */
    method ShowCart(u: UserId, incoming: MessageId, catalog: Catalog) returns (mainId: MessageId)
      requires Valid()
      modifies this
      ensures Valid()
      ensures mainId == old(nextId)
      ensures u in sessions && sessions[u].otherMessages == [mainId + 1]
      ensures sessions == old(sessions)[u := Navigated(SessionOr(old(sessions), u), mainId, Some(CartContent(SessionOr(old(sessions), u).cart, catalog)))]
      ensures dialogue == old(dialogue)
      ensures log == old(log) + NavigationEvents(u, SessionOr(old(sessions), u), mainId, MainMenuTitle, Some(incoming),
                                                 Some(CartContent(SessionOr(old(sessions), u).cart, catalog)))
      ensures nextId == old(nextId) + 2
    {
      var c := SessionOr(sessions, u).cart;
      var content := EmptyCartText;
      if c != map[] {
        var total := ComputeTotal(c, catalog);
        content := CartText(total);
      }
      mainId := Navigate(u, MainMenuTitle, Some(incoming), Some(content));
    }

    /** show_category_products (main.py:490-526): the category id is the second
        `_` part of the data; a category without products sends nothing, which
        leaves no transient at all. */
    method ShowCategoryProducts(u: UserId, data: string, catalog: Catalog) returns (mainId: MessageId)
      requires Valid() && StartsWith(data, "category_")
      modifies this
      ensures Valid()
      ensures mainId == old(nextId)
      ensures var category := CategoryOf(data);
              var content := if ProductsIn(catalog, category) == {} then None else Some(CategoryProducts(category));
        && sessions == old(sessions)[u := Navigated(SessionOr(old(sessions), u), mainId, content)]
        && log == old(log) + NavigationEvents(u, SessionOr(old(sessions), u), mainId, MainMenuTitle, None, content)
        && nextId == old(nextId) + (if content.Some? then 2 else 1)
      ensures dialogue == old(dialogue)
    {
      var category := CategoryOf(data);
      var content: Option<Content> := None;
      if ProductsIn(catalog, category) != {} {
        content := Some(CategoryProducts(category));
      }
      mainId := Navigate(u, MainMenuTitle, None, content);
    }

    /** back_to_categories and continue_shopping (main.py:528-552, 610-634):
        the category list as the only transient; the callback's message is not
        deleted by the handler. */
    method ReturnToCategories(u: UserId) returns (mainId: MessageId)
      requires Valid()
      modifies this
      ensures Valid()
      ensures mainId == old(nextId)
      ensures u in sessions && sessions[u].otherMessages == [mainId + 1]
      ensures sessions == old(sessions)[u := Navigated(SessionOr(old(sessions), u), mainId, Some(CategoryChoice))]
      ensures dialogue == old(dialogue)
      ensures log == old(log) + NavigationEvents(u, SessionOr(old(sessions), u), mainId, MainMenuTitle, None, Some(CategoryChoice))
      ensures nextId == old(nextId) + 2
    {
      mainId := Navigate(u, MainMenuTitle, None, Some(CategoryChoice));
    }

    /** back_to_cart_from_edit (main.py:349-370): deletes the editor message,
        then runs show_cart on a stand-in message numbered 0. */
    method BackToCartFromEdit(u: UserId, callbackMessage: MessageId, catalog: Catalog) returns (mainId: MessageId)
      requires Valid()
      modifies this
      ensures Valid()
      ensures mainId == old(nextId)
      ensures sessions == old(sessions)[u := Navigated(SessionOr(old(sessions), u), mainId, Some(CartContent(SessionOr(old(sessions), u).cart, catalog)))]
      ensures dialogue == old(dialogue)
      ensures log == old(log) + [Deleted(u, callbackMessage)]
                   + NavigationEvents(u, SessionOr(old(sessions), u), mainId, MainMenuTitle, Some(0),
                                      Some(CartContent(SessionOr(old(sessions), u).cart, catalog)))
      ensures nextId == old(nextId) + 2
    {
      DeleteMessage(u, callbackMessage);
      mainId := ShowCart(u, 0, catalog);
    }

    /** `after` is `before` with `id` added at the end of `u`'s transients. */
    ghost predicate Appended(before: map<UserId, Session>, after: map<UserId, Session>, u: UserId, id: MessageId) {
      u in before && after == before[u := before[u].(otherMessages := before[u].otherMessages + [id])]
    }

    /** show_product (main.py:554-608): the card of a product that still
        resolves. The record is read before the handler creates it, so a user
        without one raises KeyError. Otherwise the callback's message is
        deleted and the card is sent and kept as one more transient; when the
        transport fails (`delivered` false) the error is caught and the card
        is neither sent nor recorded. */
    method ShowProduct(u: UserId, data: string, callbackMessage: MessageId, catalog: Catalog, delivered: bool)
      returns (outcome: Outcome)
      requires Valid()
      modifies this
      ensures Valid()
      ensures IdAt(data, 1).Err? ==>
        outcome == Raised(IdAt(data, 1).error) && sessions == old(sessions) && log == old(log)
      ensures IdAt(data, 1).Ok? && IdAt(data, 1).value !in catalog ==>
        outcome == Handled && sessions == old(sessions) && log == old(log)
      ensures IdAt(data, 1).Ok? && IdAt(data, 1).value in catalog && u !in old(sessions) ==>
        outcome == Raised(KeyError) && sessions == old(sessions) && log == old(log)
      ensures IdAt(data, 1).Ok? && IdAt(data, 1).value in catalog && u in old(sessions) ==>
        && outcome == Handled
        && (delivered ==> Appended(old(sessions), sessions, u, old(nextId))
                          && log == old(log) + [Deleted(u, callbackMessage), Sent(u, old(nextId), ProductCard(IdAt(data, 1).value))])
        && (!delivered ==> sessions == old(sessions) && log == old(log) + [Deleted(u, callbackMessage)])
      ensures nextId == old(nextId) +
        (if IdAt(data, 1).Ok? && IdAt(data, 1).value in catalog && u in old(sessions) && delivered then 1 else 0)
      ensures dialogue == old(dialogue)
    {
      outcome := Handled;
      match IdAt(data, 1)
      case Err(e) =>
        outcome := Raised(e);
      case Ok(p) =>
        if p !in catalog {
        } else if u !in sessions {
          outcome := Raised(KeyError);
        } else {
          DeleteMessage(u, callbackMessage);
          if delivered {
            var _ := AppendTransient(u, ProductCard(p));
          }
        }
    }

    /** edit_cart (main.py:217-258): with something in the cart, deletes the
        cart message and sends the item picker as one more transient; with a
        missing or empty cart only a notice pops up. */
    method EditCart(u: UserId, callbackMessage: MessageId) returns (picker: Option<MessageId>)
      requires Valid()
      modifies this
      ensures Valid()
      ensures u !in old(sessions) || old(sessions)[u].cart == map[] ==>
        picker == None && sessions == old(sessions) && log == old(log) && nextId == old(nextId)
      ensures u in old(sessions) && old(sessions)[u].cart != map[] ==>
        && picker == Some(old(nextId)) && Appended(old(sessions), sessions, u, old(nextId))
        && log == old(log) + [Deleted(u, callbackMessage), Sent(u, old(nextId), ItemPicker)]
        && nextId == old(nextId) + 1
      ensures dialogue == old(dialogue)
    {
      picker := None;
      if u in sessions && sessions[u].cart != map[] {
        DeleteMessage(u, callbackMessage);
        var id := AppendTransient(u, ItemPicker);
        picker := Some(id);
      }
    }

    /** edit_item (main.py:260-347): the card of a cart line whose product
        resolves. Only when the pressed message has no photo and the product
        has a picture on disk (`freshPhoto`) is the message replaced: deleted,
        and the card sent and kept as one more transient. Otherwise the card
        is edited in place, which the record does not see. Transport errors
        are caught (`delivered` false: the card is not recorded). */
    method EditItem(u: UserId, data: string, callbackMessage: MessageId, catalog: Catalog, freshPhoto: bool, delivered: bool)
      returns (outcome: Outcome)
      requires Valid()
      modifies this
      ensures Valid()
      ensures ItemId(data).Err? ==>
        outcome == Raised(ItemId(data).error) && sessions == old(sessions) && log == old(log)
      ensures ItemId(data).Ok? ==>
        var p := ItemId(data).value;
        var shown := p in catalog && u in old(sessions) && p in old(sessions)[u].cart;
        && outcome == Handled
        && (!shown || !freshPhoto ==> sessions == old(sessions) && log == old(log))
        && (shown && freshPhoto && delivered ==>
              Appended(old(sessions), sessions, u, old(nextId))
              && log == old(log) + [Deleted(u, callbackMessage), Sent(u, old(nextId), ItemCard(p))])
        && (shown && freshPhoto && !delivered ==>
              sessions == old(sessions) && log == old(log) + [Deleted(u, callbackMessage)])
      ensures nextId == old(nextId) +
        (if ItemId(data).Ok? && ItemId(data).value in catalog && u in old(sessions) && ItemId(data).value in old(sessions)[u].cart
            && freshPhoto && delivered then 1 else 0)
      ensures dialogue == old(dialogue)
    {
      outcome := Handled;
      match ItemId(data)
      case Err(e) =>
        outcome := Raised(e);
      case Ok(p) =>
        if p in catalog && u in sessions && p in sessions[u].cart && freshPhoto {
          DeleteMessage(u, callbackMessage);
          if delivered {
            var _ := AppendTransient(u, ItemCard(p));
          }
        }
    }

    // -------------------------------------------------------------------
    // Cart handlers
    // -------------------------------------------------------------------

    /** add_to_cart (main.py:636-650): the product enters at 1 only when it is
        absent. An id that is not an integer raises before anything changes. */
    method AddToCart(u: UserId, data: string) returns (outcome: Outcome)
      requires Valid()
      modifies this
      ensures Valid()
      ensures IdAt(data, 1).Err? ==> outcome == Raised(IdAt(data, 1).error) && sessions == old(sessions)
      ensures IdAt(data, 1).Ok? ==>
        var s := SessionOr(old(sessions), u);
        outcome == Handled && sessions == old(sessions)[u := s.(cart := Add(s.cart, IdAt(data, 1).value))]
      ensures dialogue == old(dialogue) && nextId == old(nextId) && log == old(log)
    {
      match IdAt(data, 1)
      case Err(e) =>
        outcome := Raised(e);
      case Ok(p) =>
        var s := SessionOr(sessions, u);
        sessions := sessions[u := s.(cart := Add(s.cart, p))];
        outcome := Handled;
    }

    /** increase_quantity (main.py:688-703): one more unit, an absent product
        entering at 1. */
    method IncreaseQuantity(u: UserId, data: string) returns (outcome: Outcome)
      requires Valid()
      modifies this
      ensures Valid()
      ensures IdAt(data, 1).Err? ==> outcome == Raised(IdAt(data, 1).error) && sessions == old(sessions)
      ensures IdAt(data, 1).Ok? ==>
        var s := SessionOr(old(sessions), u);
        outcome == Handled && sessions == old(sessions)[u := s.(cart := Increase(s.cart, IdAt(data, 1).value))]
      ensures dialogue == old(dialogue) && nextId == old(nextId) && log == old(log)
    {
      match IdAt(data, 1)
      case Err(e) =>
        outcome := Raised(e);
      case Ok(p) =>
        var s := SessionOr(sessions, u);
        sessions := sessions[u := s.(cart := Increase(s.cart, p))];
        outcome := Handled;
    }

    /** decrease_quantity (main.py:705-720): one unit less, the entry deleted at
        one unit; a user without a record is left without one, and the refresh
        that follows then raises KeyError when the product still resolves. */
    method DecreaseQuantity(u: UserId, data: string, catalog: Catalog) returns (outcome: Outcome)
      requires Valid()
      modifies this
      ensures Valid()
      ensures IdAt(data, 1).Err? ==> outcome == Raised(IdAt(data, 1).error) && sessions == old(sessions)
      ensures IdAt(data, 1).Ok? ==>
        var p := IdAt(data, 1).value;
        && (u in old(sessions) ==> sessions == old(sessions)[u := old(sessions)[u].(cart := Decrease(old(sessions)[u].cart, p))])
        && (u !in old(sessions) ==> sessions == old(sessions))
        && outcome == (if u !in old(sessions) && p in catalog then Raised(KeyError) else Handled)
      ensures dialogue == old(dialogue) && nextId == old(nextId) && log == old(log)
    {
      match IdAt(data, 1)
      case Err(e) =>
        outcome := Raised(e);
      case Ok(p) =>
        if u in sessions {
          var s := sessions[u];
          sessions := sessions[u := s.(cart := Decrease(s.cart, p))];
        }
        outcome := if u !in sessions && p in catalog then Raised(KeyError) else Handled;
    }

    /** increase_product (main.py:393-408): one more unit of a product already
        in the cart; anything else changes nothing. */
    method IncreaseProduct(u: UserId, data: string) returns (outcome: Outcome)
      requires Valid()
      modifies this
      ensures Valid()
      ensures ItemId(data).Err? ==> outcome == Raised(ItemId(data).error) && sessions == old(sessions)
      ensures ItemId(data).Ok? ==>
        var p := ItemId(data).value;
        && outcome == Handled
        && (u in old(sessions) ==> sessions == old(sessions)[u := old(sessions)[u].(cart := IncreaseIfPresent(old(sessions)[u].cart, p))])
        && (u !in old(sessions) ==> sessions == old(sessions))
      ensures dialogue == old(dialogue) && nextId == old(nextId) && log == old(log)
    {
      match ItemId(data)
      case Err(e) =>
        outcome := Raised(e);
      case Ok(p) =>
        if u in sessions {
          var s := sessions[u];
          sessions := sessions[u := s.(cart := IncreaseIfPresent(s.cart, p))];
        }
        outcome := Handled;
    }

    /** decrease_product (main.py:373-391): one unit less of a product in the
        cart; at one unit the entry goes and the handler then calls the
        undefined back_to_edit_cart, raising NameError with the removal done. */
    method DecreaseProduct(u: UserId, data: string) returns (outcome: Outcome)
      requires Valid()
      modifies this
      ensures Valid()
      ensures ItemId(data).Err? ==> outcome == Raised(ItemId(data).error) && sessions == old(sessions)
      ensures ItemId(data).Ok? ==>
        var p := ItemId(data).value;
        && (u in old(sessions) ==> sessions == old(sessions)[u := old(sessions)[u].(cart := Decrease(old(sessions)[u].cart, p))])
        && (u !in old(sessions) ==> sessions == old(sessions))
        && outcome == (if u in old(sessions) && QuantityOf(old(sessions)[u].cart, p) == 1 then Raised(NameError) else Handled)
      ensures dialogue == old(dialogue) && nextId == old(nextId) && log == old(log)
    {
      match ItemId(data)
      case Err(e) =>
        outcome := Raised(e);
      case Ok(p) =>
        outcome := Handled;
        if u in sessions {
          var s := sessions[u];
          if p in s.cart && s.cart[p] <= 1 {
            outcome := Raised(NameError);
          }
          sessions := sessions[u := s.(cart := Decrease(s.cart, p))];
        }
    }

    /** remove_product (main.py:410-427): the entry goes, whatever its quantity,
        and the handler then raises NameError as decrease_product does. */
    method RemoveProduct(u: UserId, data: string) returns (outcome: Outcome)
      requires Valid()
      modifies this
      ensures Valid()
      ensures ItemId(data).Err? ==> outcome == Raised(ItemId(data).error) && sessions == old(sessions)
      ensures ItemId(data).Ok? ==>
        var p := ItemId(data).value;
        && (u in old(sessions) ==> sessions == old(sessions)[u := old(sessions)[u].(cart := Remove(old(sessions)[u].cart, p))])
        && (u !in old(sessions) ==> sessions == old(sessions))
        && outcome == (if u in old(sessions) && p in old(sessions)[u].cart then Raised(NameError) else Handled)
      ensures dialogue == old(dialogue) && nextId == old(nextId) && log == old(log)
    {
      match ItemId(data)
      case Err(e) =>
        outcome := Raised(e);
      case Ok(p) =>
        outcome := Handled;
        if u in sessions {
          var s := sessions[u];
          if p in s.cart {
            outcome := Raised(NameError);
          }
          sessions := sessions[u := s.(cart := Remove(s.cart, p))];
        }
    }

    /** clear_cart (main.py:915-934): the cart of a known user is emptied, then
        show_cart runs on a stand-in message numbered 0, shows "Корзина пуста"
        and leaves that notice as the only transient. */
    method ClearCart(u: UserId, catalog: Catalog) returns (mainId: MessageId)
      requires Valid()
      modifies this
      ensures Valid()
      ensures mainId == old(nextId)
      ensures u in sessions && sessions[u].cart == map[] && sessions[u].otherMessages == [mainId + 1]
      ensures var s := SessionOr(old(sessions), u).(cart := map[]);
        && sessions == old(sessions)[u := Navigated(s, mainId, Some(EmptyCartText))]
        && log == old(log) + NavigationEvents(u, s, mainId, MainMenuTitle, Some(0), Some(EmptyCartText))
      ensures nextId == old(nextId) + 2
      ensures dialogue == old(dialogue)
    {
      if u in sessions {
        sessions := sessions[u := sessions[u].(cart := map[])];
      }
      mainId := ShowCart(u, 0, catalog);
    }

    // -------------------------------------------------------------------
    // The checkout dialogue
    // -------------------------------------------------------------------

    /** checkout (main.py:765-803): with something in the cart it sends the
        order summary and moves to manual phone entry, from whatever state the
        user was in; with a missing or empty cart nothing changes. */
    method Checkout(u: UserId, catalog: Catalog)
      requires Valid()
      modifies this
      ensures Valid()
      ensures var empty := u !in old(sessions) || old(sessions)[u].cart == map[];
        && StateOf(u) == AfterCheckout(old(StateOf(u)), empty)
        && (empty ==> dialogue == old(dialogue) && log == old(log) && nextId == old(nextId))
        && (!empty ==>
              && dialogue == old(dialogue)[u := WaitingPhoneManual]
              && log == old(log) + [Sent(u, old(nextId), OrderText(Total(old(sessions)[u].cart, catalog)))]
              && nextId == old(nextId) + 1)
      ensures sessions == old(sessions)
    {
      if u !in sessions || sessions[u].cart == map[] {
        return;
      }
      var total := ComputeTotal(sessions[u].cart, catalog);
      var _ := SendMessage(u, OrderText(total));
      dialogue := dialogue[u := WaitingPhoneManual];
      forall v | v in sessions
        ensures SessionOk(sessions[v], nextId)
      {
        SessionOkGrow(old(sessions)[v], old(nextId), nextId);
      }
    }

    /** What process_manual_phone does to the user's session, the dialogue
        state and the transport (see ProcessManualPhone). */
    twostate predicate PhoneAnswered(u: UserId, m: Incoming, incoming: MessageId, outcome: Outcome)
      reads this
    {
      && u in old(sessions)
      && (m == Text(BackToMenu) ==>
        && outcome == Handled && dialogue == old(dialogue) - {u}
        && sessions == old(sessions)[u := Navigated(old(sessions)[u], old(nextId), None)]
        && log == old(log) + NavigationEvents(u, old(sessions)[u], old(nextId), MainMenuTitle, Some(incoming), None)
        && nextId == old(nextId) + 1)
      && (m.Text? && m.text != BackToMenu && PhoneValid(m.text) ==>
        && outcome == Handled && dialogue == old(dialogue)[u := WaitingAddress]
        && sessions == old(sessions)[u := old(sessions)[u].(phone := Some(m.text))]
        && log == old(log) + [Sent(u, old(nextId), AddressRequest)] && nextId == old(nextId) + 1)
      && (m.Text? && m.text != BackToMenu && !PhoneValid(m.text) ==>
        && outcome == Handled && dialogue == old(dialogue) && sessions == old(sessions)
        && log == old(log) + [Sent(u, old(nextId), PhoneRePrompt)] && nextId == old(nextId) + 1)
      && (!m.Text? ==>
        && outcome == Raised(AttributeError) && dialogue == old(dialogue) && sessions == old(sessions)
        && log == old(log) && nextId == old(nextId))
    }

    /** What process_address does to the user's session, the dialogue state
        and the transport (see ProcessAddress). */
    twostate predicate AddressAnswered(u: UserId, m: Incoming, incoming: MessageId, catalog: Catalog, delivered: bool, outcome: Outcome)
      reads this
    {
      && u in old(sessions)
      && (m == Text(BackToMenu) ==>
        && outcome == Handled && dialogue == old(dialogue) - {u}
        && sessions == old(sessions)[u := Navigated(old(sessions)[u], old(nextId), None)]
        && log == old(log) + NavigationEvents(u, old(sessions)[u], old(nextId), MainMenuTitle, Some(incoming), None)
        && nextId == old(nextId) + 1)
      && (m != Text(BackToMenu) ==>
        var s := old(sessions)[u];
        && sessions == old(sessions)[u := s.(address := TextOf(m), cart := map[])]
        && (delivered ==> outcome == Handled && dialogue == old(dialogue) - {u}
                          && log == old(log) + [Sent(u, old(nextId), OrderAccepted(Total(s.cart, catalog), s.phone, TextOf(m)))]
                          && nextId == old(nextId) + 1)
        && (!delivered ==> outcome == Raised(TelegramAPIError) && dialogue == old(dialogue) && log == old(log)
                           && nextId == old(nextId)))
    }

    /** process_manual_phone (main.py:805-838), reached in
        waiting_for_phone_manual. The escape text clears the state and returns
        to the main menu; an accepted phone is stored and the state moves to
        waiting_for_address; a rejected one re-prompts and changes nothing else;
        a message without text raises AttributeError before anything changes. */
    method ProcessManualPhone(u: UserId, m: Incoming, incoming: MessageId) returns (outcome: Outcome)
      requires Valid() && StateOf(u) == WaitingPhoneManual
      modifies this
      ensures Valid()
      ensures StateOf(u) == AfterPhone(m)
      ensures PhoneAnswered(u, m, incoming, outcome)
    {
      match m
      case Text(t) =>
        if t == BackToMenu {
          dialogue := dialogue - {u};
          var _ := BackToMainMenu(u, incoming);
        } else if !PhoneValid(t) {
          var _ := SendMessage(u, PhoneRePrompt);
          forall v | v in sessions
            ensures SessionOk(sessions[v], nextId)
          {
            SessionOkGrow(old(sessions)[v], old(nextId), nextId);
          }
        } else {
          sessions := sessions[u := sessions[u].(phone := Some(t))];
          var _ := SendMessage(u, AddressRequest);
          dialogue := dialogue[u := WaitingAddress];
          forall v | v in sessions
            ensures SessionOk(sessions[v], nextId)
          {
            SessionOkGrow(old(sessions)[v], old(nextId), nextId);
          }
        }
        outcome := Handled;
      case _ =>
        outcome := Raised(AttributeError);
    }

    /** process_address (main.py:861-903), reached in waiting_for_address. The
        escape text clears the state and returns to the main menu. Anything
        else is stored as the address (`None` for a message without text), the
        total is taken, the cart is emptied, the confirmation is sent, and only
        then is the state cleared: when the send fails (`delivered` false) the
        cart is already empty and the state stays. */
    method ProcessAddress(u: UserId, m: Incoming, incoming: MessageId, catalog: Catalog, delivered: bool)
      returns (outcome: Outcome)
      requires Valid() && StateOf(u) == WaitingAddress
      modifies this
      ensures Valid()
      ensures AddressAnswered(u, m, incoming, catalog, delivered, outcome)
    {
      if m == Text(BackToMenu) {
        dialogue := dialogue - {u};
        var _ := BackToMainMenu(u, incoming);
        outcome := Handled;
        return;
      }
      var s := sessions[u];
      var address := TextOf(m);
      var total := ComputeTotal(s.cart, catalog);
      sessions := sessions[u := s.(address := address, cart := map[])];
      if delivered {
        var _ := SendMessage(u, OrderAccepted(total, s.phone, address));
        dialogue := dialogue - {u};
        outcome := Handled;
      } else {
        outcome := Raised(TelegramAPIError);
      }
      forall v | v in sessions
        ensures SessionOk(sessions[v], nextId)
      {
        SessionOkGrow(old(sessions)[v], old(nextId), nextId);
      }
    }

    // -------------------------------------------------------------------
    // The dispatcher
    // -------------------------------------------------------------------

    /** The title a navigation handler puts on the main message. */
    function MenuTitle(handler: MessageHandler): string {
      if handler == StartCommand then StartGreeting else MainMenuTitle
    }

    /** The transient a navigation handler sends under the main message: the
        screen's text for the four info buttons, the cart summary for
        "Корзина", none for `/start` and the escape text. */
    ghost function MenuContent(handler: MessageHandler, c: Cart, catalog: Catalog): Option<Content> {
      match handler
      case CatalogMenu => Some(ScreenContent(CatalogScreen))
      case DeliveryMenu => Some(ScreenContent(DeliveryScreen))
      case CallMenu => Some(ScreenContent(CallScreen))
      case ChatMenu => Some(ScreenContent(ChatScreen))
      case CartMenu => Some(CartContent(c, catalog))
      case _ => None
    }

    /** What a navigation handler does: the dialogue state stays; a handled
        text refreshes the screen with the handler's title and transient, and
        an unhandled one changes nothing. */
    twostate predicate MenuAnswered(u: UserId, handler: MessageHandler, incoming: MessageId, catalog: Catalog)
      reads this
    {
      && dialogue == old(dialogue)
      && (handler == Unhandled ==> sessions == old(sessions) && log == old(log) && nextId == old(nextId))
      && (handler != Unhandled ==>
        var s := SessionOr(old(sessions), u);
        var c := MenuContent(handler, s.cart, catalog);
        && sessions == old(sessions)[u := Navigated(s, old(nextId), c)]
        && log == old(log) + NavigationEvents(u, s, old(nextId), MenuTitle(handler), Some(incoming), c)
        && nextId == old(nextId) + (if c.Some? then 2 else 1))
    }

    /** The handlers of `/start`, the menu texts and the escape text: each
        refreshes the screen and leaves the dialogue state as it was, so a
        menu text pressed mid-checkout keeps the dialogue waiting. */
    method MenuHandler(u: UserId, handler: MessageHandler, incoming: MessageId, catalog: Catalog)
      requires Valid() && handler != ManualPhone && handler != Address
      modifies this
      ensures Valid()
      ensures MenuAnswered(u, handler, incoming, catalog)
    {
      match handler
      case StartCommand =>
        var _ := Start(u, incoming);
      case CatalogMenu =>
        var _ := ShowScreen(u, incoming, CatalogScreen);
      case DeliveryMenu =>
        var _ := ShowScreen(u, incoming, DeliveryScreen);
      case CallMenu =>
        var _ := ShowScreen(u, incoming, CallScreen);
      case ChatMenu =>
        var _ := ShowScreen(u, incoming, ChatScreen);
      case CartMenu =>
        var _ := ShowCart(u, incoming, catalog);
      case MainMenu =>
        var _ := BackToMainMenu(u, incoming);
      case Unhandled =>
    }

    /** A message from user `u`: the dispatcher runs the first matching handler
        (Checkout.Route) and the dialogue state moves as Checkout.AfterMessage
        says whenever the sends succeed. */
    method OnMessage(u: UserId, m: Incoming, incoming: MessageId, catalog: Catalog, delivered: bool)
      returns (handler: MessageHandler, outcome: Outcome)
      requires Valid()
      modifies this
      ensures Valid()
      ensures handler == Route(m, old(StateOf(u)))
      ensures delivered ==> StateOf(u) == AfterMessage(old(StateOf(u)), m)
      ensures handler != ManualPhone && handler != Address ==> outcome == Handled && MenuAnswered(u, handler, incoming, catalog)
      ensures handler == ManualPhone ==> PhoneAnswered(u, m, incoming, outcome)
      ensures handler == Address ==> AddressAnswered(u, m, incoming, catalog, delivered, outcome)
    {
      handler := Route(m, StateOf(u));
      outcome := Handled;
      if handler == ManualPhone {
        outcome := ProcessManualPhone(u, m, incoming);
      } else if handler == Address {
        outcome := ProcessAddress(u, m, incoming, catalog, delivered);
      } else {
        MenuHandler(u, handler, incoming, catalog);
      }
    }
  }
}
