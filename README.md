# Telegram shop bot: sessions, cart, checkout and admin dialogues

A Dafny model of the per-user bookkeeping of a Telegram shop bot (`main.py`)
and of the deterministic parts of its admin panel (`admin.py`).

The shop side keeps one record per user in the global `user_data`
dictionary. The record holds:

- the id of the "main" message with the reply keyboard;
- the transient messages shown under it;
- the cart, a dictionary from product id to quantity;
- the phone and address collected during checkout.

Button handlers change the cart. The navigation handlers replace the main
message, delete the transients and record the message they send. A
two-step FSM dialogue asks for a phone and then an address, and ends by
emptying the cart.

The admin side has these parts:

- paged lists with a navigation row;
- callback data that encodes ids and page numbers;
- the `AdminStates` dialogues that add and rename categories, and that add
  and edit products;
- the file name a product photo is saved under.

Files, one module each (Wrappers and Messages share one file):

| file | module | what it holds |
|---|---|---|
| `wrappers.dfy` | `Wrappers`, `Messages` | `Option`, `Result`, the exceptions handlers raise, the incoming chat message |
| `pystr.dfy` | `PyStr` | the Python string behaviour the bot relies on: `split`, `strip`, `lower`, `isalnum`, `replace`, `int(text)`, `str(n)` |
| `cart.dfy` | `Carts` | the cart buttons as functions on a map, and the order total |
| `checkout.dfy` | `Checkout` | the phone check, which message handler runs, how the checkout state moves |
| `sessions.dfy` | `Sessions` | the per-user record, the transport events of the message lifecycle, the shop's callback data |
| `bot.dfy` | `Bot` | class `Shop`: `user_data`, the FSM states, the transport's message numbering and a ghost log of transport calls; one method per handler |
| `pagination.dfy` | `Pagination` | page arithmetic, Python slicing, `build_pagination_keyboard`, the page numbers in admin callback data |
| `admin.dfy` | `Admin` | `AdminStates`, the form data, the store writes, the photo file name, class `AdminPanel` with one method per admin handler |

How the outside world enters the model:

- **Catalog store.** `database.py` becomes a map from product id to price
  and category (`Carts.Catalog`). A set of ids (`products`) is used where
  the admin handlers only ask whether a product exists.
- **Transport.** Every send and every delete is an event in `Shop.log`.
  Sends get consecutive ids from `Shop.nextId`. Deletes are recorded when
  issued; their failure is swallowed by the code, and so it is not modelled.
- **Failures.** When the code's behaviour depends on whether a send
  succeeds, the outcome is a boolean parameter: `delivered`. So is whether
  a photo download succeeds: `saved`.
- **Admin check.** Whether the user is the admin (`is_admin`, which reads
  `ADMIN_ID` from a configuration module that is not part of this model)
  is a parameter: `isAdmin`.

### Where the code and its documentation differ (the model follows the code)

- **Phone check.** The documentation says a leading `+` is stripped. The
  code (main.py:816) removes every `+` wherever it stands.
- **Phone choice.** The documentation has a phone-choice step before manual
  entry. `waiting_for_phone_choice` is declared but never set, and
  `checkout` goes straight to manual entry (main.py:802).
- **Order of the main message.** The documentation says an old transient
  is deleted before the new main message is sent. Every navigation handler
  calls `update_main_message` before `clean_other_messages`, so the new
  main message is sent first. `Sessions.NavigationOrder` states the actual
  order.
- **Failed confirmation.** The documentation says a failed order
  confirmation leaves the state reset. `state.clear()` comes after the send
  (main.py:897-904), so a failed send leaves the cart empty and the state
  still `waiting_for_address`.
- **Edit-product handlers.** These pass keyword subsets, such as
  `update_product(product_id, name=…)`. The function takes `name`, `price`
  and `image_url` as required positional parameters (database.py:193), so
  each call raises TypeError before `state.clear()`. The edit dialogues
  therefore never finish.
- **Cart editor.** `decrease_product` and `remove_product` call
  `back_to_edit_cart`, which is not defined anywhere: NameError after the
  cart change.
- **Admin panel registration.** `setup_admin_handlers` is never called by
  `main.py`. The admin dialogues are modelled on their own, with their
  handlers in their own registration order.

## Model

| member | source | states |
|---|---|---|
| Messages.TextOf | admin.py:226 | `message.text` is present exactly for text messages, and is their text |
| Messages.CommandText | main.py:88 | what a command filter reads, `message.text or message.caption`: a text message's text, or a photo's or other media's caption, and never an empty one |
| PyStr.Lower | admin.py:450 | `lower()` lowers each character in place, with the length kept |
| PyStr.RemoveAll | main.py:816 | `replace('+', '')` keeps exactly the other characters, and its length drops by the number of '+' |
| PyStr.Split | admin.py:256 | `split('_')` gives one more part than there are separators, and no part holds one |
| PyStr.JoinSplit | admin.py:256 | joining the parts of a split gives the string back |
| PyStr.Strip | admin.py:226 | `strip()` leaves no whitespace at either end |
| PyStr.StripMeans | admin.py:226 | `strip()` keeps the contiguous middle of the text from where `lstrip()` cuts; everything dropped at either end is whitespace |
| PyStr.StripUnpadded | admin.py:435 | a text without surrounding whitespace is its own strip |
| PyStr.IntRoundTrip | main.py:640 | `int(str(n)) == n` for every integer, negative ones included |
| Carts.Add | main.py:648-650 | the product enters at 1 only when absent; a present product keeps its quantity; no other entry changes; positive quantities stay positive |
| Carts.Increase | main.py:698-699 | the new quantity is the old one (0 when absent) plus 1; no other entry changes |
| Carts.IncreaseIfPresent | main.py:404-406 | one more unit only of a product in the cart; the keys never change |
| Carts.Decrease | main.py:711-716 | above 1 the quantity drops by exactly 1; at 1 the key is deleted; an absent product is a no-op; no other entry changes; no entry is ever 0 |
| Carts.Remove | main.py:421-423 | exactly that key goes; every other entry stays |
| Carts.AddTwice | main.py:649-650 | a second "add" changes nothing, so the quantity after two adds of a new product is 1 |
| Carts.DecreaseUndoesIncrease | main.py:711-716 | "-" after "+" gives the cart back |
| Carts.IncreaseUndoesDecrease | main.py:698-699 | "+" after "-" on a product in the cart gives the cart back |
| Carts.DecreaseLastIsRemove | main.py:382-388 | "-" on the last unit is the same as "remove" |
| Carts.RunIsCounter | main.py:686-720 | after any run of "+" and "-" presses the quantities stay positive, the product's quantity is a counter that saturates at 0, and no other entry changes |
| Carts.Resolved | main.py:194-195 | the resolved entries are the cart's entries whose product the catalog still has, with their quantities |
| Carts.TotalIgnoresUnresolved | main.py:193-198 | the total equals the total of the resolved entries alone |
| Carts.TotalUnaffectedByStale | main.py:194-195 | entries whose product no longer resolves add nothing to the total |
| Carts.TotalEmpty | main.py:191 | an empty cart totals 0 |
| Carts.TotalIncrease | main.py:699 | after "+" the total grows by the current unit price (0 for an unresolved product) |
| Carts.TotalAdd | main.py:649-650 | after "add" the total grows by one unit price for a new product, and is unchanged otherwise |
| Carts.TotalRemove | main.py:423 | after "remove" the total drops by that line |
| Carts.TotalDecrease | main.py:714-716 | after "-" on a product in the cart the total drops by one unit price |
| Carts.TotalExample | main.py:193-198 | two units at 100 and one at 50 total 250 |
| Carts.ComputeTotal | main.py:193-198 | the `for … in cart.items()` loop returns the total, whatever order the dictionary is walked in |
| Checkout.PhoneValidMeans | main.py:816 | a phone is accepted exactly when it holds only '+' and ASCII digits and at least ten digits |
| Checkout.PhoneExampleAccepted | main.py:785 | the example of the prompt, "+79991234567", is accepted |
| Checkout.PhoneExamplesRejected | main.py:816 | "12345" and "+7 999 123 45 67" are rejected |
| Checkout.Route | main.py:88-863 | `cmd_start` runs exactly for a message whose text, or photo caption, is `/start`; the phone handler runs exactly in `waiting_for_phone_manual` and the address handler exactly in `waiting_for_address`, unless the message is `/start` or a menu text, whose handlers are registered first |
| Checkout.MenuPreemptsDialogue | main.py:98-175 | a menu text pressed mid-checkout never reaches a dialogue handler |
| Checkout.NotStartCommand | main.py:88 | a text starting with neither whitespace nor '/' is not `/start` |
| Checkout.CaptionedStart | main.py:88 | a photo reaches `cmd_start`, in any state, exactly when its caption is `/start`, and then the phone handler does not see it |
| Checkout.EscapeRoute | main.py:905-906 | "Вернуться в главное меню" reaches its own handler in no state and the dialogue handler in a waiting state |
| Checkout.AfterCheckout | main.py:771-802 | the checkout button leaves the state alone for an empty cart and sets `waiting_for_phone_manual` otherwise |
| Checkout.IdleStaysIdle | main.py:802 | no message leaves "no state": only the checkout button starts the dialogue |
| Checkout.PhoneStep | main.py:816-838 | the phone step moves to `waiting_for_address` exactly for an accepted phone that is not a command or menu text |
| Checkout.RejectedPhoneKeepsWaiting | main.py:816-818 | a rejected phone, or a message without text, keeps `waiting_for_phone_manual` |
| Checkout.EscapeClears | main.py:808-810 | the escape text clears either waiting state |
| Checkout.NoSkippedStep | main.py:838 | "no state" is never left by a message, and the address step never goes back to the phone step |
| Sessions.MainRefresh | main.py:57-68 | a delete of the old main message exactly when one is set, then the send of the new one |
| Sessions.DeleteEach | main.py:74-79 | one delete per stored transient id, in order |
| Sessions.NavigationOrder | main.py:104-122 | a navigation handler deletes the old main message, sends the new one, deletes the old transients, deletes the user's message, and sends the new transient last; every message it deletes is older than the new main message |
| Sessions.NavigatedOk | main.py:104-122 | after a navigation handler `other_messages` is exactly [new message id], or empty when it sends none; the cart, phone and address are untouched |
| Sessions.IdAt | main.py:640 | `int(data.split("_")[k])` fails only with IndexError or ValueError |
| Sessions.ItemId | main.py:263-266 | the `*_item_` id: the third part, or the second when there is no third; fails only with IndexError or ValueError |
| Sessions.IdAtRoundTrip | main.py:636-640 | an `add_` style button hands back its product id |
| Sessions.ItemIdRoundTrip | main.py:298-300 | a `dec_item_`, `inc_item_` or `del_item_` button hands back its product id |
| Sessions.AddButtonRoute | main.py:636 | `add_…` data reaches add_to_cart, whatever follows the prefix |
| Sessions.IncreaseButtonRoute | main.py:686 | `increase_…` data reaches increase_quantity |
| Sessions.DecreaseButtonRoute | main.py:705 | `decrease_…` data reaches decrease_quantity, not the cart editor's handler |
| Sessions.DecItemButtonRoute | main.py:372 | `dec_item_…` data reaches decrease_product |
| Sessions.IncItemButtonRoute | main.py:394 | `inc_item_…` data reaches increase_product |
| Sessions.DelItemButtonRoute | main.py:411 | `del_item_…` data reaches remove_product |
| Bot.ProductsIn | main.py:502 | a category lists exactly the products of that category |
| Bot.Shop.SendMessage | main.py:63-67 | a send logs one event and takes the next message id |
| Sessions.SentInOrderMeans | main.py:63-68 | the ids the transport sends are distinct, increase along the log and stay below the next id |
| Bot.Shop.SentIdsFresh | main.py:63-68 | in every reachable state no message id the transport will hand out has been sent already |
| Bot.Shop.DeleteMessage | main.py:81-86 | a delete logs one event and changes no record |
| Bot.Shop.UpdateMainMessage | main.py:52-69 | creates the record on first use, deletes the old main message when set, sends and records the new one, and changes nothing else |
| Bot.Shop.CleanOtherMessages | main.py:71-79 | deletes each stored transient and leaves the list empty |
| Bot.Shop.AppendTransient | main.py:117-122 | sends a message and appends its id to the user's transients |
| Bot.Shop.RefreshScreen | main.py:104-106 | refresh, clean, then delete the user's message, with exactly those events in that order |
| Bot.Shop.Navigate | main.py:104-122 | the whole navigation body: the record becomes Navigated and the log grows by NavigationEvents |
| Bot.Shop.Start | main.py:88-96 | /start refreshes with the greeting and leaves no transient |
| Bot.Shop.ShowScreen | main.py:98-172 | each menu screen leaves its own message as the only transient |
| Bot.Shop.BackToMainMenu | main.py:905-913 | the escape refreshes the menu and leaves no transient |
| Bot.Shop.ShowCart | main.py:174-215 | "Корзина пуста" for an empty cart, otherwise the summary with the total; the one message is the only transient |
| Bot.Shop.ShowCategoryProducts | main.py:490-526 | the product list of the category as the only transient, or no transient for an empty category |
| Bot.Shop.ReturnToCategories | main.py:528-552 | the category list as the only transient |
| Bot.Shop.BackToCartFromEdit | main.py:349-370 | deletes the editor message, then shows the cart for a stand-in message numbered 0 |
| Bot.Shop.ShowProduct | main.py:554-608 | a resolving product's card becomes one more transient after the pressed message is deleted; a user without a record raises KeyError |
| Bot.Shop.EditCart | main.py:217-258 | with a non-empty cart: deletes the cart message and appends the item picker; otherwise nothing changes |
| Bot.Shop.EditItem | main.py:260-347 | a cart line's card is appended only when the message is replaced by a photo card; in-place edits change no record |
| Bot.Shop.AddToCart | main.py:636-652 | the cart becomes Add(cart, id); a bad id raises before anything changes |
| Bot.Shop.IncreaseQuantity | main.py:686-703 | the cart becomes Increase(cart, id), creating the record when missing |
| Bot.Shop.DecreaseQuantity | main.py:705-730 | the cart becomes Decrease(cart, id); a user without a record raises KeyError when the product resolves |
| Bot.Shop.IncreaseProduct | main.py:394-409 | the cart becomes IncreaseIfPresent(cart, id) |
| Bot.Shop.DecreaseProduct | main.py:372-392 | the cart becomes Decrease(cart, id) and NameError follows exactly when the last unit went |
| Bot.Shop.RemoveProduct | main.py:411-427 | the cart becomes Remove(cart, id) and NameError follows exactly when the product was there |
| Bot.Shop.ClearCart | main.py:915-934 | a known user's cart is empty, and "Корзина пуста" is the only transient |
| Bot.Shop.Checkout | main.py:765-803 | with a non-empty cart it sends the summary with the total and sets `waiting_for_phone_manual`; otherwise nothing changes |
| Bot.Shop.ProcessManualPhone | main.py:805-838 | escape: clear and go to the menu; accepted phone: stored, `waiting_for_address`; rejected: re-prompt only; no text: AttributeError, nothing changed |
| Bot.Shop.ProcessAddress | main.py:862-904 | escape: clear and go to the menu; otherwise the address is stored, the cart emptied, the confirmation carries the total, phone and address, and the state clears only if it was sent |
| Bot.Shop.MenuHandler | main.py:88-913 | `/start`, the menu texts and the escape text leave the dialogue state as it was, mid-checkout included; each refreshes the screen with its own title (the greeting for `/start`) and its own transient (the screen's text, the cart summary, or none); an unhandled message changes nothing |
| Bot.Shop.OnMessage | main.py:88-913 | the handler that runs is Route's, and the state moves as AfterMessage says when the sends succeed; the sessions, the dialogue state and the transport log end as the handler that ran leaves them (MenuHandler's, ProcessManualPhone's or ProcessAddress's effect) |
| Pagination.TotalPages | admin.py:268 | `ceil(n/5)`: 0 for no items, otherwise the least t with n <= 5t |
| Pagination.ClampPage | admin.py:269-270 | the page shown is the lesser of the request and the last page: a page at or past the last becomes the last, lower pages, negative ones included, stay |
| Pagination.SliceBound | admin.py:272-274 | a slice bound counts from the end when negative and is kept within [0, n] |
| Pagination.WindowAtMostFive | admin.py:272-274 | the shown slice holds at most five items of the list |
| Pagination.WindowInRange | admin.py:499-501 | a page in range shows items [5·page, 5·page+5) cut at the end of the list, and at least one |
| Pagination.ClampedPageShowsSomething | admin.py:495-501 | for a non-empty list and a non-negative request, the page shown exists and is not empty |
| Pagination.PageMinusOneIsEmpty | admin.py:269-274 | page -1 is not clamped and shows nothing |
| Pagination.PageMinusTwoOfTen | admin.py:272-274 | page -2 of ten items shows the first five |
| Pagination.PagesCoverItems | admin.py:272-274 | the pages in order show every item once, in order |
| Pagination.ParsePageRoundTrip | admin.py:255-256 | the page in `f"{prefix}{page}"` is read back |
| Pagination.ParsePageDefault | admin.py:255-258 | a suffix that is not an integer gives page 0 |
| Pagination.BuildPaginationKeyboard | admin.py:146-170 | a back button to page-1 exactly when page > 0, always the label "page+1/total", a forward button to page+1 exactly when page < total-1, in that order |
| Pagination.LabelIsNotArrow | admin.py:156-159 | the page label is never taken for an arrow |
| Pagination.ArrowTargets | admin.py:281-283 | the arrows of both lists lead to the neighbouring pages |
| Pagination.ShownPage | admin.py:255-270 | the page shown is at most the last one, and not negative for a non-negative request |
| Pagination.ParseCategoryAction | admin.py:315-317 | only ValueError can be raised, and the category id read holds no underscore |
| Pagination.ParseProductAction | admin.py:544-546 | only ValueError can be raised |
| Pagination.CategoryButtonRoundTrip | admin.py:290 | a category button hands back its id and page when the id has no underscore |
| Pagination.UnderscoreCategoryRaises | admin.py:315-317 | a category id with an underscore makes its own button raise ValueError |
| Pagination.ProductButtonRoundTrip | admin.py:517 | a product button hands back its id and page |
| Pagination.ProductButtonWithoutPage | admin.py:607 | the edit menu's "Назад" button carries no page and lands on page 0 |
| Admin.IsNoMeans | admin.py:450 | "нет" is accepted in any mix of letter cases, and nothing else is |
| Admin.EditCategoryTarget | admin.py:337 | `split("_")[3]` is the first word after the prefix |
| Admin.AddProductTarget | admin.py:419 | `split("_")[4]` is the first word after the prefix |
| Admin.EditProductTarget | admin.py:579 | the id is the first word after the prefix read as an integer, and ValueError when it is not one |
| Admin.SetCategoryTarget | admin.py:732 | `split("_")[3]` is the first word after the prefix |
| Admin.EditCategoryButton | admin.py:108 | the edit button hands back an id without underscores, and only the first word of any other id |
| Admin.AddProductButton | admin.py:404 | the same for the add-product category buttons |
| Admin.EditProductButton | admin.py:125 | the product edit button hands back its id |
| Admin.AlnumOnly | admin.py:454 | the filename base holds only alphanumeric characters and is no longer than the name |
| Admin.AlnumOnlyConcat | admin.py:454 | the filter works piece by piece, so it keeps the order of the name |
| Admin.AlnumOnlyCount | admin.py:454 | every occurrence of an alphanumeric character is kept, and nothing else |
| Admin.AlnumOnlyKeeps | admin.py:454 | an alphanumeric name is kept whole |
| Admin.ExtensionAfterLastDot | admin.py:62 | the extension is what follows the last dot |
| Admin.ExtensionWithoutDot | admin.py:62 | a path without a dot is its own extension |
| Admin.SavedFileNameShape | admin.py:62-69 | the saved name is the filtered base, one dot, then the photo's extension |
| Admin.NewProductImage | admin.py:448-461 | "нет" in any case gives ""; a stored photo gives the saved file name; anything else gives no picture |
| Admin.AddProductInOrder | admin.py:425-474 | each add-product step moves at most one step on and never back |
| Admin.PriceStep | admin.py:434-440 | the price step moves on exactly for an integer answer in ASCII digits |
| Admin.IntegerPriceAccepted | admin.py:435 | every integer, negative ones included, is accepted as a price |
| Admin.CaptionedAdminCommand | admin.py:172 | a photo captioned `/admin` goes to the command handler in every state, so at the picture step it is not stored and the dialogue stays |
| Admin.ImageStep | admin.py:450-474 | the picture step ends exactly on "нет" or a stored photo |
| Admin.EditDialoguesStay | admin.py:623-706 | the edit-name and edit-price states are never left by a message, and edit-picture only for a product that is gone |
| Admin.NoStateStays | admin.py:224-232 | no message starts an admin dialogue |
| Admin.MenuPreemptsDialogue | admin.py:183-211 | each of the three admin menu texts, whose handlers are registered before the dialogues, leaves every dialogue state as it was |
| Admin.AnswerEffect | admin.py:224-706 | the full effect of a state handler on one message: a write happens only on a dialogue's last step, which clears the state and form; a raised error changes nothing; a message no handler takes changes nothing |
| Admin.MessageEffect | admin.py:172-211 | the command (text or caption) and the admin menu texts leave the form, state and store alone; any other message has the handler's effect |
| Admin.EffectFollowsStateMachine | admin.py:224-706 | the state of the full effect is the state Answer and NextState give |
| Admin.EffectWriteComplete | admin.py:231-474 | when the form holds what the earlier steps stored, every write gets all of its arguments |
| Admin.FieldState | admin.py:617-661 | the three edit buttons set the three edit states |
| Admin.AdminPanel.PressAddCategory | admin.py:213-222 | the admin moves to `waiting_for_category_id`; anyone else changes nothing |
| Admin.AdminPanel.ProcessCategoryId | admin.py:224-229 | the stripped id is stored and `waiting_for_category_name` follows; no text raises and changes nothing |
| Admin.AdminPanel.ProcessCategoryName | admin.py:231-248 | the category is added with the stored id and the stripped name, and the state clears |
| Admin.AdminPanel.PressEditCategory | admin.py:332-341 | the id from the button is stored and `waiting_for_new_category_name` follows |
| Admin.AdminPanel.ProcessNewCategoryName | admin.py:343-360 | the category is renamed and the state clears |
| Admin.AdminPanel.SelectCategoryForProduct | admin.py:414-423 | the category from the button is stored and `waiting_for_product_name` follows |
| Admin.AdminPanel.ProcessProductName | admin.py:425-430 | the stripped name is stored and `waiting_for_product_price` follows |
| Admin.AdminPanel.ProcessProductPrice | admin.py:432-440 | an integer is stored and `waiting_for_product_image` follows; anything else re-prompts; no text raises |
| Admin.AdminPanel.ProcessProductImage | admin.py:442-474 | with a picture the product is added with the stored fields and the state clears; otherwise nothing changes |
| Admin.AdminPanel.PressEditProduct | admin.py:574-615 | an existing product's id is stored; a non-integer id raises ValueError |
| Admin.AdminPanel.PressEditField | admin.py:617-662 | the field's edit state is set, for anyone |
| Admin.AdminPanel.PressEditCategoryField | admin.py:708-728 | `waiting_for_edit_product_category` is set when the store has categories |
| Admin.AdminPanel.ProcessEditProductName | admin.py:623-633 | the `update_product` call raises TypeError |
| Admin.AdminPanel.ProcessEditProductPrice | admin.py:641-656 | a non-integer re-prompts; an integer, or no text, raises TypeError |
| Admin.AdminPanel.ProcessEditProductImage | admin.py:664-706 | a product that is gone clears the state; "нет" or a stored photo raise TypeError; anything else re-prompts |
| Admin.AdminPanel.SetProductCategory | admin.py:730-742 | the first word after the prefix is the new category, and the call raises TypeError |
| Admin.AdminPanel.OnMessage | admin.py:172-706 | a message leaves the state NextState says, and the form, the outcome and the store writes MessageEffect says; a message left to the command or menu handlers changes nothing; at most one store write is added |
| Admin.AdminPanel.AnswerMessage | admin.py:224-706 | a message reaching a state handler leaves the state Answer says, and the form, the outcome and the store writes AnswerEffect says |
| Admin.AdminPanel.OnCategoryMessage | admin.py:224-360 | the same for the category dialogues: state, form, outcome and store writes as AnswerEffect says |
| Admin.AdminPanel.OnProductMessage | admin.py:425-474 | the same for the add-product dialogue: state, form, outcome and store writes as AnswerEffect says |
| Admin.AdminPanel.OnEditMessage | admin.py:623-706 | the same for the edit dialogues, which write nothing: state, form and outcome as AnswerEffect says |

## Left out

- The SQLite store (`database.py`) is the `Catalog` map or the `products`
  set. The category and product writes are recorded as `StoreWrite` values
  whatever their result, since the handlers clear the state either way.
  Deletes of categories and products are not modelled.
- The file system: the download, `os.path.exists` and `os.remove`. Whether
  a photo is stored is the parameter `saved`; whether a product picture
  exists on disk is `freshPhoto`.
- The chat transport beyond sends and deletes: message edits, photos and
  captions (`edit_text`, `edit_caption`), `callback.answer` pop-ups,
  keyboard layout and message texts. Message contents appear only as
  `Content` values.
- Concurrency: handlers run one after another, each as one atomic step.
  Lost updates from double taps are not modelled.
- `is_admin` and `ADMIN_ID`: the `isAdmin` parameter.
- Admin list rendering: `admin_list_categories_callback`,
  `admin_list_products_callback` and `admin_product_actions` are modelled
  only through their page computation and callback parsing, in
  `Pagination`. `admin_category_actions` and `admin_product_actions` look
  the item up and render it; that part is not modelled.
- `admin_delete_category` and `admin_delete_product`: store deletes and
  file removal, both outside the model.
- `admin_add_product_callback`, `cmd_admin`, `admin_exit`,
  `admin_categories`, `admin_products` and `admin_back_to_main` only send
  menus. The model keeps just the fact that the command and the menu texts
  take precedence over the dialogues (`Admin.Preempted`).
- `update_product_message`, `refresh_cart_message` (never called) and
  `edit_item`'s text: rendering only. The total loop they share is
  `Carts.ComputeTotal`.
- `edit_item` as called from `decrease_product` and `increase_product` is
  not composed with those handlers. Their record changes are modelled; the
  card refresh is not.
- `save_phone_and_request_address` is never called.
- `waiting_for_phone_choice` is never set.
- `user_data[user_id] = {}` (main.py:822-823, 876-877) creates a record
  without a cart. It can only be reached for a user without a record, and
  checkout needs one. Every record in the model has a cart.
- Every send is assumed to succeed, except `process_address`'s
  confirmation (`delivered`). In the program a failed send raises out of
  the handler and skips what follows it. `update_main_message` then records
  no new main message, and the id of the old one, already deleted, stays
  recorded (main.py:57-68). `checkout` then skips `set_state`
  (main.py:795-802). `process_manual_phone` has then stored the phone but
  skips `set_state` (main.py:827-838). None of these partial effects is
  modelled.
- `/start@botname` and other command mentions are not modelled.
  `Command("start")` is taken to match "/start" as the first word of the
  text, or of the caption of a message without text.
- Character classes: `isalnum` covers ASCII and the letters of the
  Cyrillic block (U+0400–U+04FF less the signs U+0482–U+0489) only.
  `lower` covers the capitals of ASCII and of that block; Python's also
  lowers other scripts, such as Latin-1 and Greek. The model's `isdigit`
  and `int()` accept ASCII digits only. Python's `isdigit` also accepts the other Unicode decimal digits and
  superscripts such as '²'. Python's `int()` accepts every Unicode decimal
  digit.
- Checkout.PhoneValidMeans: is stated for ASCII digits. A phone written in
  other Unicode decimal digits, or holding digits such as '²' that
  `isdigit` accepts, is accepted by the program and rejected by the model.
- Admin.PriceStep: is stated for ASCII digits. A price in other Unicode
  decimal digits (Arabic-Indic, full-width) moves the program's price step
  on, and the model re-prompts.
- PyStr.Lower: keeps the length for the characters it models. Python's
  `lower` can lengthen a string: 'İ' (U+0130) becomes "i̇", two characters.
  'İ' is the only character that lowers to more than one, so this does not
  change which answers `IsNo` accepts.
- `ceil` is taken over exact rationals: `ceil(len / 5)` is exact in floating
  point for any list the bot could hold.
- Pagination.ShownPage: states only the bounds of the page shown. The page
  itself is ClampPage of ParsePage, and the lemmas about those two state
  the rest.
