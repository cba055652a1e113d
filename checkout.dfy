/** The checkout dialogue of main.py: which text handler a message reaches,
    the phone check, and how the dialogue state moves. */
module Checkout {
  import opened Wrappers
  import opened PyStr
  import opened Messages

  /** `Form`'s states as the code uses them; "no state" is `Idle`. The declared
      `waiting_for_phone_choice` is never set and has no handler. */
  datatype CheckoutState = Idle | WaitingPhoneManual | WaitingAddress

  /** The escape button of the checkout keyboards. */
  const BackToMenu: string := "Вернуться в главное меню"

  // ---------------------------------------------------------------------
  // The phone check (main.py:816)
  // ---------------------------------------------------------------------

  /** Accepted when what is left after removing every '+' is a non-empty run
      of digits, at least ten long. */
  predicate PhoneValid(t: string) {
    var d := RemoveAll(t, '+');
    IsDigits(d) && |d| >= 10
  }

  /** The same check in terms of the text itself: only '+' and digits, and at
      least ten digits. '+' may stand anywhere, any number of times. */
  lemma PhoneValidMeans(t: string)
    ensures PhoneValid(t) <==>
      (forall c :: c in t ==> c == '+' || IsAsciiDigit(c)) && |t| - Count(t, '+') >= 10
  {
    var d := RemoveAll(t, '+');
    if (forall c :: c in t ==> c == '+' || IsAsciiDigit(c)) && |t| - Count(t, '+') >= 10 {
      assert forall c :: c in d ==> IsAsciiDigit(c);
    }
  }

  /** The example of the prompt is accepted. */
  lemma PhoneExampleAccepted()
    ensures PhoneValid("+79991234567")
  {
    var t := "+79991234567";
    var digits := "79991234567";
    assert t[0] == '+' && t[1..] == digits;
    assert forall i :: 0 <= i < |digits| ==> IsAsciiDigit(digits[i]);
    RemoveAllAbsent(digits, '+');
  }

  /** Too few digits, or a space between them, is rejected. */
  lemma PhoneExamplesRejected()
    ensures !PhoneValid("12345")
    ensures !PhoneValid("+7 999 123 45 67")
  {
    RemoveAllAbsent("12345", '+');
    var t := "+7 999 123 45 67";
    assert t[2] == ' ';
    assert ' ' in RemoveAll(t, '+');
  }

  // ---------------------------------------------------------------------
  // Which message handler runs
  // ---------------------------------------------------------------------

  /** The message handlers of main.py, in the order they are registered. */
  datatype MessageHandler =
    | StartCommand      // Command("start"), main.py:88
    | CatalogMenu       // "Каталог", main.py:98
    | DeliveryMenu      // "Доставка", main.py:125
    | CallMenu          // "Позвонить", main.py:146
    | ChatMenu          // "Онлайн-чат", main.py:161
    | CartMenu          // "Корзина", main.py:174
    | ManualPhone       // Form.waiting_for_phone_manual, main.py:805
    | Address           // Form.waiting_for_address, main.py:861
    | MainMenu          // "Вернуться в главное меню", main.py:905
    | Unhandled

  /** `Command("start")`: the first whitespace-separated word is "/start",
      whatever follows it. */
  predicate IsStartCommand(t: string) {
    var w := LStrip(t);
    StartsWith(w, "/start") && (|w| == 6 || IsSpace(w[6]))
  }

  /** A message `Command("start")` takes: its text, or for a photo or other
      media its caption, starts with the command. */
  predicate StartMessage(m: Incoming) {
    CommandText(m).Some? && IsStartCommand(CommandText(m).value)
  }

  /** The texts of the main reply keyboard. */
  predicate IsMenuText(t: string) {
    t == "Каталог" || t == "Доставка" || t == "Позвонить" || t == "Онлайн-чат" || t == "Корзина"
  }

  /** The handler a message reaches in a dialogue state. Handlers are tried in
      registration order and the first whose filters match runs; the command
      and menu-button handlers carry no state filter, so they run in every
      state, ahead of the two dialogue handlers. */
  function Route(m: Incoming, st: CheckoutState): (h: MessageHandler)
    ensures h == StartCommand <==> StartMessage(m)
    ensures h == ManualPhone <==> st == WaitingPhoneManual && !StartMessage(m) && !(m.Text? && IsMenuText(m.text))
    ensures h == Address <==> st == WaitingAddress && !StartMessage(m) && !(m.Text? && IsMenuText(m.text))
  {
    if StartMessage(m) then StartCommand
    else if m == Text("Каталог") then CatalogMenu
    else if m == Text("Доставка") then DeliveryMenu
    else if m == Text("Позвонить") then CallMenu
    else if m == Text("Онлайн-чат") then ChatMenu
    else if m == Text("Корзина") then CartMenu
    else if st == WaitingPhoneManual then ManualPhone
    else if st == WaitingAddress then Address
    else if m == Text(BackToMenu) then MainMenu
    else Unhandled
  }

  /** The menu buttons win over a pending dialogue: pressing one mid-checkout
      runs the menu handler and the dialogue handler never sees the text. */
  lemma MenuPreemptsDialogue(t: string, st: CheckoutState)
    requires IsMenuText(t)
    ensures Route(Text(t), st) !in {ManualPhone, Address, MainMenu, Unhandled}
  {
  }

  /** A text that starts with neither whitespace nor '/' is not a command. */
  lemma NotStartCommand(t: string)
    requires t != [] && !IsSpace(t[0]) && t[0] != '/'
    ensures !IsStartCommand(t)
  {
    assert LStrip(t) == t;
  }

  /** A photo reaches cmd_start, in any state, exactly when its caption is the
      command; the phone handler never sees such a photo. */
  lemma CaptionedStart(path: string, caption: string, st: CheckoutState)
    ensures Route(Photo(path, Some(caption)), st) == StartCommand <==> IsStartCommand(caption)
    ensures IsStartCommand(caption) ==> Route(Photo(path, Some(caption)), st) != ManualPhone
  {
    if IsStartCommand(caption) {
      assert |LStrip(caption)| >= 6;
    }
  }

  /** The escape text is neither a command nor a menu text. */
  lemma EscapeIsPlainText()
    ensures !StartMessage(Text(BackToMenu))
    ensures !IsMenuText(BackToMenu)
  {
    NotStartCommand(BackToMenu);
  }

  /** Outside a dialogue a plain text reaches the escape handler or none. */
  lemma IdleTextRoute(t: string)
    requires !StartMessage(Text(t)) && !IsMenuText(t)
    ensures Route(Text(t), Idle) == (if t == BackToMenu then MainMenu else Unhandled)
  {
  }

  /** Outside a dialogue the escape button reaches its own handler; inside one
      it reaches the dialogue handler, which clears the state. */
  lemma EscapeRoute(st: CheckoutState)
    ensures st == Idle ==> Route(Text(BackToMenu), st) == MainMenu
    ensures st == WaitingPhoneManual ==> Route(Text(BackToMenu), st) == ManualPhone
    ensures st == WaitingAddress ==> Route(Text(BackToMenu), st) == Address
  {
    EscapeIsPlainText();
    IdleTextRoute(BackToMenu);
  }

  // ---------------------------------------------------------------------
  // How the dialogue state moves
  // ---------------------------------------------------------------------

  /** The state after the `checkout` button: manual phone entry when the cart
      has something in it, the old state otherwise (main.py:771-773, 802). */
  function AfterCheckout(st: CheckoutState, cartEmpty: bool): (r: CheckoutState)
    ensures cartEmpty ==> r == st
    ensures !cartEmpty ==> r == WaitingPhoneManual
  {
    if cartEmpty then st else WaitingPhoneManual
  }

  /** The state after the phone handler: cleared by the escape text, moved on
      by an accepted phone, kept otherwise; a message without text makes the
      handler raise before it changes anything (main.py:808-838). */
  function AfterPhone(m: Incoming): CheckoutState {
    match m
    case Text(t) =>
      if t == BackToMenu then Idle else if PhoneValid(t) then WaitingAddress else WaitingPhoneManual
    case _ => WaitingPhoneManual
  }

  /** The state a message leaves behind, given the state it found. The address
      handler clears the state both on the escape text and after the order
      confirmation goes out (main.py:868-904). */
  function AfterMessage(st: CheckoutState, m: Incoming): CheckoutState {
    match Route(m, st)
    case ManualPhone => AfterPhone(m)
    case Address => Idle
    case _ => st
  }

  /** Only the `checkout` button starts a dialogue: no message leaves `Idle`. */
  lemma IdleStaysIdle(m: Incoming)
    ensures AfterMessage(Idle, m) == Idle
  {
  }

  /** The phone step moves on exactly for an accepted phone that is not a
      command or menu text. */
  lemma PhoneStep(m: Incoming)
    ensures AfterMessage(WaitingPhoneManual, m) == WaitingAddress <==>
      m.Text? && PhoneValid(m.text) && !IsStartCommand(m.text) && !IsMenuText(m.text)
  {
    if m.Text? && m.text == BackToMenu {
      assert !PhoneValid(m.text) by {
        assert BackToMenu[0] in BackToMenu;
        PhoneValidMeans(BackToMenu);
      }
    }
  }

  /** A rejected phone, and anything without text, keeps the dialogue waiting
      for a phone. */
  lemma RejectedPhoneKeepsWaiting(m: Incoming)
    requires m.Text? ==> !PhoneValid(m.text) && m.text != BackToMenu
    ensures AfterMessage(WaitingPhoneManual, m) == WaitingPhoneManual
  {
  }

  /** The escape text clears either waiting state. */
  lemma EscapeClears(st: CheckoutState)
    requires st != Idle
    ensures AfterMessage(st, Text(BackToMenu)) == Idle
  {
    EscapeRoute(st);
  }

  /** Every dialogue runs Idle, phone, address, Idle: a message never skips the
      phone step or goes back to it. */
  lemma NoSkippedStep(st: CheckoutState, m: Incoming)
    ensures st == Idle ==> AfterMessage(st, m) == Idle
    ensures st == WaitingAddress ==> AfterMessage(st, m) != WaitingPhoneManual
  {
  }
}
