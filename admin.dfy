/** The admin dialogues of admin.py: the `AdminStates` machine, the form data
    the dialogues collect, the store writes they end in, and the file name a
    product photo is saved under. */
module Admin {
  import opened Wrappers
  import opened PyStr
  import opened Messages

  // ---------------------------------------------------------------------
  // States, form data and store writes
  // ---------------------------------------------------------------------

  /** `AdminStates` (admin.py:41-51); "no state" is `NoAdminState`. */
  datatype AdminState =
    | NoAdminState
    | WaitingCategoryId
    | WaitingCategoryName
    | WaitingProductName
    | WaitingProductPrice
    | WaitingProductImage
    | WaitingNewCategoryName
    | WaitingEditProductName
    | WaitingEditProductPrice
    | WaitingEditProductImage
    | WaitingEditProductCategory

  /** The keys the dialogues put into the FSM data; `data.get(key)` is `None`
      for a key never stored. */
  datatype FormData = FormData(
    categoryId: Option<string>,
    productName: Option<string>,
    price: Option<int>,
    productId: Option<int>)

  /** `state.clear()` leaves this. */
  const EmptyForm := FormData(None, None, None, None)

  /** The store calls the dialogues end in, with the arguments passed. */
  datatype StoreWrite =
    | AddCategory(id: Option<string>, name: string)
    | UpdateCategory(id: Option<string>, name: string)
    | AddProduct(productName: Option<string>, price: Option<int>, image: string, category: Option<string>)

  /** A write whose every argument came from an earlier step of its dialogue. */
  predicate Complete(w: StoreWrite) {
    match w
    case AddCategory(id, _) => id.Some?
    case UpdateCategory(id, _) => id.Some?
    case AddProduct(n, p, _, c) => n.Some? && p.Some? && c.Some?
  }

  /** Every write of a log is complete. */
  predicate AllComplete(ws: seq<StoreWrite>) {
    ws == [] || (AllComplete(ws[..|ws| - 1]) && Complete(ws[|ws| - 1]))
  }

  /** A complete write keeps a complete log complete. */
  lemma AppendComplete(ws: seq<StoreWrite>, w: StoreWrite)
    requires AllComplete(ws) && Complete(w)
    ensures AllComplete(ws + [w])
  {
    assert (ws + [w])[..|ws|] == ws;
  }

  /** AllComplete says what its name says. */
  lemma {:induction false} AllCompleteMeans(ws: seq<StoreWrite>)
    ensures AllComplete(ws) <==> forall i :: 0 <= i < |ws| ==> Complete(ws[i])
  {
    if ws != [] {
      AllCompleteMeans(ws[..|ws| - 1]);
    }
  }

  // ---------------------------------------------------------------------
  // Texts and callback data
  // ---------------------------------------------------------------------

  /** `Command("admin")`: the first whitespace-separated word is "/admin". */
  predicate IsAdminCommand(t: string) {
    var w := LStrip(t);
    StartsWith(w, "/admin") && (|w| == 6 || IsSpace(w[6]))
  }

  /** The texts of the admin reply keyboard (admin.py:183, 193, 203). */
  predicate IsAdminMenuText(t: string) {
    t == "Выйти из админ-панели" || t == "Управление категориями" || t == "Управление товарами"
  }

  /** The command and the reply-keyboard handlers carry no state filter and
      are registered first, so they take these messages in every state. The
      command filter reads a photo's caption as it reads a text; the keyboard
      filters compare the text only. */
  predicate Preempted(m: Incoming) {
    (CommandText(m).Some? && IsAdminCommand(CommandText(m).value)) || (m.Text? && IsAdminMenuText(m.text))
  }

  /** `message.text.lower() == "нет"`, the answer that skips or removes the
      picture. */
  predicate IsNo(t: string) {
    Lower(t) == "нет"
  }

  /** "нет" is accepted in any mix of letter cases and nothing else is. */
  lemma IsNoMeans(t: string)
    ensures IsNo(t) <==>
      |t| == 3 && (t[0] == 'н' || t[0] == 'Н') && (t[1] == 'е' || t[1] == 'Е') && (t[2] == 'т' || t[2] == 'Т')
  {
    LowerCharCyrillic(if |t| > 0 then t[0] else ' ', 'н');
    LowerCharCyrillic(if |t| > 1 then t[1] else ' ', 'е');
    LowerCharCyrillic(if |t| > 2 then t[2] else ' ', 'т');
    var no := "нет";
    assert no[0] == 'н' && no[1] == 'е' && no[2] == 'т' && |no| == 3;
    if |t| == 3 && (t[0] == 'н' || t[0] == 'Н') && (t[1] == 'е' || t[1] == 'Е') && (t[2] == 'т' || t[2] == 'Т') {
      assert Lower(t) == no;
    }
  }

  /** The parts of "w_x" for a word w. */
  lemma SplitWord(w: string, x: string)
    requires '_' !in w
    ensures Split(w + "_" + x, '_') == [w] + Split(x, '_')
  {
    assert w + "_" + x == w + ['_'] + x;
    SplitAfterWord(w, x, '_');
  }

  /** The parts of "admin_edit_…". */
  lemma AdminEditSplit(x: string)
    ensures Split("admin_edit_" + x, '_') == ["admin", "edit"] + Split(x, '_')
  {
    assert "admin_edit_" + x == "admin" + "_" + ("edit" + "_" + x);
    SplitWord("admin", "edit" + "_" + x);
    SplitWord("edit", x);
  }

  /** The first word of a string, up to its first underscore. */
  function FirstWord(x: string): (w: string)
    ensures '_' !in w && StartsWith(x, w)
    ensures '_' !in x ==> w == x
  {
    var parts := Split(x, '_');
    JoinSplit(x, '_');
    if '_' !in x then SplitNoSep(x, '_'); parts[0]
    else
      assert |parts| > 1;
      assert Join(parts, '_') == parts[0] + ['_'] + Join(parts[1..], '_');
      assert x[..|parts[0]|] == parts[0];
      parts[0]
  }

  /** What follows the first word and its underscore. */
  lemma FirstWordOf(w: string, rest: string)
    requires '_' !in w
    ensures FirstWord(w + "_" + rest) == w
  {
    SplitWord(w, rest);
  }

  /** admin_edit_category: `callback.data.split("_")[3]`, the first word after
      the prefix. */
  function EditCategoryTarget(data: string): (id: string)
    requires StartsWith(data, "admin_edit_category_")
    ensures id == FirstWord(data[20..])
  {
    var x := data[20..];
    assert data == "admin_edit_" + ("category" + "_" + x);
    AdminEditSplit("category" + "_" + x);
    SplitWord("category", x);
    Split(data, '_')[3]
  }

  /** admin_select_category_for_product: `callback.data.split("_")[4]`. */
  function AddProductTarget(data: string): (id: string)
    requires StartsWith(data, "admin_add_product_to_")
    ensures id == FirstWord(data[21..])
  {
    var x := data[21..];
    assert data == "admin" + "_" + ("add" + "_" + ("product" + "_" + ("to" + "_" + x)));
    SplitWord("admin", "add" + "_" + ("product" + "_" + ("to" + "_" + x)));
    SplitWord("add", "product" + "_" + ("to" + "_" + x));
    SplitWord("product", "to" + "_" + x);
    SplitWord("to", x);
    Split(data, '_')[4]
  }

  /** admin_edit_product: `int(callback.data.split("_")[3])`. */
  function EditProductTarget(data: string): (r: Result<int>)
    requires StartsWith(data, "admin_edit_product_")
    ensures r.Ok? ==> ParseInt(FirstWord(data[19..])) == Some(r.value)
    ensures r.Err? ==> ParseInt(FirstWord(data[19..])) == None && r.error == ValueError
  {
    EditProductParts(data);
    match ParseInt(Split(data, '_')[3])
    case Some(id) => Ok(id)
    case None => Err(ValueError)
  }

  lemma EditProductParts(data: string)
    requires StartsWith(data, "admin_edit_product_")
    ensures |Split(data, '_')| > 3 && Split(data, '_')[3] == FirstWord(data[19..])
  {
    var x := data[19..];
    assert data == "admin_edit_" + ("product" + "_" + x);
    AdminEditSplit("product" + "_" + x);
    SplitWord("product", x);
  }

  /** set_product_category_handler: `callback.data.split("_")[3]`. */
  function SetCategoryTarget(data: string): (id: string)
    requires StartsWith(data, "set_product_category_")
    ensures id == FirstWord(data[21..])
  {
    var x := data[21..];
    assert data == "set" + "_" + ("product" + "_" + ("category" + "_" + x));
    SplitWord("set", "product" + "_" + ("category" + "_" + x));
    SplitWord("product", "category" + "_" + x);
    SplitWord("category", x);
    Split(data, '_')[3]
  }

  /** The edit button of a category, `f"admin_edit_category_{category_id}"`,
      hands back its id when the id holds no underscore, and only its first
      word otherwise. */
  lemma EditCategoryButton(id: string, rest: string)
    requires '_' !in id
    ensures StartsWith("admin_edit_category_" + id, "admin_edit_category_")
    ensures EditCategoryTarget("admin_edit_category_" + id) == id
    ensures StartsWith("admin_edit_category_" + id + "_" + rest, "admin_edit_category_")
    ensures EditCategoryTarget("admin_edit_category_" + id + "_" + rest) == id
  {
    StartsWithConcat("admin_edit_category_", id);
    assert ("admin_edit_category_" + id)[20..] == id;
    StartsWithConcat("admin_edit_category_", id + "_" + rest);
    assert ("admin_edit_category_" + id + "_" + rest)[20..] == id + "_" + rest;
    FirstWordOf(id, rest);
  }

  /** The category buttons of the add-product dialogue hand back their id in
      the same way. */
  lemma AddProductButton(id: string, rest: string)
    requires '_' !in id
    ensures StartsWith("admin_add_product_to_" + id, "admin_add_product_to_")
    ensures AddProductTarget("admin_add_product_to_" + id) == id
    ensures StartsWith("admin_add_product_to_" + id + "_" + rest, "admin_add_product_to_")
    ensures AddProductTarget("admin_add_product_to_" + id + "_" + rest) == id
  {
    StartsWithConcat("admin_add_product_to_", id);
    assert ("admin_add_product_to_" + id)[21..] == id;
    StartsWithConcat("admin_add_product_to_", id + "_" + rest);
    assert ("admin_add_product_to_" + id + "_" + rest)[21..] == id + "_" + rest;
    FirstWordOf(id, rest);
  }

  /** The edit button of a product hands back its id. */
  lemma EditProductButton(p: int)
    ensures StartsWith("admin_edit_product_" + IntToStr(p), "admin_edit_product_")
    ensures EditProductTarget("admin_edit_product_" + IntToStr(p)) == Ok(p)
  {
    StartsWithConcat("admin_edit_product_", IntToStr(p));
    assert ("admin_edit_product_" + IntToStr(p))[19..] == IntToStr(p);
    IntToStrNoUnderscore(p);
    IntRoundTrip(p);
  }

  // ---------------------------------------------------------------------
  // The saved photo's file name (admin.py:59-69, 454)
  // ---------------------------------------------------------------------

  /** `"".join(c for c in product_name if c.isalnum())`. */
  function AlnumOnly(s: string): (r: string)
    ensures |r| <= |s|
    ensures forall i :: 0 <= i < |r| ==> IsAlnum(r[i])
  {
    if s == [] then []
    else if IsAlnum(s[0]) then [s[0]] + AlnumOnly(s[1..])
    else AlnumOnly(s[1..])
  }

  /** The filter works piece by piece, so it keeps the order of the name. */
  lemma {:induction false} AlnumOnlyConcat(a: string, b: string)
    ensures AlnumOnly(a + b) == AlnumOnly(a) + AlnumOnly(b)
  {
    if a == [] {
      assert a + b == b;
    } else {
      assert (a + b)[0] == a[0] && (a + b)[1..] == a[1..] + b;
      AlnumOnlyConcat(a[1..], b);
    }
  }

  /** The filter keeps every occurrence of every alphanumeric character and no
      occurrence of anything else. */
  lemma {:induction false} AlnumOnlyCount(s: string, c: char)
    ensures Count(AlnumOnly(s), c) == if IsAlnum(c) then Count(s, c) else 0
  {
    if s != [] {
      AlnumOnlyCount(s[1..], c);
      if IsAlnum(s[0]) {
        assert ([s[0]] + AlnumOnly(s[1..]))[1..] == AlnumOnly(s[1..]);
      }
    }
  }

  /** A name that is alphanumeric already is kept whole. */
  lemma {:induction false} AlnumOnlyKeeps(s: string)
    requires forall i :: 0 <= i < |s| ==> IsAlnum(s[i])
    ensures AlnumOnly(s) == s
  {
    if s != [] {
      AlnumOnlyKeeps(s[1..]);
      assert [s[0]] + s[1..] == s;
    }
  }

  /** `file.file_path.split('.')[-1]`. */
  function Extension(path: string): string {
    Last(Split(path, '.'))
  }

  /** The name save_photo returns: `f"{filename}.{ext}"`. */
  function SavedFileName(base: string, path: string): string {
    base + "." + Extension(path)
  }

  /** The extension is what follows the last dot. */
  lemma ExtensionAfterLastDot(stem: string, ext: string)
    requires '.' !in ext
    ensures Extension(stem + "." + ext) == ext
  {
    assert stem + "." + ext == stem + ['.'] + ext;
    SplitAt(stem, ext, '.');
    SplitNoSep(ext, '.');
  }

  /** A path without a dot is its own extension. */
  lemma ExtensionWithoutDot(path: string)
    requires '.' !in path
    ensures Extension(path) == path
  {
    SplitNoSep(path, '.');
  }

  /** The extension holds no dot, so the saved name has exactly one, with the
      photo's extension after it and the filtered name before it. */
  lemma SavedFileNameShape(name: string, path: string)
    ensures var saved := SavedFileName(AlnumOnly(name), path);
            Count(saved, '.') == 1 && Extension(saved) == Extension(path)
            && saved[..|AlnumOnly(name)|] == AlnumOnly(name)
  {
    var base := AlnumOnly(name);
    var ext := Extension(path);
    var parts := Split(path, '.');
    assert ext == parts[|parts| - 1];
    assert '.' !in ext;
    assert '.' !in base;
    ExtensionAfterLastDot(base, ext);
    CountDotFree(base);
    CountDotFree(ext);
    CountConcat(base, ".", '.');
    CountConcat(base + ".", ext, '.');
  }

  lemma {:induction false} CountDotFree(s: string)
    requires '.' !in s
    ensures Count(s, '.') == 0
  {
    if s != [] {
      CountDotFree(s[1..]);
    }
  }

  lemma {:induction false} CountConcat(a: string, b: string, x: char)
    ensures Count(a + b, x) == Count(a, x) + Count(b, x)
  {
    if a == [] {
      assert a + b == b;
    } else {
      assert (a + b)[0] == a[0] && (a + b)[1..] == a[1..] + b;
      CountConcat(a[1..], b, x);
    }
  }

  // ---------------------------------------------------------------------
  // How a message moves the dialogue
  // ---------------------------------------------------------------------

  /** The picture a new product gets from an answer at the picture step:
      "" for "нет", the saved file's name for a photo that was stored, and no
      picture (a re-prompt, or an error answer) otherwise. `saved` is whether
      the download succeeded; a missing product name makes the file name
      computation raise, which the handler treats as a failed save. */
  function NewProductImage(m: Incoming, productName: Option<string>, saved: bool): (r: Option<string>)
    ensures m.Text? ==> (r.Some? <==> IsNo(m.text)) && (r.Some? ==> r.value == "")
    ensures m.Photo? ==> (r.Some? <==> productName.Some? && saved)
    ensures m.Photo? && r.Some? ==> r.value == SavedFileName(AlnumOnly(productName.value), m.filePath)
    ensures m.Other? ==> r == None
  {
    match m
    case Text(t) => if IsNo(t) then Some("") else None
    case Photo(path, _) =>
      if productName.Some? && saved then Some(SavedFileName(AlnumOnly(productName.value), path)) else None
    case Other(_) => None
  }

  /** The state a message leaves behind. `imageStored` is whether a photo at the
      add-product picture step got a file name (see NewProductImage);
      `productKnown` is whether the product being edited is still in the store. */
  function NextState(st: AdminState, m: Incoming, imageStored: bool, productKnown: bool): AdminState {
    if Preempted(m) then st else Answer(st, m, imageStored, productKnown)
  }

  /** The state the handler of `st` leaves behind when the message reaches it. */
  function Answer(st: AdminState, m: Incoming, imageStored: bool, productKnown: bool): AdminState {
    match st
    case WaitingCategoryId => if m.Text? then WaitingCategoryName else st
    case WaitingCategoryName => if m.Text? then NoAdminState else st
    case WaitingNewCategoryName => if m.Text? then NoAdminState else st
    case WaitingProductName => if m.Text? then WaitingProductPrice else st
    case WaitingProductPrice =>
      if m.Text? && ParseInt(Strip(m.text)).Some? then WaitingProductImage else st
    case WaitingProductImage =>
      if (m.Text? && IsNo(m.text)) || (m.Photo? && imageStored) then NoAdminState else st
    case WaitingEditProductImage =>
      if (m.Text? || m.Photo?) && !productKnown then NoAdminState else st
    case _ => st
  }

  /** The steps of the add-product dialogue in order: a message moves it at
      most one step on and never back. */
  lemma AddProductInOrder(m: Incoming, imageStored: bool, productKnown: bool)
    ensures NextState(WaitingProductName, m, imageStored, productKnown) in {WaitingProductName, WaitingProductPrice}
    ensures NextState(WaitingProductPrice, m, imageStored, productKnown) in {WaitingProductPrice, WaitingProductImage}
    ensures NextState(WaitingProductImage, m, imageStored, productKnown) in {WaitingProductImage, NoAdminState}
  {
  }

  /** The price step moves on exactly for an integer answer (negative ones
      included); anything else re-prompts and waits. */
  lemma PriceStep(m: Incoming, imageStored: bool, productKnown: bool)
    ensures NextState(WaitingProductPrice, m, imageStored, productKnown) == WaitingProductImage <==>
      m.Text? && !Preempted(m) && ParseInt(Strip(m.text)).Some?
  {
  }

  /** Every integer answer moves the price step on, negative ones included:
      nothing checks the sign. */
  lemma IntegerPriceAccepted(p: int, imageStored: bool, productKnown: bool)
    ensures NextState(WaitingProductPrice, Text(IntToStr(p)), imageStored, productKnown) == WaitingProductImage
  {
    var t := IntToStr(p);
    assert t[0] in t;
    assert !IsSpace(t[0]) && !IsSpace(t[|t| - 1]);
    StripUnpadded(t);
    IntRoundTrip(p);
    NotAdminText(t);
  }

  /** A text that starts with a digit or a minus sign is neither the command
      nor an admin menu text. */
  lemma NotAdminText(t: string)
    requires t != [] && (t[0] == '-' || IsAsciiDigit(t[0]))
    ensures !Preempted(Text(t))
  {
    NotAdminCommand(t);
    FirstCharDiffers(t, "Выйти из админ-панели");
    FirstCharDiffers(t, "Управление категориями");
    FirstCharDiffers(t, "Управление товарами");
  }

  /** A text that starts with neither whitespace nor '/' is not the command. */
  lemma NotAdminCommand(t: string)
    requires t != [] && !IsSpace(t[0]) && t[0] != '/'
    ensures !IsAdminCommand(t)
  {
    assert LStrip(t) == t;
  }

  lemma FirstCharDiffers(t: string, q: string)
    requires t != [] && (t[0] == '-' || IsAsciiDigit(t[0])) && q != [] && q[0] >= 'А'
    ensures t != q
  {
  }

  /** The picture step ends the dialogue exactly on "нет", in any case, or on a
      photo that was stored. */
  lemma ImageStep(m: Incoming, imageStored: bool, productKnown: bool)
    ensures NextState(WaitingProductImage, m, imageStored, productKnown) == NoAdminState <==>
      !Preempted(m) && ((m.Text? && IsNo(m.text)) || (m.Photo? && imageStored))
  {
  }

  /** A photo captioned with the command goes to the command handler, in any
      state: at the picture step it is not stored and the dialogue stays. */
  lemma CaptionedAdminCommand(path: string, caption: string, st: AdminState, imageStored: bool, productKnown: bool)
    requires IsAdminCommand(caption)
    ensures Preempted(Photo(path, Some(caption)))
    ensures NextState(st, Photo(path, Some(caption)), imageStored, productKnown) == st
  {
    assert |LStrip(caption)| >= 6;
  }

  /** The edit dialogues never finish: every path through the name and price
      handlers either re-prompts or raises before `state.clear()`, and the
      picture handler clears only when the product is gone. */
  lemma EditDialoguesStay(m: Incoming, imageStored: bool, productKnown: bool)
    ensures NextState(WaitingEditProductName, m, imageStored, productKnown) == WaitingEditProductName
    ensures NextState(WaitingEditProductPrice, m, imageStored, productKnown) == WaitingEditProductPrice
    ensures productKnown ==> NextState(WaitingEditProductImage, m, imageStored, productKnown) == WaitingEditProductImage
  {
  }

  /** No message starts a dialogue: only the buttons do. */
  lemma NoStateStays(m: Incoming, imageStored: bool, productKnown: bool)
    ensures NextState(NoAdminState, m, imageStored, productKnown) == NoAdminState
  {
  }

  /** The admin menu texts win over every dialogue. */
  lemma MenuPreemptsDialogue(t: string, st: AdminState, imageStored: bool, productKnown: bool)
    requires IsAdminMenuText(t)
    ensures NextState(st, Text(t), imageStored, productKnown) == st
  {
  }

  /** What one message does to an admin's FSM context: whether a dialogue
      handler took it, the new state and form data, the store write it made
      (at most one), and how the handler ended. */
  datatype Effect = Effect(reached: bool, state: AdminState, form: FormData, write: Option<StoreWrite>, outcome: Outcome)

  /** The writes an effect appends to the store's log. */
  function Written(w: Option<StoreWrite>): (ws: seq<StoreWrite>)
    ensures w.None? ==> ws == []
    ensures w.Some? ==> ws == [w.value]
  {
    if w.Some? then [w.value] else []
  }

  /** The handler of each waiting state, applied to a message that reaches it
      (admin.py:224-248, 341-361, 427-475, 577-764). A message without text
      raises AttributeError in the handlers that strip it; every store write
      ends its dialogue with `state.clear()`. */
  function AnswerEffect(st: AdminState, f: FormData, m: Incoming, products: set<int>, saved: bool): (e: Effect)
    ensures e.write.Some? ==> e.state == NoAdminState && e.form == EmptyForm && e.outcome == Handled
    ensures e.outcome.Raised? ==> e.state == st && e.form == f && e.write == None
    ensures !e.reached ==> e == Effect(false, st, f, None, Handled)
  {
    var raised := Effect(true, st, f, None, Raised(AttributeError));
    match st
    case WaitingCategoryId =>
      if m.Text? then Effect(true, WaitingCategoryName, f.(categoryId := Some(Strip(m.text))), None, Handled) else raised
    case WaitingCategoryName =>
      if m.Text? then Effect(true, NoAdminState, EmptyForm, Some(AddCategory(f.categoryId, Strip(m.text))), Handled) else raised
    case WaitingNewCategoryName =>
      if m.Text? then Effect(true, NoAdminState, EmptyForm, Some(UpdateCategory(f.categoryId, Strip(m.text))), Handled) else raised
    case WaitingProductName =>
      if m.Text? then Effect(true, WaitingProductPrice, f.(productName := Some(Strip(m.text))), None, Handled) else raised
    case WaitingProductPrice =>
      if !m.Text? then raised
      else if ParseInt(Strip(m.text)).Some? then Effect(true, WaitingProductImage, f.(price := ParseInt(Strip(m.text))), None, Handled)
      else Effect(true, st, f, None, Handled)
    case WaitingProductImage =>
      var image := NewProductImage(m, f.productName, saved);
      if image.Some? then Effect(true, NoAdminState, EmptyForm, Some(AddProduct(f.productName, f.price, image.value, f.categoryId)), Handled)
      else Effect(true, st, f, None, Handled)
    case WaitingEditProductName => Effect(true, st, f, None, Raised(TypeError))
    case WaitingEditProductPrice =>
      Effect(true, st, f, None, if m.Text? && ParseInt(m.text).None? then Handled else Raised(TypeError))
    case WaitingEditProductImage =>
      if !(m.Text? || m.Photo?) then Effect(false, st, f, None, Handled)
      else if !(f.productId.Some? && f.productId.value in products) then Effect(true, NoAdminState, EmptyForm, None, Handled)
      else Effect(true, st, f, None, if (m.Text? && IsNo(m.text)) || (m.Photo? && saved) then Raised(TypeError) else Handled)
    case _ => Effect(false, st, f, None, Handled)
  }

  /** A message in any state: the command and the admin menu texts go to their
      own handlers and leave the dialogue alone. */
  function MessageEffect(st: AdminState, f: FormData, m: Incoming, products: set<int>, saved: bool): (e: Effect)
    ensures Preempted(m) ==> e == Effect(false, st, f, None, Handled)
    ensures !Preempted(m) ==> e == AnswerEffect(st, f, m, products, saved)
  {
    if Preempted(m) then Effect(false, st, f, None, Handled) else AnswerEffect(st, f, m, products, saved)
  }

  /** The state a handler leaves is the one of Answer, given whether the
      picture was stored and whether the edited product is known. */
  lemma AnswerEffectState(st: AdminState, f: FormData, m: Incoming, products: set<int>, saved: bool)
    ensures AnswerEffect(st, f, m, products, saved).state ==
      Answer(st, m, saved && f.productName.Some?, f.productId.Some? && f.productId.value in products)
  {
    match st
    case WaitingProductImage =>
      var image := NewProductImage(m, f.productName, saved);
      assert image.Some? <==> (m.Text? && IsNo(m.text)) || (m.Photo? && saved && f.productName.Some?);
    case _ =>
  }

  /** The full effect agrees with the state machine of Answer and NextState:
      the picture counts as stored when the download succeeded and a product
      name is in the form, the edited product as known when the form's id is
      in the store. */
  lemma EffectFollowsStateMachine(st: AdminState, f: FormData, m: Incoming, products: set<int>, saved: bool)
    ensures AnswerEffect(st, f, m, products, saved).state ==
      Answer(st, m, saved && f.productName.Some?, f.productId.Some? && f.productId.value in products)
    ensures MessageEffect(st, f, m, products, saved).state ==
      NextState(st, m, saved && f.productName.Some?, f.productId.Some? && f.productId.value in products)
  {
    AnswerEffectState(st, f, m, products, saved);
  }

  /** A write gets every argument from the form whenever the form holds what
      the earlier steps of its dialogue stored. */
  lemma EffectWriteComplete(st: AdminState, f: FormData, m: Incoming, products: set<int>, saved: bool)
    requires st == WaitingCategoryName || st == WaitingNewCategoryName ==> f.categoryId.Some?
    requires st == WaitingProductImage ==> f.categoryId.Some? && f.productName.Some? && f.price.Some?
    ensures var e := MessageEffect(st, f, m, products, saved); e.write.Some? ==> Complete(e.write.value)
  {
  }

  /** The edit fields offered by the "Что вы хотите изменить?" menu. */
  datatype EditField = NameField | PriceField | ImageField

  function FieldState(f: EditField): (st: AdminState)
    ensures st in {WaitingEditProductName, WaitingEditProductPrice, WaitingEditProductImage}
  {
    match f
    case NameField => WaitingEditProductName
    case PriceField => WaitingEditProductPrice
    case ImageField => WaitingEditProductImage
  }

  // ---------------------------------------------------------------------
  // The dialogue handlers
  // ---------------------------------------------------------------------

  /** One admin's FSM context: the dialogue state, the data stored with it,
      and the store writes the dialogues have made. */
  class AdminPanel {
    var state: AdminState
    var form: FormData
    var writes: seq<StoreWrite>

    /** Each waiting state has the data the earlier steps stored, so every
        store write gets every argument. */
    predicate Valid()
      reads this
    {
      && (state == WaitingCategoryName || state == WaitingNewCategoryName || state == WaitingProductName ==> form.categoryId.Some?)
      && (state == WaitingProductPrice || state == WaitingProductImage ==> form.categoryId.Some? && form.productName.Some?)
      && (state == WaitingProductImage ==> form.price.Some?)
      && AllComplete(writes)
    }

    constructor ()
      ensures Valid()
      ensures state == NoAdminState && form == EmptyForm && writes == []
    {
      state := NoAdminState;
      form := EmptyForm;
      writes := [];
    }

    /** `state.clear()`. */
    method Clear()
      modifies this
      ensures state == NoAdminState && form == EmptyForm && writes == old(writes)
    {
      state := NoAdminState;
      form := EmptyForm;
    }

    // --- Add a category (admin.py:213-248) -----------------------------

    /** The "Добавить категорию" button. */
    method PressAddCategory(isAdmin: bool)
      requires Valid()
      modifies this
      ensures Valid()
      ensures state == (if isAdmin then WaitingCategoryId else old(state))
      ensures form == old(form) && writes == old(writes)
    {
      if isAdmin {
        state := WaitingCategoryId;
      }
    }

    /** The id answer: stored stripped, then the name is asked for. A message
        without text raises on `None.strip()`. */
    method ProcessCategoryId(m: Incoming) returns (outcome: Outcome)
      requires Valid() && state == WaitingCategoryId
      modifies this
      ensures Valid()
      ensures m.Text? ==> outcome == Handled && state == WaitingCategoryName
                          && form == old(form).(categoryId := Some(Strip(m.text)))
      ensures !m.Text? ==> outcome == Raised(AttributeError) && state == old(state) && form == old(form)
      ensures writes == old(writes)
    {
      match m
      case Text(t) =>
        form := form.(categoryId := Some(Strip(t)));
        state := WaitingCategoryName;
        outcome := Handled;
      case _ =>
        outcome := Raised(AttributeError);
    }

    /** The name answer: the category is added, whatever the store answers,
        and the dialogue ends. */
    method ProcessCategoryName(m: Incoming) returns (outcome: Outcome)
      requires Valid() && state == WaitingCategoryName
      modifies this
      ensures Valid()
      ensures m.Text? ==> outcome == Handled && state == NoAdminState && form == EmptyForm
                          && writes == old(writes) + [AddCategory(old(form).categoryId, Strip(m.text))]
      ensures !m.Text? ==> outcome == Raised(AttributeError) && state == old(state) && form == old(form)
                           && writes == old(writes)
    {
      match m
      case Text(t) =>
        var w := AddCategory(form.categoryId, Strip(t));
        AppendComplete(writes, w);
        writes := writes + [w];
        Clear();
        outcome := Handled;
      case _ =>
        outcome := Raised(AttributeError);
    }

    // --- Rename a category (admin.py:333-361) --------------------------

    /** The "Изменить название" button of a category. */
    method PressEditCategory(isAdmin: bool, data: string)
      requires Valid() && StartsWith(data, "admin_edit_category_")
      modifies this
      ensures Valid()
      ensures isAdmin ==> state == WaitingNewCategoryName
                          && form == old(form).(categoryId := Some(EditCategoryTarget(data)))
      ensures !isAdmin ==> state == old(state) && form == old(form)
      ensures writes == old(writes)
    {
      if isAdmin {
        form := form.(categoryId := Some(EditCategoryTarget(data)));
        state := WaitingNewCategoryName;
      }
    }

    /** The new name: the category is renamed and the dialogue ends. */
    method ProcessNewCategoryName(m: Incoming) returns (outcome: Outcome)
      requires Valid() && state == WaitingNewCategoryName
      modifies this
      ensures Valid()
      ensures m.Text? ==> outcome == Handled && state == NoAdminState && form == EmptyForm
                          && writes == old(writes) + [UpdateCategory(old(form).categoryId, Strip(m.text))]
      ensures !m.Text? ==> outcome == Raised(AttributeError) && state == old(state) && form == old(form)
                           && writes == old(writes)
    {
      match m
      case Text(t) =>
        var w := UpdateCategory(form.categoryId, Strip(t));
        AppendComplete(writes, w);
        writes := writes + [w];
        Clear();
        outcome := Handled;
      case _ =>
        outcome := Raised(AttributeError);
    }

    // --- Add a product (admin.py:413-475) ------------------------------

    /** A category button of the add-product list. */
    method SelectCategoryForProduct(isAdmin: bool, data: string)
      requires Valid() && StartsWith(data, "admin_add_product_to_")
      modifies this
      ensures Valid()
      ensures isAdmin ==> state == WaitingProductName
                          && form == old(form).(categoryId := Some(AddProductTarget(data)))
      ensures !isAdmin ==> state == old(state) && form == old(form)
      ensures writes == old(writes)
    {
      if isAdmin {
        form := form.(categoryId := Some(AddProductTarget(data)));
        state := WaitingProductName;
      }
    }

    /** The name answer, stored stripped. */
    method ProcessProductName(m: Incoming) returns (outcome: Outcome)
      requires Valid() && state == WaitingProductName
      modifies this
      ensures Valid()
      ensures m.Text? ==> outcome == Handled && state == WaitingProductPrice
                          && form == old(form).(productName := Some(Strip(m.text)))
      ensures !m.Text? ==> outcome == Raised(AttributeError) && state == old(state) && form == old(form)
      ensures writes == old(writes)
    {
      match m
      case Text(t) =>
        form := form.(productName := Some(Strip(t)));
        state := WaitingProductPrice;
        outcome := Handled;
      case _ =>
        outcome := Raised(AttributeError);
    }

    /** The price answer: an integer is stored and the picture is asked for;
        anything else re-prompts (the ValueError is caught); a message without
        text raises on `None.strip()`, which the handler does not catch. */
    method ProcessProductPrice(m: Incoming) returns (outcome: Outcome)
      requires Valid() && state == WaitingProductPrice
      modifies this
      ensures Valid()
      ensures m.Text? && ParseInt(Strip(m.text)).Some? ==>
                outcome == Handled && state == WaitingProductImage
                && form == old(form).(price := ParseInt(Strip(m.text)))
      ensures m.Text? && ParseInt(Strip(m.text)).None? ==>
                outcome == Handled && state == old(state) && form == old(form)
      ensures !m.Text? ==> outcome == Raised(AttributeError) && state == old(state) && form == old(form)
      ensures writes == old(writes)
    {
      match m
      case Text(t) =>
        var price := ParseInt(Strip(t));
        if price.Some? {
          form := form.(price := price);
          state := WaitingProductImage;
        }
        outcome := Handled;
      case _ =>
        outcome := Raised(AttributeError);
    }

    /** The picture answer: with a picture (see NewProductImage) the product is
        added, whatever the store answers, and the dialogue ends; otherwise
        nothing changes. */
    method ProcessProductImage(m: Incoming, saved: bool) returns (outcome: Outcome)
      requires Valid() && state == WaitingProductImage
      modifies this
      ensures Valid()
      ensures outcome == Handled
      ensures var image := NewProductImage(m, old(form).productName, saved);
              if image.Some? then
                && state == NoAdminState && form == EmptyForm
                && writes == old(writes) + [AddProduct(old(form).productName, old(form).price, image.value, old(form).categoryId)]
              else
                state == old(state) && form == old(form) && writes == old(writes)
    {
      var image := NewProductImage(m, form.productName, saved);
      if image.Some? {
        var w := AddProduct(form.productName, form.price, image.value, form.categoryId);
        AppendComplete(writes, w);
        writes := writes + [w];
        Clear();
      }
      outcome := Handled;
    }

    // --- Edit a product (admin.py:561-764) -----------------------------

    /** The "Изменить товар" button: remembers a product that exists. A
        non-integer id raises. */
    method PressEditProduct(isAdmin: bool, data: string, products: set<int>) returns (outcome: Outcome)
      requires Valid() && StartsWith(data, "admin_edit_product_")
      modifies this
      ensures Valid()
      ensures var target := EditProductTarget(data);
              if !isAdmin then outcome == Handled && form == old(form)
              else if target.Err? then outcome == Raised(ValueError) && form == old(form)
              else outcome == Handled
                   && form == if target.value in products then old(form).(productId := Some(target.value)) else old(form)
      ensures state == old(state) && writes == old(writes)
    {
      outcome := Handled;
      if isAdmin {
        match EditProductTarget(data)
        case Err(e) =>
          outcome := Raised(e);
        case Ok(id) =>
          if id in products {
            form := form.(productId := Some(id));
          }
      }
    }

    /** The "Изменить название", "Изменить цену" and "Изменить изображение"
        buttons, which check neither the admin nor a remembered product. */
    method PressEditField(f: EditField)
      requires Valid()
      modifies this
      ensures Valid()
      ensures state == FieldState(f) && form == old(form) && writes == old(writes)
    {
      state := FieldState(f);
    }

    /** The "Изменить категорию" button: waits for a category pick when the
        store has categories. */
    method PressEditCategoryField(categoriesEmpty: bool)
      requires Valid()
      modifies this
      ensures Valid()
      ensures state == (if categoriesEmpty then old(state) else WaitingEditProductCategory)
      ensures form == old(form) && writes == old(writes)
    {
      if !categoriesEmpty {
        state := WaitingEditProductCategory;
      }
    }

    /** The new name: `update_product` is called with arguments its signature
        refuses, so the handler raises TypeError and the state stays. */
    method ProcessEditProductName(m: Incoming) returns (outcome: Outcome)
      requires state == WaitingEditProductName
      ensures outcome == Raised(TypeError)
    {
      outcome := Raised(TypeError);
    }

    /** The new price: a non-integer re-prompts; an integer reaches the
        refused `update_product` call; a message without text makes `int()`
        raise TypeError. The state stays in every case. */
    method ProcessEditProductPrice(m: Incoming) returns (outcome: Outcome)
      requires state == WaitingEditProductPrice
      ensures outcome == (if m.Text? && ParseInt(m.text).None? then Handled else Raised(TypeError))
    {
      if m.Text? && ParseInt(m.text).None? {
        outcome := Handled;
      } else {
        outcome := Raised(TypeError);
      }
    }

    /** The new picture (text and photo messages only): a product gone from the
        store ends the dialogue; "нет" and a stored photo reach the refused
        `update_product` call; anything else re-prompts. */
    method ProcessEditProductImage(m: Incoming, products: set<int>, saved: bool) returns (outcome: Outcome)
      requires Valid() && state == WaitingEditProductImage && (m.Text? || m.Photo?)
      modifies this
      ensures Valid()
      ensures var known := old(form).productId.Some? && old(form).productId.value in products;
              if !known then outcome == Handled && state == NoAdminState && form == EmptyForm
              else
                && state == old(state) && form == old(form)
                && outcome == (if (m.Text? && IsNo(m.text)) || (m.Photo? && saved) then Raised(TypeError) else Handled)
      ensures writes == old(writes)
    {
      if !(form.productId.Some? && form.productId.value in products) {
        Clear();
        outcome := Handled;
      } else if (m.Text? && IsNo(m.text)) || (m.Photo? && saved) {
        outcome := Raised(TypeError);
      } else {
        outcome := Handled;
      }
    }

    /** A category pick: the refused `update_product` call raises and the state
        stays. */
    method SetProductCategory(data: string) returns (target: string, outcome: Outcome)
      requires state == WaitingEditProductCategory && StartsWith(data, "set_product_category_")
      ensures target == FirstWord(data[21..])
      ensures outcome == Raised(TypeError)
    {
      target := SetCategoryTarget(data);
      outcome := Raised(TypeError);
    }

    // --- The message dispatcher ----------------------------------------

    /** The state a message leaves behind, by NextState, given what the form
        holds and what the store and the download would answer: a photo gets
        a file name when the download succeeds and a product name is stored
        (NewProductImage). */
    function After(m: Incoming, products: set<int>, saved: bool): AdminState
      reads this
    {
      NextState(state, m, saved && form.productName.Some?,
                form.productId.Some? && form.productId.value in products)
    }

    /** The same for a message that reaches the state's handler. */
    function AfterAnswer(m: Incoming, products: set<int>, saved: bool): AdminState
      reads this
    {
      Answer(state, m, saved && form.productName.Some?,
             form.productId.Some? && form.productId.value in products)
    }

    /** A message in the current state: the command and the admin menu texts
        are left to their own handlers; otherwise the handler of the state, if
        any, runs. `saved` is whether a photo download would succeed. */
    method OnMessage(m: Incoming, products: set<int>, saved: bool) returns (reached: bool, outcome: Outcome)
      requires Valid()
      modifies this
      ensures Valid()
      ensures state == old(After(m, products, saved))
      ensures !reached ==> state == old(state) && form == old(form) && writes == old(writes) && outcome == Handled
      ensures old(writes) <= writes && |writes| <= |old(writes)| + 1
      ensures var e := old(MessageEffect(state, form, m, products, saved));
        reached == e.reached && form == e.form && outcome == e.outcome && writes == old(writes) + Written(e.write)
    {
      if Preempted(m) {
        reached, outcome := false, Handled;
      } else {
        reached, outcome := AnswerMessage(m, products, saved);
      }
    }

    /** A message that reaches the handler of the current state, if any. */
    method AnswerMessage(m: Incoming, products: set<int>, saved: bool) returns (reached: bool, outcome: Outcome)
      requires Valid() && !Preempted(m)
      modifies this
      ensures Valid()
      ensures state == old(AfterAnswer(m, products, saved))
      ensures !reached ==> state == old(state) && form == old(form) && writes == old(writes) && outcome == Handled
      ensures old(writes) <= writes && |writes| <= |old(writes)| + 1
      ensures var e := old(AnswerEffect(state, form, m, products, saved));
        reached == e.reached && form == e.form && outcome == e.outcome && writes == old(writes) + Written(e.write)
    {
      if state == WaitingCategoryId || state == WaitingCategoryName || state == WaitingNewCategoryName {
        reached := true;
        outcome := OnCategoryMessage(m, products, saved);
      } else if state == WaitingProductName || state == WaitingProductPrice || state == WaitingProductImage {
        reached := true;
        outcome := OnProductMessage(m, products, saved);
      } else {
        reached, outcome := OnEditMessage(m, products, saved);
      }
    }

    /** The category dialogues' answers. */
    method OnCategoryMessage(m: Incoming, products: set<int>, saved: bool) returns (outcome: Outcome)
      requires Valid() && !Preempted(m)
      requires state == WaitingCategoryId || state == WaitingCategoryName || state == WaitingNewCategoryName
      modifies this
      ensures Valid()
      ensures state == old(AfterAnswer(m, products, saved))
      ensures old(writes) <= writes && |writes| <= |old(writes)| + 1
      ensures var e := old(AnswerEffect(state, form, m, products, saved));
        form == e.form && outcome == e.outcome && writes == old(writes) + Written(e.write)
    {
      if state == WaitingCategoryId {
        outcome := ProcessCategoryId(m);
      } else if state == WaitingCategoryName {
        outcome := ProcessCategoryName(m);
      } else {
        outcome := ProcessNewCategoryName(m);
      }
    }

    /** The add-product dialogue's answers. */
    method OnProductMessage(m: Incoming, products: set<int>, saved: bool) returns (outcome: Outcome)
      requires Valid() && !Preempted(m)
      requires state == WaitingProductName || state == WaitingProductPrice || state == WaitingProductImage
      modifies this
      ensures Valid()
      ensures state == old(AfterAnswer(m, products, saved))
      ensures old(writes) <= writes && |writes| <= |old(writes)| + 1
      ensures var e := old(AnswerEffect(state, form, m, products, saved));
        form == e.form && outcome == e.outcome && writes == old(writes) + Written(e.write)
    {
      if state == WaitingProductName {
        outcome := ProcessProductName(m);
      } else if state == WaitingProductPrice {
        outcome := ProcessProductPrice(m);
      } else {
        outcome := ProcessProductImage(m, saved);
      }
    }

    /** The edit dialogues' answers; the other states have no message
        handler. */
    method OnEditMessage(m: Incoming, products: set<int>, saved: bool) returns (reached: bool, outcome: Outcome)
      requires Valid() && !Preempted(m)
      requires state != WaitingCategoryId && state != WaitingCategoryName && state != WaitingNewCategoryName
      requires state != WaitingProductName && state != WaitingProductPrice && state != WaitingProductImage
      modifies this
      ensures Valid()
      ensures state == old(AfterAnswer(m, products, saved))
      ensures !reached ==> state == old(state) && form == old(form) && outcome == Handled
      ensures writes == old(writes)
      ensures var e := old(AnswerEffect(state, form, m, products, saved));
        reached == e.reached && form == e.form && outcome == e.outcome && e.write == None
    {
      ghost var target := AfterAnswer(m, products, saved);
      reached, outcome := true, Handled;
      if state == WaitingEditProductName {
        assert target == state;
        outcome := ProcessEditProductName(m);
      } else if state == WaitingEditProductPrice {
        assert target == state;
        outcome := ProcessEditProductPrice(m);
      } else if state == WaitingEditProductImage && (m.Text? || m.Photo?) {
        outcome := ProcessEditProductImage(m, products, saved);
      } else {
        assert target == state;
        reached := false;
      }
    }
  }
}
