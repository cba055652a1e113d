/** Option and Result values shared by every module of the model. */
module Wrappers {

  /** A value that may be missing: Python's `None` or a dictionary key that is absent. */
  datatype Option<T> = None | Some(value: T) {

    /** The value, or `default` when there is none (`d.get(k, default)`). */
    function GetOr(default: T): T {
      match this
      case Some(v) => v
      case None => default
    }
  }

  /** The exceptions that the modelled handlers can raise; `TelegramAPIError`
      stands for any failure the chat transport reports on a send. */
  datatype PyError = IndexError | ValueError | AttributeError | TypeError | KeyError | NameError | TelegramAPIError

  /** The outcome of a computation that either yields a value or raises. */
  datatype Result<T> = Ok(value: T) | Err(error: PyError)

  /** How a handler ends: normally, or with an exception that the dispatcher
      logs and drops. Whatever the handler changed before raising stays
      changed. */
  datatype Outcome = Handled | Raised(error: PyError)
}

/** What the chat transport delivers to a message handler. */
module Messages {
  import opened Wrappers

  /** An incoming chat message: plain text, a photo (with the server path of its
      largest size, as `bot.get_file` reports it, and its caption), or anything
      else (a sticker, a document, a shared contact, ...), perhaps captioned.
      Only a text message has a `message.text`. */
  datatype Incoming =
    | Text(text: string)
    | Photo(filePath: string, caption: Option<string>)
    | Other(caption: Option<string>)

  /** `message.text`. */
  function TextOf(m: Incoming): (t: Option<string>)
    ensures t.Some? <==> m.Text?
    ensures m.Text? ==> t.value == m.text
  {
    match m
    case Text(s) => Some(s)
    case _ => None
  }

  /** `message.text or message.caption`: what a `Command` filter reads. An
      empty text or caption is falsy and reads as nothing. */
  function CommandText(m: Incoming): (t: Option<string>)
    ensures t.Some? ==> t.value != []
    ensures m.Text? && m.text != [] ==> t == Some(m.text)
    ensures !m.Text? && m.caption.Some? && m.caption.value != [] ==> t == m.caption
    ensures t.Some? ==> (m.Text? && t.value == m.text) || (!m.Text? && m.caption == t)
  {
    match m
    case Text(t) => if t != [] then Some(t) else None
    case Photo(_, c) => if c.Some? && c.value != [] then c else None
    case Other(c) => if c.Some? && c.value != [] then c else None
  }
}
