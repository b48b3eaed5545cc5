/**
 * The conversation screen (`ConversacionScreen`): the list of messages, the text being typed,
 * the send button's handler, the order the list is drawn in and how each bubble looks.
 */
module Conversacion {
  import opened KotlinText

  /** One chat message; `esRemoto` is true for a message from the other person. */
  datatype Mensaje = Mensaje(texto: string, esRemoto: bool)

  /** The messages the screen starts with. */
  const SEEDED: seq<Mensaje> := [
    Mensaje("¡Hola! ¿Ya viste el video?", true),
    Mensaje("Sí", false),
    Mensaje("Me hizo reir", true),
    Mensaje("\U{1F602}", false)
  ]

  /** The screen's remembered state: the message list and the text field's content. */
  datatype Chat = Chat(mensajes: seq<Mensaje>, nuevoMensaje: string)

  const INITIAL: Chat := Chat(SEEDED, "")

  /** What the send button does: a non-blank draft is trimmed, appended as a local message and cleared. */
  function Send(c: Chat): (r: Chat)
    ensures IsBlank(c.nuevoMensaje) ==> r == c
    ensures !IsBlank(c.nuevoMensaje) ==>
      && |r.mensajes| == |c.mensajes| + 1
      && r.mensajes[..|c.mensajes|] == c.mensajes
      && r.mensajes[|c.mensajes|] == Mensaje(Trim(c.nuevoMensaje), false)
      && r.nuevoMensaje == ""
  {
    if IsBlank(c.nuevoMensaje) then c
    else Chat(c.mensajes + [Mensaje(Trim(c.nuevoMensaje), false)], "")
  }

  /** Typing replaces the draft and leaves the messages alone. */
  function Type(c: Chat, text: string): Chat {
    c.(nuevoMensaje := text)
  }

  /** A message that the local user sent: non-empty text with no whitespace at either end. */
  predicate SentByUser(m: Mensaje) {
    !m.esRemoto && m.texto != [] && Trimmed(m.texto)
  }

  /**
   * The conversation's invariant: it begins with the four seeded messages, in their order,
   * and everything after them was sent by the user.
   */
  ghost predicate Consistent(c: Chat) {
    && |c.mensajes| >= |SEEDED|
    && c.mensajes[..|SEEDED|] == SEEDED
    && forall i :: |SEEDED| <= i < |c.mensajes| ==> SentByUser(c.mensajes[i])
  }

  /** A successful send appends a message with non-empty, trimmed text. */
  lemma SentTextIsClean(c: Chat)
    requires !IsBlank(c.nuevoMensaje)
    ensures SentByUser(Send(c).mensajes[|c.mensajes|])
  {
  }

  lemma InitialConsistent()
    ensures Consistent(INITIAL)
  {
    assert INITIAL.mensajes[..|SEEDED|] == SEEDED;
  }

  lemma SendKeepsConsistent(c: Chat)
    requires Consistent(c)
    ensures Consistent(Send(c))
  {
    if !IsBlank(c.nuevoMensaje) {
      var r := Send(c);
      assert r.mensajes[..|SEEDED|] == r.mensajes[..|c.mensajes|][..|SEEDED|];
      forall i | |SEEDED| <= i < |r.mensajes| ensures SentByUser(r.mensajes[i]) {
        if i < |c.mensajes| {
          assert r.mensajes[i] == r.mensajes[..|c.mensajes|][i];
        }
      }
    }
  }

  /** The user's actions on the screen. */
  datatype ChatEvent = Typed(text: string) | SendClick

  function Apply(c: Chat, e: ChatEvent): Chat {
    match e
    case Typed(text) => Type(c, text)
    case SendClick => Send(c)
  }

  function Run(c: Chat, es: seq<ChatEvent>): Chat
    decreases |es|
  {
    if es == [] then c else Run(Apply(c, es[0]), es[1..])
  }

  /** Whatever the user types and sends, the conversation stays consistent and never shrinks. */
  lemma {:induction false} RunKeepsConsistent(c: Chat, es: seq<ChatEvent>)
    requires Consistent(c)
    ensures Consistent(Run(c, es))
    ensures |Run(c, es).mensajes| >= |c.mensajes| && Run(c, es).mensajes[..|c.mensajes|] == c.mensajes
    decreases |es|
  {
    if es != [] {
      var c' := Apply(c, es[0]);
      if es[0].SendClick? { SendKeepsConsistent(c); }
      RunKeepsConsistent(c', es[1..]);
      var r := Run(c, es);
      assert r.mensajes[..|c.mensajes|] == r.mensajes[..|c'.mensajes|][..|c.mensajes|];
    }
  }

  /** From the start, the screen always shows the four seeded messages first. */
  lemma SeededAlwaysFirst(es: seq<ChatEvent>)
    ensures |Run(INITIAL, es).mensajes| >= 4 && Run(INITIAL, es).mensajes[..4] == SEEDED
  {
    InitialConsistent();
    RunKeepsConsistent(INITIAL, es);
  }

  /** `List.reversed()`: the order in which `mensajes` is handed to the list view. */
  function Reversed(ms: seq<Mensaje>): (r: seq<Mensaje>)
    ensures |r| == |ms|
    ensures forall i :: 0 <= i < |ms| ==> r[i] == ms[|ms| - 1 - i]
  {
    if ms == [] then [] else Reversed(ms[1..]) + [ms[0]]
  }

  /** After a successful send the new message is the list view's first item (drawn at the bottom). */
  lemma SentMessageListedFirst(c: Chat)
    requires !IsBlank(c.nuevoMensaje)
    ensures Reversed(Send(c).mensajes)[0] == Mensaje(Trim(c.nuevoMensaje), false)
  {
  }

  datatype Arrangement = Start | End
  datatype Color = DarkGray | Argb(value: int)

  /** The green used for the user's own bubbles, `Color(0xFF1DB954)`. */
  const SENT_GREEN: Color := Argb(0xFF1DB954)

  datatype Bubble = Bubble(color: Color, alignment: Arrangement)

  /** `BurbujaMensaje`: colour and side of a message's bubble. */
  function BurbujaMensaje(m: Mensaje): (b: Bubble)
    ensures b.alignment == Start <==> m.esRemoto
    ensures b.color == DarkGray <==> m.esRemoto
    ensures !m.esRemoto ==> b == Bubble(SENT_GREEN, End)
  {
    Bubble(if m.esRemoto then DarkGray else SENT_GREEN, if m.esRemoto then Start else End)
  }

  /** Every message the user sent is drawn as a green bubble on the right. */
  lemma SentMessagesDrawnRight(c: Chat, i: int)
    requires Consistent(c) && |SEEDED| <= i < |c.mensajes|
    ensures BurbujaMensaje(c.mensajes[i]) == Bubble(SENT_GREEN, End)
  {
  }

  /** The screen's remembered state, updated in place by the text field and the send button. */
  class ConversacionScreen {
    var mensajes: seq<Mensaje>
    var nuevoMensaje: string

    ghost function State(): Chat
      reads this
    {
      Chat(mensajes, nuevoMensaje)
    }

    constructor ()
      ensures State() == INITIAL
    {
      mensajes := SEEDED;
      nuevoMensaje := "";
    }

    /** The text field's `onValueChange`. */
    method OnValueChange(text: string)
      modifies this
      ensures State() == Type(old(State()), text)
    {
      nuevoMensaje := text;
    }

    /** The send button's `onClick`; `sent` says whether a message was appended. */
    method OnSendClick() returns (sent: bool)
      modifies this
      ensures sent <==> !IsBlank(old(nuevoMensaje))
      ensures State() == Send(old(State()))
    {
      sent := !IsBlank(nuevoMensaje);
      if sent {
        mensajes := mensajes + [Mensaje(Trim(nuevoMensaje), false)];
        nuevoMensaje := "";
      }
    }

    /** The items handed to the list view, newest first. */
    function ListItems(): (items: seq<Mensaje>)
      reads this
      ensures |items| == |mensajes|
      ensures forall i :: 0 <= i < |mensajes| ==> items[i] == mensajes[|mensajes| - 1 - i]
    {
      Reversed(mensajes)
    }
  }
}
