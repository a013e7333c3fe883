/**
 * The dispatch gate of `gerar_e_enviar_lista` and `enviar_whatsapp`: the message built
 * from the due items, and whether the WhatsApp send is attempted.
 */
module Dispatch {
  import opened Common
  import opened Text

  /** The first line of every shopping-list message. */
  const Header: string := "Lista de Compras:"

  /** One bullet line `"- " + item` per due item, in order. */
  function Bullets(due: seq<string>): seq<string>
  {
    seq(|due|, i requires 0 <= i < |due| => "- " + due[i])
  }

  /** `"Lista de Compras:\n" + "\n".join(f"- {item}" for item in lista_compras)`. */
  function Message(due: seq<string>): (r: string)
    ensures Header + "\n" <= r
    ensures due != [] ==> Header + "\n- " + due[0] <= r
  {
    Header + "\n" + Join(Bullets(due))
  }

  /** The message reads back as the header line followed by one bullet per due item,
      in order, provided no item name holds a line break. */
  lemma MessageLines(due: seq<string>)
    requires due != []
    requires forall i :: 0 <= i < |due| ==> '\n' !in due[i]
    ensures |Split(Message(due))| == |due| + 1
    ensures Split(Message(due))[0] == Header
    ensures forall i :: 0 <= i < |due| ==> Split(Message(due))[i + 1] == "- " + due[i]
  {
    var lines := [Header] + Bullets(due);
    assert Join(lines) == Header + "\n" + Join(lines[1..]);
    assert lines[1..] == Bullets(due);
    forall i | 0 <= i < |lines|
      ensures '\n' !in lines[i]
    {
      if i > 0 {
        assert lines[i] == "- " + due[i - 1];
      }
    }
    SplitJoin(lines);
  }

  /** `if not numero_telefone`: a missing or empty phone number blocks the send. */
  predicate HasPhone(phone: Option<string>)
  {
    phone.Some? && phone.value != ""
  }

  /** What one press of "Gerar e Enviar Lista" (or one scheduled run) ends in. */
  datatype Outcome =
    | NothingToBuy(noticeShown: bool)            // empty list; the notice is shown only in manual mode
    | Declined(message: string)                  // manual mode, the user answered no
    | NoPhoneNumber(message: string)             // "Número de telefone não configurado."
    | SendAttempted(phone: string, message: string)  // one call of the WhatsApp sender

  /** How many times the WhatsApp sender is called. */
  function SendCalls(o: Outcome): nat
  {
    if o.SendAttempted? then 1 else 0
  }

  /** `enviar_whatsapp`: one send attempt when a phone number is configured, none
      otherwise. A failing send is caught and not retried, so it ends the same way. */
  function SendGate(phone: Option<string>, message: string): (o: Outcome)
    ensures o.SendAttempted? || o.NoPhoneNumber?
    ensures o.message == message
    ensures o.SendAttempted? <==> HasPhone(phone)
    ensures o.SendAttempted? ==> phone == Some(o.phone)
  {
    if HasPhone(phone) then SendAttempted(phone.value, message) else NoPhoneNumber(message)
  }

  /** `gerar_e_enviar_lista(automatico)` once the due list is known; `confirmed` is the
      yes/no answer, asked for only in manual mode with a non-empty list. */
  function Decide(due: seq<string>, automatic: bool, confirmed: bool, phone: Option<string>): (o: Outcome)
    ensures SendCalls(o) <= 1
    ensures SendCalls(o) == 1 <==> due != [] && (automatic || confirmed) && HasPhone(phone)
    ensures o.SendAttempted? ==> phone == Some(o.phone) && o.message == Message(due)
    ensures o.NothingToBuy? <==> due == []
    ensures o.NothingToBuy? ==> (o.noticeShown <==> !automatic)
    ensures o.Declined? <==> due != [] && !automatic && !confirmed
    ensures o.NoPhoneNumber? <==> due != [] && (automatic || confirmed) && !HasPhone(phone)
  {
    if due != [] then
      var message := Message(due);
      if automatic then SendGate(phone, message)
      else if confirmed then SendGate(phone, message)
      else Declined(message)
    else
      NothingToBuy(!automatic)
  }

  /** Automatic mode never asks, so the answer it is given makes no difference. */
  lemma {:induction false} AutomaticIgnoresAnswer(due: seq<string>, phone: Option<string>)
    ensures Decide(due, true, true, phone) == Decide(due, true, false, phone)
  {
  }
}
