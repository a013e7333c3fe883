/**
 * The app's shared state, `dados` and the scheduler's job list, and the operations the
 * buttons run on it. The dialogs' answers, the list-box selection and today's day number
 * are parameters; the message boxes are the returned `Feedback`.
 */
module Manager {
  import opened Common
  import opened Text
  import opened Prediction
  import opened Dispatch
  import opened Scheduling

  /** The message box an operation ends with (`Quiet` when it shows none, `KeyError`
      when an uncaught exception ends it without one). */
  datatype Feedback =
    | Done                // "Sucesso"
    | Quiet               // a dialog was cancelled or answered no: nothing shown, nothing changed
    | MissingFields       // "Preencha todos os campos."
    | NotAnInteger        // "A duração deve ser um número inteiro."
    | NoSelection         // "Selecione um item ..."
    | InvalidOption       // "Opção inválida."
    | KeyError            // the selected name is not a key of dados['itens']: an uncaught
                          // exception ends the callback, and no dialog is shown

  class ShoppingListManager {
    /** The keys of `dados['itens']` in insertion order. */
    var order: seq<string>
    /** `dados['itens']`. */
    var items: map<string, Item>
    /** `dados.get('numero_telefone')`. */
    var phone: Option<string>
    /** `dados.get('envio_automatico')`. */
    var autoSend: Option<string>
    /** The jobs installed in the scheduler. */
    var jobs: seq<Job>

    /** The key order lists every item once, and the installed jobs always match the
        stored setting. */
    ghost predicate Valid()
      reads this
    {
      && Distinct(order)
      && (forall k :: k in order <==> k in items)
      && jobs == JobsFor(autoSend)
    }

    /** Start-up with the loaded data (an empty item map when the file had none),
        followed by `configurar_agendamento()`. */
    constructor (order: seq<string>, items: map<string, Item>, phone: Option<string>, autoSend: Option<string>)
      requires Distinct(order)
      requires forall k :: k in order <==> k in items
      ensures Valid()
      ensures this.order == order && this.items == items
      ensures this.phone == phone && this.autoSend == autoSend
    {
      this.order := order;
      this.items := items;
      this.phone := phone;
      this.autoSend := autoSend;
      this.jobs := JobsFor(autoSend);
    }

    /** `adicionar_item`: both fields filled and the duration an integer, then the item is
        stored (replacing one of the same name in place) as bought today. */
    method AddItem(name: string, durationText: string, today: int) returns (fb: Feedback)
      requires Valid()
      modifies this`order, this`items
      ensures Valid()
      ensures fb == (if name == "" || durationText == "" then MissingFields
                     else if ParseInt(durationText).None? then NotAnInteger
                     else Done)
      ensures fb == Done ==> items == old(items)[name := Item(ParseInt(durationText).value, today)]
                             && order == AfterAssign(old(order), name)
      ensures fb != Done ==> items == old(items) && order == old(order)
    {
      if name != "" && durationText != "" {
        var duration := ParseInt(durationText);
        if duration.Some? {
          items := items[name := Item(duration.value, today)];
          order := AfterAssign(order, name);
          fb := Done;
        } else {
          fb := NotAnInteger;
        }
      } else {
        fb := MissingFields;
      }
    }

    /** `editar_item`: the selected item is popped and stored under the new name (replacing
        an item of that name in place, or going last) with the new duration, as bought
        today. A cancelled or empty name, or a cancelled duration, changes nothing. */
    method EditItem(selection: Option<string>, newName: Option<string>, newDuration: Option<int>, today: int)
      returns (fb: Feedback)
      requires Valid()
      modifies this`order, this`items
      ensures Valid()
      ensures selection.None? ==> fb == NoSelection
      ensures selection.Some? && (newName.None? || newName.value == "") ==> fb == Quiet
      ensures selection.Some? && newName.Some? && newName.value != "" ==>
                fb == (if selection.value !in old(items) then KeyError
                       else if newDuration.None? then Quiet
                       else Done)
      ensures fb == Done ==>
                && items == (old(items) - {selection.value})[newName.value := Item(newDuration.value, today)]
                && order == AfterAssign(Without(old(order), selection.value), newName.value)
      ensures fb != Done ==> items == old(items) && order == old(order)
    {
      if selection.None? {
        return NoSelection;
      }
      var oldName := selection.value;
      if newName.None? || newName.value == "" {
        return Quiet;
      }
      if oldName !in items {
        return KeyError;
      }
      if newDuration.None? {
        return Quiet;
      }
      var remaining := Without(order, oldName);
      items := (items - {oldName})[newName.value := Item(newDuration.value, today)];
      order := AfterAssign(remaining, newName.value);
      fb := Done;
    }

    /** `apagar_item`: after a yes, the selected item is deleted; the others keep their
        order and values. */
    method DeleteItem(selection: Option<string>, confirmed: bool) returns (fb: Feedback)
      requires Valid()
      modifies this`order, this`items
      ensures Valid()
      ensures fb == (if selection.None? then NoSelection
                     else if !confirmed then Quiet
                     else if selection.value !in old(items) then KeyError
                     else Done)
      ensures fb == Done ==> items == old(items) - {selection.value}
                             && order == Without(old(order), selection.value)
                             && |items| == |old(items)| - 1
      ensures fb != Done ==> items == old(items) && order == old(order)
    {
      if selection.None? {
        return NoSelection;
      }
      if !confirmed {
        return Quiet;
      }
      var name := selection.value;
      if name !in items {
        return KeyError;
      }
      items := items - {name};
      order := Without(order, name);
      fb := Done;
    }

    /** `registrar_compra`: the selected item's last purchase becomes today; its interval,
        its place and every other item are kept. An item with a positive interval is then
        not due today. */
    method RegisterPurchase(selection: Option<string>, today: int) returns (fb: Feedback)
      requires Valid()
      modifies this`items
      ensures Valid()
      ensures fb == (if selection.None? then NoSelection
                     else if selection.value !in old(items) then KeyError
                     else Done)
      ensures fb == Done ==>
                && items == old(items)[selection.value := Item(old(items)[selection.value].duration, today)]
                && (items[selection.value].duration > 0 ==> !IsDue(items[selection.value], today))
      ensures fb != Done ==> items == old(items)
    {
      if selection.None? {
        return NoSelection;
      }
      var name := selection.value;
      if name !in items {
        return KeyError;
      }
      items := items[name := Item(items[name].duration, today)];
      fb := Done;
    }

    /** `gerar_lista_compras`: the names of the items due today, in insertion order, each
        once; the data is only read. */
    method ShoppingList(today: int) returns (due: seq<string>)
      requires Valid()
      ensures due == DueItems(order, items, today)
      ensures forall k :: k in due <==> k in items && IsDue(items[k], today)
      ensures Distinct(due)
    {
      due := [];
      var i := 0;
      while i < |order|
        invariant 0 <= i <= |order|
        invariant due == DueItems(order[..i], items, today)
      {
        var name := order[i];
        var info := items[name];
        var elapsed := today - info.lastPurchase;
        if 5 * elapsed >= 4 * info.duration {
          due := due + [name];
        }
        assert order[..i + 1][..i] == order[..i];
        i := i + 1;
      }
      assert order[..i] == order;
      DueItemsMembership(order, items, today);
      DueItemsDistinct(order, items, today);
    }

    /** `gerar_e_enviar_lista(automatico)`: predict, then pass the list through the
        dispatch gate; `confirmed` is the answer to "Enviar para o WhatsApp?". */
    method GenerateAndSend(automatic: bool, confirmed: bool, today: int) returns (o: Outcome)
      requires Valid()
      ensures o == Decide(DueItems(order, items, today), automatic, confirmed, phone)
      ensures SendCalls(o) <= 1
    {
      var due := ShoppingList(today);
      o := Decide(due, automatic, confirmed, phone);
    }

    /** `configurar_envio_automatico`: an answer matching a choice in any letter case is
        stored lower-cased and the jobs are rebuilt; anything else changes nothing. */
    method ConfigureAutoSend(answer: Option<string>) returns (fb: Feedback)
      requires Valid()
      modifies this`autoSend, this`jobs
      ensures Valid()
      ensures fb == (if AcceptChoice(answer).Some? then Done else InvalidOption)
      ensures fb == Done ==> autoSend == AcceptChoice(answer) && IsSetting(autoSend.value)
      ensures fb != Done ==> autoSend == old(autoSend) && jobs == old(jobs)
    {
      var setting := AcceptChoice(answer);
      if setting.Some? {
        autoSend := setting;
        Reschedule();
        assert order == old(order) && items == old(items);
        fb := Done;
      } else {
        fb := InvalidOption;
      }
    }

    /** `configurar_agendamento`: clear every job, then install the one the stored setting
        asks for, if any; the previous jobs play no part. */
    method Reschedule()
      modifies this`jobs
      ensures jobs == JobsFor(autoSend)
    {
      jobs := [];
      if autoSend == Some("diário") {
        jobs := jobs + [Job(EveryDay, 9, 0, true)];
      } else if autoSend == Some("semanal") {
        jobs := jobs + [Job(EveryMonday, 9, 0, true)];
      }
    }
  }
}
