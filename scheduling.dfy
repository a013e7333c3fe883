/**
 * The automatic-send setting of `configurar_envio_automatico` and the jobs that
 * `configurar_agendamento` installs for it: disabled, daily at 09:00, or Mondays at 09:00.
 */
module Scheduling {
  import opened Common
  import opened Text

  /** The choices offered by the configuration dialog. */
  const Choices: seq<string> := ["Desativado", "Diário", "Semanal"]

  /** `[op.lower() for op in opcoes]`. */
  function LoweredChoices(): (r: seq<string>)
    ensures |r| == |Choices|
  {
    seq(|Choices|, i requires 0 <= i < |Choices| => Lower(Choices[i]))
  }

  /** The settings that can be stored. */
  predicate IsSetting(s: string)
  {
    s == "desativado" || s == "diário" || s == "semanal"
  }

  lemma LoweredChoicesAreSettings()
    ensures forall s :: s in LoweredChoices() <==> IsSetting(s)
  {
    LowerCapitalized("desativado");
    LowerCapitalized("diário");
    LowerCapitalized("semanal");
    assert LoweredChoices() == ["desativado", "diário", "semanal"];
  }

  /** Lowering a lower-case word with its first letter capitalised. */
  lemma LowerCapitalized(word: string)
    requires word != [] && 'a' <= word[0] <= 'z'
    requires forall i :: 0 <= i < |word| ==> LowerChar(word[i]) == word[i]
    ensures Lower([(word[0] as int - 32) as char] + word[1..]) == word
  {
    LowerUnchanged(word[1..]);
  }

  /** The setting stored for an answer of the dialog, or `None` for "Opção inválida."
      (cancelled, empty, or not one of the choices in any letter case). */
  function AcceptChoice(answer: Option<string>): (r: Option<string>)
    ensures r.Some? <==> answer.Some? && IsSetting(Lower(answer.value))
    ensures r.Some? ==> r.value == Lower(answer.value) && IsSetting(r.value)
  {
    LoweredChoicesAreSettings();
    if answer.Some? && answer.value != "" && Lower(answer.value) in LoweredChoices() then
      Some(Lower(answer.value))
    else
      None
  }

  /** Letter case does not matter: an answer and its lower-case form are treated alike. */
  lemma AcceptChoiceIgnoresCase(answer: string)
    ensures AcceptChoice(Some(answer)) == AcceptChoice(Some(Lower(answer)))
  {
    LowerIdempotent(answer);
  }

  /** An answer in capitals is accepted and stored in lower case. */
  lemma AcceptWeeklyInCapitals()
    ensures AcceptChoice(Some("SEMANAL")) == Some("semanal")
  {
    LowerAt("SEMANAL");
    assert Lower("SEMANAL") == "semanal";
  }

  /** Capitals outside ASCII are lowered too. */
  lemma AcceptDailyInCapitals()
    ensures AcceptChoice(Some("DIÁRIO")) == Some("diário")
  {
    LowerAt("DIÁRIO");
    assert Lower("DIÁRIO") == "diário";
  }

  /** A word that is not one of the choices is refused. */
  lemma RefuseOtherWord()
    ensures AcceptChoice(Some("weekly")) == None
  {
    LowerUnchanged("weekly");
  }

  /** How often a job runs. */
  datatype Recurrence = EveryDay | EveryMonday

  /** A job of the scheduler: run `gerar_e_enviar_lista(automatico=True)` at the given
      time of day. */
  datatype Job = Job(recurrence: Recurrence, hour: nat, minute: nat, automatic: bool)

  /** The jobs `configurar_agendamento` installs for a stored setting, after clearing all
      previous ones: at most one, always at 09:00 and always in automatic mode. */
  function JobsFor(setting: Option<string>): (jobs: seq<Job>)
    ensures |jobs| <= 1
    ensures forall j :: j in jobs ==> j.hour == 9 && j.minute == 0 && j.automatic
    ensures jobs == [] <==> setting != Some("diário") && setting != Some("semanal")
    ensures setting == Some("diário") ==> jobs[0].recurrence == EveryDay
    ensures setting == Some("semanal") ==> jobs[0].recurrence == EveryMonday
  {
    if setting == Some("diário") then [Job(EveryDay, 9, 0, true)]
    else if setting == Some("semanal") then [Job(EveryMonday, 9, 0, true)]
    else []
  }
}
