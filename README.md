# Shopping-list manager: due prediction, dispatch gate, item store and auto-send setting

The modelled program is a small desktop shopping-list app. It keeps a set of
recurring purchase items, each with an interval in days (`duracao`) and the date it
was last bought (`ultima_compra`). It predicts which items are due for repurchase.
It then formats a "Lista de Compras" message and sends it to a configured WhatsApp
number, either when the user presses a button or automatically, every day or every
Monday at 09:00.

The Dafny model covers:

- **Due predictor** (`Prediction`, `ShoppingListManager.ShoppingList`). An item is
  due when the whole days since its last purchase reach 80% of its interval. The
  model states this on integers as `5 * days >= 4 * interval`. The result lists
  the due items in the item map's insertion order.
- **Dispatch gate** (`Dispatch`, `ShoppingListManager.GenerateAndSend`). It builds
  the message text. It decides whether the single send attempt happens: the mode
  (manual or automatic), the user's yes/no, an empty list and a missing phone number
  all play a part.
- **Item-store mutations** (`ShoppingListManager.AddItem`, `EditItem`,
  `DeleteItem`, `RegisterPurchase`). These change `dados['itens']` in place, with
  Python's dict ordering: assigning an existing key keeps its place, a new key goes
  last, and `pop`/`del` remove a key.
- **Auto-send setting and scheduling** (`Scheduling`,
  `ShoppingListManager.ConfigureAutoSend`, `Reschedule`). The dialog answer is
  matched against "Desativado", "Diário" and "Semanal" ignoring letter case. The
  setting is stored lower-cased. The scheduler is cleared, and then at most one job
  is installed: daily at 09:00 or Mondays at 09:00.

Dates are day numbers, and `today` is a parameter. Dialog answers, the list-box
selection and the yes/no confirmations are parameters too. The message boxes
become the returned `Feedback`; its `KeyError` case stands for an uncaught
exception, which shows no dialog. The WhatsApp send becomes the `Outcome` of a
dispatch, and `SendCalls` counts the sender calls (0 or 1).

`Text` models the string operations the code depends on:

- `str.lower()`, for ASCII capitals and the Latin-1 capitals U+00C0–U+00DE other
  than U+00D7. Every character whose lower case is a letter of "desativado",
  "diário" or "semanal" is in that range. So the set of accepted answers is exactly
  Python's.
- `int()` on the duration field.
- `"\n".join`, which builds the message. The code never splits text. `Split`
  (`split("\n")`) exists only as the inverse of the join, so that
  `Dispatch.MessageLines` can state which lines the message holds.

Three points to note:

- The stored settings are the lower-case Portuguese words the code writes:
  "desativado", "diário" and "semanal".
- Intervals may be zero or negative. `int()` and `askinteger` accept them, and such
  an item is due as soon as it is bought.
- Editing an item without renaming it moves it to the end of the order, because
  the code pops the key and inserts it again.

## Model

| member | source | states |
|---|---|---|
| Common.Without | __main__.py:84 | `del`/`pop` of a key: exactly that key disappears from the order, the others stay, and no key is then listed twice; removing an absent key changes nothing, and removing a present key of a duplicate-free order shortens it by one |
| Common.WithoutAppend | __main__.py:69 | removing a key from two runs of keys removes it from each and keeps the runs in order, so the remaining keys keep their relative order |
| Common.AfterAssign | __main__.py:48 | `d[k] = v` on the key order: an existing key keeps its place, a new key is appended, and no key is then listed twice |
| Text.LowerIdempotent | __main__.py:160 | lower-casing a lower-cased answer changes nothing |
| Text.Lower | __main__.py:160 | `str.lower()` character by character, keeping the length; LowerIdempotent and AcceptChoice state what it does to the dialog answer |
| Text.ParseInt | __main__.py:47 | `int()` on the duration text, `None` for the `ValueError`: a number is accepted only from a stripped text of one to 4300 digits plus a sign, and a negative value only after a minus sign; ParseIntRoundTrip, ParseIntRefusesNonNumbers and ParseIntRefusesTooManyDigits state its behaviour |
| Text.ParseIntRoundTrip | __main__.py:47 | `int(str(n)) == n` for every integer of at most 4300 digits, signs included |
| Text.ParseIntRefusesTooManyDigits | __main__.py:47 | a run of more than 4300 digits is refused as not an integer, whatever its value, leading zeros included |
| Text.Join | __main__.py:145 | `"\n".join`: it starts with the first line and holds a separator between every two lines; SplitJoin and Dispatch.MessageLines state that splitting the joined lines gives them back |
| Text.ParseIntRefusesNonNumbers | __main__.py:46-55 | text with no digit at all (a word, an empty or blank field) is refused as not an integer |
| Prediction.IsDue | __main__.py:112-114 | "due" is 5 × elapsed days ≥ 4 × interval, the integer form of `dias_passados >= duracao * 0.8`: an item with a zero or negative interval is due from the day it is bought, one with a positive interval is not due that day; DueFromFirstDueDay and MilkAndRice state what it means |
| Prediction.DueItems | __main__.py:110-116 | the due list is a filter of the key order: never longer than it, and every listed name is a tracked, due item; DueItemsMembership, DueItemsAppend and DueItemsDistinct state its properties, and ShoppingList's loop is proved equal to it |
| Prediction.DueFromFirstDueDay | __main__.py:112-114 | the 80% test holds exactly from the day of last purchase plus 80% of the interval rounded up, never before |
| Prediction.MilkAndRice | __main__.py:113-115 | interval 10 with 8 days elapsed is due (inclusive boundary), interval 30 with 8 days is not, interval 10 with 7 days is not |
| Prediction.DueItemsMembership | __main__.py:110-116 | a name is in the due list iff it is a tracked item whose elapsed days reach 80% of its interval |
| Prediction.DueItemsAppend | __main__.py:111-115 | the due list of two runs of keys is the first run's due list followed by the second's: insertion order is kept |
| Prediction.DueItemsDistinct | __main__.py:110-116 | no name is listed twice, and the list is never longer than the item map |
| Prediction.DueItemsAllDue | __main__.py:111-115 | when every tracked item is due, the list is the whole key order: nothing is dropped or reordered |
| Prediction.DueItemsNoneDue | __main__.py:111-115 | when no tracked item is due, the list is empty |
| Dispatch.Message | __main__.py:145 | the message starts with the line "Lista de Compras:" and, when something is due, then with the bullet of the first due item; MessageLines states which lines it holds |
| Dispatch.MessageLines | __main__.py:145 | the message splits into the line "Lista de Compras:" followed by `"- " + item` for each due item, in order |
| Dispatch.SendGate | __main__.py:118-134 | one send attempt with the configured number iff it is present and non-empty; otherwise none and the "not configured" error |
| Dispatch.Decide | __main__.py:136-152 | an empty list never sends and shows its notice only in manual mode; a non-empty list sends at most once, iff (automatic or confirmed) and a phone number is set; declining sends nothing; the text sent is the formatted message |
| Dispatch.AutomaticIgnoresAnswer | __main__.py:146-147 | automatic mode gives the same outcome whatever the confirmation answer would have been |
| Scheduling.LoweredChoices | __main__.py:156-160 | `[op.lower() for op in opcoes]`, one entry per choice; LoweredChoicesAreSettings states that it is exactly the three settings |
| Scheduling.LoweredChoicesAreSettings | __main__.py:156-160 | the lower-cased choices are exactly "desativado", "diário" and "semanal" |
| Scheduling.AcceptChoice | __main__.py:160-161 | an answer is accepted iff its lower-case form is one of the three settings, and that lower-case form is what gets stored |
| Scheduling.AcceptChoiceIgnoresCase | __main__.py:160 | an answer and its lower-case form are accepted or refused alike, with the same stored value |
| Scheduling.AcceptWeeklyInCapitals | __main__.py:160-161 | "SEMANAL" is accepted and stored as "semanal" |
| Scheduling.AcceptDailyInCapitals | __main__.py:160-161 | "DIÁRIO" is accepted and stored as "diário", lowering the accented capital too |
| Scheduling.RefuseOtherWord | __main__.py:160-166 | "weekly", not one of the choices, is refused |
| Scheduling.JobsFor | __main__.py:168-174 | at most one job, always at 09:00 and in automatic mode: daily for "diário", Mondays for "semanal", none for anything else |
| Manager.ShoppingListManager.constructor | __main__.py:242-253 | start-up from loaded data ends with the jobs matching the stored setting |
| Manager.ShoppingListManager.AddItem | __main__.py:41-57 | empty fields or a non-integer duration change nothing and report the error; otherwise the item is stored as bought today, replacing a same-named item in place or going last |
| Manager.ShoppingListManager.EditItem | __main__.py:59-76 | no selection, a cancelled or empty name, or a cancelled duration change nothing; otherwise the old key is removed and the new name holds the new interval and today's date, overwriting an existing entry of that name in place or going last; all other entries are unchanged |
| Manager.ShoppingListManager.DeleteItem | __main__.py:78-89 | after a yes, exactly the selected item is removed and the others keep their order; no selection or a no changes nothing |
| Manager.ShoppingListManager.RegisterPurchase | __main__.py:91-100 | only the selected item's last purchase becomes today, keeping its interval and place; with a positive interval it is then not due today |
| Manager.ShoppingListManager.ShoppingList | __main__.py:102-116 | the loop returns exactly the due tracked items, each once, in insertion order, and changes nothing |
| Manager.ShoppingListManager.GenerateAndSend | __main__.py:136-152 | the outcome is the dispatch gate applied to the current due list; at most one send per call |
| Manager.ShoppingListManager.ConfigureAutoSend | __main__.py:154-166 | an accepted answer is stored lower-cased and the jobs are rebuilt from it; any other answer leaves the setting and the jobs untouched |
| Manager.ShoppingListManager.Reschedule | __main__.py:168-174 | after clearing, the installed jobs are those of the stored setting alone, whatever was installed before |

## Left out

- JSON load and save (`carregar_dados`, `salvar_dados`): file I/O. The model's state is the in-memory `dados` that each operation would then save. The constructor takes the loaded data as arguments.
- Dates as `"%Y-%m-%d"` strings, `datetime.now()` and `strptime`: dates are day numbers and today is a parameter. A malformed stored date, which makes `strptime` raise, cannot be expressed.
- Prediction.IsDue: Python compares an integer with the float `duracao * 0.8`. The model uses the exact test `5 * days >= 4 * duracao`. It does not model the rounding of that float product, which matters only for intervals of about 5·2^50 (5.6·10^15) days or more. From there on the double product can round a fractional part of .2 down: for interval 5629499534213124 the double is 4503599627370499.0 while 4·interval/5 is 4503599627370499.2, so on day 4503599627370499 Python calls the item due and the model does not. Intervals of magnitude 2^1024 − 2^970 or more (309 digits or more, which `int()` accepts) make `duracao * 0.8` raise `OverflowError`. `gerar_lista_compras` then returns no list: the manual button shows nothing, and in automatic mode the exception leaves `schedule.run_pending()` and ends the scheduler loop, so no later scheduled send happens. The model has no such error: `IsDue` is false for such an item (true if it is negative), and the other due items are listed and sent.
- Manager.ShoppingListManager.GenerateAndSend: does not model the `OverflowError` described in the line above; for an item with such an interval it returns the outcome for the remaining due items, where the program sends nothing and, in automatic mode, stops scheduling.
- Text.ParseInt: `int()` also accepts underscores between digits, non-ASCII decimal digits and non-ASCII whitespace. The model refuses these. It models the default limit of 4300 digits, not a limit changed through `PYTHONINTMAXSTRDIGITS` or `sys.set_int_max_str_digits`.
- Text.LowerChar: lower-casing outside ASCII and Latin-1 is not modelled. It cannot change which answers are accepted (see above).
- The WhatsApp sender (`pywhatkit.sendwhatmsg_instantly`), its exception handling, the console messages and the 10-second `time.sleep`: a send is an `Outcome` value. A failing send ends the same way as a successful one, because the failure is caught and not retried.
- The `schedule` library's run loop, `executar_agendamento` and the background thread: concurrency and library internals. Only the installed jobs are modelled, not when they fire.
- The Tkinter window, its widgets, `atualizar_lista_itens` and the text of message boxes: UI. Dialog answers and the selection are parameters, and message boxes are `Feedback` values.
- `definir_numero_telefone`: not part of this model. The phone number is given at start-up.
