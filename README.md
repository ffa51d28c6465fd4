# Contact list widget — a Dafny model

The widget is a small browser agenda. A button opens a modal that fetches the
contact list from a remote endpoint and renders one card per contact. It shows
an empty-state placeholder when there is nothing to show. A form posts new
contacts after client-side validation. All of this lives in `script.js`. This
project models its sequential core:

- `Text`: the whitespace trimming the form relies on (a simplified
  `String.prototype.trim`).
- `Validation`: `validateFormData`. Three ordered, short-circuiting checks on
  trimmed lengths (name ≥ 2, surname ≥ 2, phone ≥ 7). The first failure picks
  the message, modelled as `Valid | Invalid(reason)`.
- `ContactList`: the contact record and `displayContacts`' output as a value:
  `Loading`, the fixed `EmptyState`, or `Cards` in input order.
- `Notification`: what `showMessage` writes into the message area: the icon,
  the text after one space, the type class and `show`.
- `Workflow`: the event handlers as methods of the class `Controller`. Its
  fields are the modal's visibility, the list container, the message area,
  the three form inputs, the number of pending timers (reload and
  auto-hide), and the number of requests in flight (list fetches and POSTs). A network result is a parameter: `Option<seq<Contact>>` for the
  list fetch, and `Option<Contact>` for the POST, whose reply body the handler
  never reads.
  Each handler that awaits a request is split at its `await`. For
  `loadContacts`, `BeginLoad` shows the loading placeholder and sends the
  request, and `FinishLoad` handles the resolved fetch. For the submit
  handler, `Submit` validates and sends, and `HandleReply` handles the reply.
  `HandleReply` acts on the modal and form as they are when the reply
  arrives. A resolution or timer callback is a method the event loop may
  call while that request or timer is pending; other handlers may run in
  between.
- `Scenarios`: end-to-end scenarios, written as client methods and verified
  from the contracts. Open the modal and load two
  contacts; a failed load; accepted and rejected submissions; Escape and
  clicks; the modal closed while a submission is in flight; and the early hide of a replaced message (the auto-hide timer is
  never cancelled).

## Model

| member | source | states |
|---|---|---|
| `Text.TrimStartShape` | script.js:86 | leading trim yields the suffix starting at the first non-space character, and all dropped characters are whitespace |
| `Text.TrimEndShape` | script.js:86 | trailing trim yields the prefix ending at the last non-space character, and all dropped characters are whitespace |
| `Text.TrimHasCleanEnds` | script.js:86 | a trimmed string is no longer than the input and neither starts nor ends with whitespace |
| `Text.TrimIsSlice` | script.js:86 | the trimmed string is a contiguous slice of the input with only whitespace outside it |
| `Text.TrimOfClean` | script.js:86 | a string without whitespace at either end trims to itself |
| `Text.TrimIdempotent` | script.js:195-197 | trimming twice equals trimming once |
| `Text.TrimEmptyIffAllSpace` | script.js:86 | a string trims to empty exactly when it is whitespace only |
| `Validation.Validate` | script.js:85-102 | the form is valid exactly when trimmed name ≥ 2, trimmed surname ≥ 2 and trimmed phone ≥ 7 characters |
| `Validation.NameCheckWins` | script.js:86-89 | a short trimmed name is the reason whatever the other fields hold |
| `Validation.SurnameCheckSecond` | script.js:91-94 | the surname is the reason exactly when the name passes and the trimmed surname is short |
| `Validation.PhoneCheckThird` | script.js:96-99 | the phone is the reason exactly when name and surname pass and the trimmed phone is short |
| `Validation.ReasonMessagesDistinct` | script.js:87-97 | the three error messages are pairwise different, so the message identifies the failing field |
| `Validation.ValidateTrimmed` | script.js:195-200 | validating the trimmed fields gives the same verdict as validating the raw fields |
| `Validation.BlankNameRejected` | script.js:86-89 | a whitespace-only name is rejected for the name |
| `Validation.ExampleEmptyName` | script.js:86-89 | ("", "Smith", "1234567") is rejected for the name |
| `Validation.ExampleShortSurname` | script.js:91-94 | ("Al", "S", "1234567") is rejected for the surname |
| `Validation.ExampleShortPhone` | script.js:96-99 | ("Al", "Smith", "123") is rejected for the phone |
| `Validation.ExampleValid` | script.js:85-102 | ("Al", "Smith", "1234567") is valid |
| `ContactList.CardsOf` | script.js:133-143 | one card per contact: as many cards as contacts |
| `ContactList.CardsOfAt` | script.js:133-143 | card i is the card of contact i (input order kept) |
| `ContactList.CardsOfSnoc` | script.js:133-143 | appending a contact appends exactly its card to the cards so far |
| `ContactList.RenderNullLikeEmpty` | script.js:122-130 | null and the empty list both render as the empty state |
| `ContactList.RenderCards` | script.js:133-143 | a non-empty list renders exactly its length in cards; card i is titled nombre + " " + apellido of contact i and shows its telefono |
| `ContactList.RenderEmptyIff` | script.js:119-143 | the empty state appears exactly for null or no contacts; rendering never yields the loading view |
| `Notification.NoticeOfContent` | script.js:53-70 | the message carries the given type as its class, the icon of that type, and the text after one space |
| `Notification.NoticeOfInjective` | script.js:53-70 | two messages look the same only for the same text and type |
| `Workflow.SubmitVerdictRaw` | script.js:195-200 | trimming then validating, as the submit handler does, gives the verdict of the raw inputs |
| `Workflow.Controller.constructor` | script.js:107-113 | initial state: modal closed, nothing shown, empty form, no timers pending, no requests in flight |
| `Workflow.Controller.ShowMessage` | script.js:51-76 | the previous message is replaced and shown, and one more hide timer is pending; nothing else changes |
| `Workflow.Controller.HideTimerFires` | script.js:73-75 | `show` is removed from whatever message is current, and one fewer hide timer is pending |
| `Workflow.Controller.DisplayContacts` | script.js:119-144 | whatever the container held before, it ends holding exactly the rendering of the input; nothing else changes |
| `Workflow.Controller.BeginLoad` | script.js:151-158 | the list shows the loading placeholder and one more list request is in flight |
| `Workflow.Controller.FinishLoad` | script.js:158-165 | only while a list request is in flight: one fewer is in flight, the list is the rendering of the fetch result, the message is untouched on success, and on failure the load-error message is shown |
| `Workflow.Controller.ShowModal` | script.js:176-179 | the modal is open, the list shows the loading placeholder, and one more list request is in flight |
| `Workflow.Controller.CloseModal` | script.js:184-186 | the modal is closed |
| `Workflow.Controller.WindowClick` | script.js:235-239 | the modal closes on a backdrop click and is otherwise unchanged |
| `Workflow.Controller.KeyDown` | script.js:242-246 | Escape closes the modal; any other key leaves it unchanged, and Escape on a closed modal is a no-op |
| `Workflow.Controller.EditForm` | script.js:195-197 | the user's typing sets the three inputs |
| `Workflow.Controller.Submit` | script.js:191-209 | invalid input: no contact is sent, nothing is in flight and the first failing field's message is shown; valid input: the trimmed contact is sent, one more POST is in flight, and the message is untouched; the form is never changed |
| `Workflow.Controller.HandleReply` | script.js:211-221 | only while a POST is in flight: one fewer is in flight; on success: success message, form reset, and one reload scheduled only if the modal is open at reply time; on failure: error message, form unchanged, no reload |
| `Workflow.Controller.RefreshTimerFires` | script.js:216-217 | the delayed reload starts a load (loading placeholder, one more list request in flight) even if the modal has been closed since |

## Left out

- `fetchContacts` and `addContact` (script.js:8-44) are network I/O. Only their outcome is modelled, as an `Option` parameter; every failure mode collapses to `None`, as the source does.
- The outer `try/catch` branches (script.js:166-170, 222-225) are not modelled. The request functions never throw, but the code around them can.
  - In `loadContacts`, `displayContacts` throws when a fetch succeeds with a value that is not an array of contact objects: `forEach` on a non-array, or reading a field of a `null` element after the earlier cards are already appended. The catch then renders the empty state and shows "Error al cargar los contactos.".
  - In the submit handler, the catch shows "Error al enviar el contacto.".
  - The model's fetch result is always a sequence of contacts, so neither branch is reachable in it.
- Console logging is not modelled.
- Timer delays (3000 ms auto-hide, 1000 ms reload) are not modelled. A scheduled callback is a counter of pending timers, and its firing is a method the caller may invoke while one is pending.
- Requests carry no identity, only counts in flight. With several list fetches (or POSTs) in flight, any one reply may arrive next, and the result of a stale fetch resolving last wins, as in the source. The model does not record which request a reply answers.
- DOM markup, `innerHTML` text, emoji, CSS icon classes and inline styles are not modelled. The loading and empty-state placeholders are opaque constants.
- Card fields are inserted into `innerHTML` without escaping (script.js:137-140), so a field holding markup or entities is parsed as HTML rather than shown as typed. A `Card`'s strings are the text before that parsing.
- The initial markup of the page is not part of this model. The constructor assumes an empty list container, a hidden message and empty inputs.
- `contactForm.reset()` is taken to empty the three inputs. Their default values live in the page markup, which is not part of this model.
- `Text.IsSpace` covers the ASCII spaces and line terminators, U+00A0, U+FEFF, U+2028 and U+2029, not the full Unicode space category that `trim` removes.
- Lengths count Unicode scalar values, while JavaScript's `length` counts UTF-16 code units. A character outside the Basic Multilingual Plane counts 1 here and 2 in the source.
- JavaScript's null/undefined coercion (`!nombre`) is not modelled. Dafny strings are never null, and the length check already rejects the empty string.
- A fetch that succeeds with a JSON value other than an array of contacts is not modelled.
- `showMessage` with a type other than "success" or "error" is not modelled; the source never makes such a call.
