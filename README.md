# Lunch-order terminal app: form state machines and navigation controller

This project models the keystroke-driven core of a small terminal
application for logging lunches:

- **The lunch-order form** (`LunchOrder`).
  - Phase 0 asks for a restaurant name.
  - Phase 1 asks five fixed detail questions: score, food ordered, order again, visit outside of work, notes.
  - The focus moves between the questions and stops at both ends.
  - Enter on the last question submits the form.
  - On submission, the trimmed non-empty answers become a key→value object. When no answer is given, the metadata is the empty text.
- **The office-tally form** (`OfficeTally`).
  - It asks for the same name, then for one number.
  - Enter submits only when the trimmed text is a base-10 signed 64-bit integer. Otherwise it is silently ignored.
- **The navigation controller** (`App`).
  - It has three views: home, lunch order and office tally.
  - It routes every message to the current view. Ctrl+c quits without touching anything. Esc leaves a form, which is cleared.
  - It hands a submitted form's record to the store, keeps any store error, and resets the form.
  - After a lunch order it goes home. After a tally it stays on the tally screen and refocuses it.
- **Two library routines the forms depend on** (`Text`): strings.TrimSpace and strconv.ParseInt(s, 10, 64), written as specification functions. Input keys and the text-input widget are in `Input`.

Each form follows the same pattern:
- A state datatype holds the form's contents.
- A pure `Step` function describes the form's reaction to one key, and its contract states what the key does.
- An `Invariant` holds in every reachable state.
- A class with the program's own fields is updated field by field, like the original. Each of its methods is proved to produce exactly the state the corresponding function describes (`ensures State() == Step(old(State()), k)`).

The controller's `Model` class owns the two form objects, a home menu object and a store object. `Model.Update` is proved to agree with `App.Step`. `App.Step` guarantees that after every message neither form is left submitted, and that the store only grows by well-formed records.

Three collaborators are parameters rather than code:
- what the home menu reports after a message (home.go is not part of this model);
- how the store answers an insert: written, rejected, or written with a failed id read-back;
- what an ordinary key does to a focused input's text (`Key.Other(edit)`).

Behaviour of the code worth noting:
- The restaurant name is tested for emptiness without trimming, so a name of spaces advances (`LunchOrder.BlankNameAdvances`).
- Empty lunch metadata is handed to the store as the empty text, not as a null (`LunchOrder.MetadataText.EmptyText`).
- Neither form's Clear refocuses anything, and the office-tally Clear blurs nothing. After a tally submission both tally inputs are therefore focused, with only the name input receiving keys. The invariant states only that the input receiving keys is focused.

## Model

| member | source | states |
|---|---|---|
| Text.TrimLeftSpec | views/lunch_order.go:208 | TrimSpace's left pass keeps a suffix; every dropped character is white space and the first kept one is not |
| Text.TrimRightSpec | views/lunch_order.go:208 | TrimSpace's right pass keeps a prefix; every dropped character is white space and the last kept one is not |
| Text.TrimSpace | views/office_tally.go:73 | the result is a slice of the input with no white space at either end, and every character dropped before or after it is white space; it is empty exactly when the input is all white space; an input with no edge white space is returned unchanged |
| Text.IsSpace | views/office_tally.go:73 | unicode.IsSpace: within Latin-1 exactly tab, newline, vertical tab, form feed, carriage return, space, NEL and NBSP are white space; no digit is |
| Text.TrimSpaceIdempotent | views/office_tally.go:73 | trimming twice equals trimming once |
| Text.TrimPadded | views/office_tally.go:73 | a non-space character padded by one space on each side trims to itself (" 5 " to "5") |
| Text.ParseInt | views/office_tally.go:77-80 | succeeds exactly on an optional sign followed by one or more ASCII digits whose value lies in the signed 64-bit range, and then returns that value |
| Text.ParsedHasNoSpace | views/office_tally.go:73-77 | a string ParseInt accepts is left unchanged by TrimSpace |
| Text.NatToDecimalDigits | views/office_tally.go:77 | the reference decimal rendering of a natural number is a non-empty digit string whose value is that number |
| Text.ParseFormatRoundTrip | views/office_tally.go:77 | ParseInt inverts the decimal rendering of every 64-bit value |
| Text.ParseRejectsOutOfRange | views/office_tally.go:77-80 | the decimal rendering of a value outside the 64-bit range is rejected |
| Text.FormatIntUntrimmed | views/office_tally.go:73 | a decimal rendering has no edge white space, so TrimSpace leaves it alone |
| Text.ParseIntAccepts | views/office_tally.go:77-83 | "12", "+7", "-007" and "5" parse to 12, 7, -7 and 5 |
| Text.ParseIntRejects | views/office_tally.go:77-80 | "abc", "", "-", "1_000" and " 5" are rejected |
| Input.Focus | views/lunch_order.go:183 | the widget becomes focused and keeps its text |
| Input.Blur | views/lunch_order.go:191 | the widget loses the focus and keeps its text |
| Input.SetValue | views/lunch_order.go:223 | the text is replaced and the focus flag kept |
| Input.Type | views/lunch_order.go:142-148 | definition: a typing message, whose edit appends the typed text |
| Input.HandleKey | views/lunch_order.go:142-149 | a forwarded message never changes the focus flag; a blurred input ignores it; a control key leaves the text unchanged |
| LunchOrder.Initial | views/lunch_order.go:51-73 | the new form is in phase 0 at question 0, unsubmitted, every input empty and blurred, and satisfies the invariant |
| LunchOrder.Values | views/lunch_order.go:207-208 | definition: one text per question, the text of that question's input |
| LunchOrder.MoveFocus | views/lunch_order.go:96-100 | blurring the current question and focusing question `to` leaves exactly `to` focused and every text unchanged |
| LunchOrder.Forward | views/lunch_order.go:142-149 | a forwarded message reaches only the name input in phase 0 or the focused question in phase 1; phase, name, index, flag and every other input are unchanged |
| LunchOrder.Step | views/lunch_order.go:79-150 | the invariant is preserved. Phase 0: enter on an empty name changes nothing; a non-empty name is captured, the name input is blurred and question 0 becomes the only focused one. Phase 1: focus moves forward (enter, down, tab) or back (up, shift+tab) by one and stops at the ends. Enter on the last question submits, whatever the answers. Any key not consumed is forwarded. A new submission happens only by enter at the last question of phase 1 with a name, and changes no answer |
| LunchOrder.Run | views/lunch_order.go:79-150 | every key sequence preserves the invariant (index within 0..4, phase 0 at index 0 with no name, submitted only in phase 1); once in phase 1 the phase and the name stay |
| LunchOrder.NoEnterStaysInPhase0 | views/lunch_order.go:83-93 | without an enter the form never leaves phase 0 and never touches the questions |
| LunchOrder.EntersSubmit | views/lunch_order.go:95-105 | from question i of phase 1, 4 - i enters leave the form unsubmitted and one more submits it, at the last question, with the name and every answer unchanged |
| LunchOrder.BlankNameAdvances | views/lunch_order.go:84-90 | a name of two spaces is accepted and moves the form to phase 1 |
| LunchOrder.ScoreOnlyMetadata | views/lunch_order.go:205-217 | answers where only the score (" 8 ") is given produce the object {"score (1-10)": "8"} |
| LunchOrder.TorchedHopOrder | views/lunch_order.go:79-150 | "Torched Hop", enter, " 8 ", five enters: the form is submitted with that name and the metadata {"score (1-10)": "8"} |
| LunchOrder.FocusForm | views/lunch_order.go:181-187 | focus the input that receives keys; every text, every other input and every other field are unchanged |
| LunchOrder.BlurForm | views/lunch_order.go:189-195 | blur the input that receives keys; every text, every other input and every other field are unchanged |
| LunchOrder.ClearForm | views/lunch_order.go:220-230 | phase 0, no name, index 0, unsubmitted, the name text empty with its focus flag kept, every question empty and blurred |
| LunchOrder.ClearIdempotent | views/lunch_order.go:220-230 | clearing twice equals clearing once |
| LunchOrder.KeysDistinct | views/lunch_order.go:27-33 | the five question keys are pairwise distinct |
| LunchOrder.MetadataUpToAt | views/lunch_order.go:207-212 | after the loop has seen n questions, question j < n has its key in the map exactly when its trimmed answer is non-empty, mapped to that trimmed answer |
| LunchOrder.MetadataUpToKeys | views/lunch_order.go:207-212 | after n questions every key of the map is one of the first n keys |
| LunchOrder.MetadataOf | views/lunch_order.go:205-218 | the empty text exactly when every trimmed answer is empty; otherwise an object holding exactly the answered keys, each mapped to its trimmed answer, and no other key |
| LunchOrder.LunchOrderModel.constructor | views/lunch_order.go:51-73 | NewLunchOrderModel builds the state `Initial` describes, with five inputs |
| LunchOrder.LunchOrderModel.MoveTo | views/lunch_order.go:97-99 | the repeated blur/move/focus stanza produces `MoveFocus` |
| LunchOrder.LunchOrderModel.ForwardKey | views/lunch_order.go:142-149 | updating the active input produces `Forward` |
| LunchOrder.LunchOrderModel.Update | views/lunch_order.go:79-150 | the fields after Update are exactly `Step` of the fields before, and the invariant is kept |
| LunchOrder.LunchOrderModel.Focus | views/lunch_order.go:181-187 | produces `FocusForm` of the previous state |
| LunchOrder.LunchOrderModel.Blur | views/lunch_order.go:189-195 | produces `BlurForm` of the previous state |
| LunchOrder.LunchOrderModel.IsSubmitted | views/lunch_order.go:197-199 | a submitted form is in phase 1 with a non-empty name |
| LunchOrder.LunchOrderModel.SubmittedRestaurant | views/lunch_order.go:201-203 | the name is non-empty once submitted and empty in phase 0 |
| LunchOrder.LunchOrderModel.SubmittedMetadata | views/lunch_order.go:205-218 | the loop over the questions returns `MetadataOf` the current answers |
| LunchOrder.LunchOrderModel.Clear | views/lunch_order.go:220-230 | the loop over the questions produces `ClearForm` of the previous state |
| OfficeTally.Initial | views/office_tally.go:32-50 | the new form is in phase 0, unsubmitted, tally 0, both inputs empty and blurred |
| OfficeTally.TallyOf | views/office_tally.go:73-80 | no tally when the trimmed text is empty; a tally exactly when the trimmed text is a decimal in the 64-bit range, and then its value |
| OfficeTally.Forward | views/office_tally.go:88-95 | a forwarded message reaches only the name input in phase 0 or the number input in phase 1; nothing else changes |
| OfficeTally.Step | views/office_tally.go:56-96 | the invariant is preserved. Phase 0: enter on an empty name changes nothing; a non-empty name is captured, the name input is blurred and the number input focused. Phase 1: enter on blank or unparsable text changes nothing; a number is stored and the form submitted. Every other key is forwarded. A submission stores ParseInt of the trimmed text |
| OfficeTally.Run | views/office_tally.go:56-96 | every key sequence preserves the invariant (submitted only in phase 1 with a name, tally 0 until submitted); phase 1 keeps its name |
| OfficeTally.NoEnterChangesNothingButText | views/office_tally.go:88-95 | without an enter the phase, name, tally and flag never change |
| OfficeTally.NotANumberIgnored | views/office_tally.go:77-80 | enter on "abc" changes nothing |
| OfficeTally.OutOfRangeIgnored | views/office_tally.go:77-80 | enter on the rendering of a value outside the 64-bit range changes nothing |
| OfficeTally.FormattedTallySubmits | views/office_tally.go:73-83 | enter on the rendering of any 64-bit value submits exactly that value |
| OfficeTally.DeliTally | views/office_tally.go:56-96 | "Deli", enter, " 5 ", enter: submitted with name "Deli" and tally 5 |
| OfficeTally.FocusForm | views/office_tally.go:118-124 | focus the input of the current phase; the other input, the texts and the fields are unchanged |
| OfficeTally.BlurForm | views/office_tally.go:126-132 | blur the input of the current phase; the other input, the texts and the fields are unchanged |
| OfficeTally.ClearForm | views/office_tally.go:146-153 | phase 0, no name, both texts empty, tally 0, unsubmitted; focus flags kept |
| OfficeTally.ClearIdempotent | views/office_tally.go:146-153 | clearing twice equals clearing once |
| OfficeTally.OfficeTallyModel.constructor | views/office_tally.go:32-50 | NewOfficeTallyModel builds `Initial` |
| OfficeTally.OfficeTallyModel.Update | views/office_tally.go:56-96 | the fields after Update are exactly `Step` of the fields before |
| OfficeTally.OfficeTallyModel.Focus | views/office_tally.go:118-124 | produces `FocusForm` |
| OfficeTally.OfficeTallyModel.Blur | views/office_tally.go:126-132 | produces `BlurForm` |
| OfficeTally.OfficeTallyModel.IsSubmitted | views/office_tally.go:134-136 | a submitted form is in phase 1 with a non-empty name |
| OfficeTally.OfficeTallyModel.SubmittedRestaurant | views/office_tally.go:138-140 | non-empty once submitted, empty in phase 0 |
| OfficeTally.OfficeTallyModel.SubmittedTally | views/office_tally.go:142-144 | 0 until the form is submitted |
| OfficeTally.OfficeTallyModel.Clear | views/office_tally.go:146-153 | produces `ClearForm` |
| App.Inserted | db/lunch_order.go:16-25 | definition of the store: a rejected insert leaves the rows and returns its error; otherwise the record is appended, with an error only when reading back its id failed |
| App.Initial | main.go:30-39 | home view, fresh forms, no error, the store as opened; the invariant holds |
| App.HomeStep | main.go:68-87 | the lunch choice switches to the lunch view and focuses that form; the tally choice switches to the tally view and focuses it; any other choice stays home; the menu choice is cleared; rows and error unchanged |
| App.LunchStep | main.go:89-107 | the form takes the key; if it submits, one record with its name and metadata goes to the store, a store error is kept and a success keeps the old error, the form is cleared and the view goes home; otherwise only the form changes |
| App.TallyStep | main.go:109-126 | the form takes the key; if it submits, one record with its name and tally goes to the store, the error is kept, the form is cleared and refocused and the view stays; the lunch form is untouched |
| App.Step | main.go:45-130 | ctrl+c quits and changes nothing, and only ctrl+c quits; esc in a form clears it and goes home; esc on home is ordinary home handling; every other message goes to the current view only, and the other form is at most focused; neither form is left submitted; rows only grow, by at most one well-formed record; a successful insert leaves the error as it was |
| App.Route | main.go:68-127 | dispatch to the current view keeps the invariant and only appends well-formed records |
| App.SubmittedLunchIsWellFormed | main.go:94-99 | a just-submitted lunch order has a non-empty name, and its metadata, when not empty, has only question keys with non-empty values |
| App.AppendedTransitive | main.go:100-120 | growing the rows twice by well-formed records grows them by well-formed records |
| App.Session | main.go:45-130 | every sequence of messages, up to the first ctrl+c, keeps the invariant and only appends well-formed records |
| App.StoredSessionKeepsError | main.go:100-103 | a session in which every insert succeeds ends with the error it started with |
| App.DeliTallySession | main.go:74-126 | from the start, choosing the tally, "Deli", enter, "12", enter stores exactly one tally row ("Deli", 12) and shows the tally form again at the name question, focused, with no error |
| App.HomeModel.constructor | main.go:33 | the menu starts with no choice |
| App.HomeModel.Update | main.go:71-72 | after the menu's update the choice is the one it reports |
| App.HomeModel.Choice | main.go:75 | reports the stored choice |
| App.HomeModel.Clear | main.go:77 | the choice is forgotten |
| App.Store.constructor | main.go:36 | the store holds the rows it was opened with |
| App.Store.Insert | db/lunch_order.go:16-25 | the rows and returned error are those `Inserted` describes |
| App.Model.constructor | main.go:30-39 | initialModel builds `Initial` of the store's rows |
| App.Model.Update | main.go:45-130 | the new state and the quit flag are exactly `Step` of the old state |
| App.Model.HomeBranch | main.go:68-87 | produces `HomeStep` |
| App.Model.LunchBranch | main.go:89-107 | produces `LunchStep` |
| App.Model.TallyBranch | main.go:109-126 | produces `TallyStep` |

## Left out

- Rendering: the View functions, the lipgloss styles and the labels are presentation only.
- The framework's return commands: the cursor blink command is dropped. Quitting is the boolean result of `App.Step` and `App.Model.Update`.
- Messages that are not key presses (window resizes, timer ticks) go through the same routing as `Key.Other`. Their effect on a text, if any, is part of that key's `edit`.
- Text-input internals: the cursor, blinking, placeholders, widths, and the character limits of 156, 256 and 10. The limits would truncate typed text. With the limit of 10 on the number field, an out-of-range value cannot actually be typed, so `OfficeTally.OutOfRangeIgnored` covers a case that the character limit already prevents.
- Input.HandleKey: assumes that the widget ignores messages while blurred, and that every control key reaching it leaves its text unchanged. These are the keys the form's branches do not consume: in the lunch form, up, down, tab and shift+tab in phase 0 or at the end of the question list they point past; in the office-tally form, all four in either phase. It also assumes esc and ctrl+c, when a form is driven on its own, leave the text unchanged. The widget library is not part of this model.
- The home menu (views.HomeModel): its source is not part of this model. Its behaviour is reduced to the choice it reports after a message, which is a parameter.
- The database: schema creation, SQL statements and timestamps are left out. Ids and the soft-delete flag are also left out. The store is an append-only list of records, and the outcome of each insert is a parameter.
- The byte format of the JSON metadata (key order, escaping): the metadata is modelled as a map from question key to answer.
- Go value semantics: the forms' Update returns a modified copy that the controller stores back, and the copy shares the question slice with the original. The model updates one object in place, which is what the program observes, since the old copy is always dropped.
- Process start-up and shutdown (`main()`, opening and closing the database).
- Text.ParseInt: the two error kinds strconv distinguishes (syntax and range) are merged into None, because the form ignores both in the same way.
- Unicode: strings are sequences of code points. TrimSpace uses the White_Space set of unicode.IsSpace. Invalid UTF-8 is not modelled.
