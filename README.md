# Tutorial and settings dialogs of the chat front end

This project models the two pieces of local state logic in the chat client's
dialogs. It proves properties of that model in Dafny.

- **Tutorial dialog** (`HelpModal`). There is a fixed, ordered list of six
  tutorial steps and a `currentStep` index into it. The index starts at 0.
  Next moves it one step forward unless it is on the last step. Previous
  moves it one step back unless it is on the first step. Close only asks the
  host to hide the dialog. The view is computed from the index alone: the
  step shown, one progress bar per step (current, done or pending), the
  "Step k of N" text and which buttons are disabled.
  `HelpModal.HelpDialog` is the component's state cell: a class with a
  mutable `currentStep` over an immutable `steps` sequence. Its handlers are
  specified by the pure transition functions `Advance` and `Retreat`.
- **Settings dialog** (`SettingsModal`). The form state is a record with four
  boolean flags and one string field, `privacy`. `toggleSetting(key)`
  negates the field when it holds a boolean and writes it back unchanged
  otherwise. `handlePrivacyChange(value)` overwrites `privacy`.
  `SettingsModal.SettingsDialog` is the state cell. `Toggle` and
  `ChangePrivacy` are the record-spread updates as pure functions, and
  `Get` reads a field by key.
- **Decimal** renders a natural number in base ten, with no sign and no
  leading zero. JavaScript turns a non-negative integer below 2^53 into text
  this way when it is placed in JSX markup. The "Step k of N" text uses it
  and only shows numbers 1..6. The digits are proved to read back as the
  number, so distinct steps get distinct labels.

Notes on the code:
- A step's fields are `title`, `description`, `highlight` and `image`.
- The dialog shows a "Step k of N" text and one bar per step.
- `handlePrivacyChange` accepts any string. Only the select limits privacy
  to its three option values, and `ReachableIsConsistent` proves that limit
  for the interactions the dialog offers.
- Closing the dialog does not reset the step index (`HandleClose`).

## Model

| member | source | states |
|---|---|---|
| HelpModal.Advance | client/components/HelpModal.tsx:64-68 | From a valid index, Next yields a valid index that is the same or one further |
| HelpModal.Retreat | client/components/HelpModal.tsx:70-74 | Previous yields the same index or the one before, never below 0 |
| HelpModal.AdvanceByOne | client/components/HelpModal.tsx:64-68 | Next adds exactly 1 below the last step and leaves the index unchanged on the last step |
| HelpModal.RetreatByOne | client/components/HelpModal.tsx:70-74 | Previous subtracts exactly 1 above the first step and leaves the index at 0 on the first step |
| HelpModal.NextThenPrev | client/components/HelpModal.tsx:64-74 | From any index before the last step, Next then Previous returns to that index |
| HelpModal.PrevThenNext | client/components/HelpModal.tsx:64-74 | From any index after the first step, Previous then Next returns to that index |
| HelpModal.Apply | client/components/HelpModal.tsx:64-74 | Any single click (Next, Previous, Close) keeps the index within the steps, and Close leaves it unchanged |
| HelpModal.Run | client/components/HelpModal.tsx:61-74 | Any sequence of clicks from a valid index ends at a valid index |
| HelpModal.IndexAlwaysInRange | client/components/HelpModal.tsx:15-61 | There are six steps, and from the initial index 0 every sequence of clicks keeps the index in 0..5 |
| HelpModal.RepeatedNext | client/components/HelpModal.tsx:64-68 | k clicks on Next from i reach min(i + k, N - 1), so further clicks at the last step do nothing |
| HelpModal.RepeatedPrev | client/components/HelpModal.tsx:70-74 | k clicks on Previous from i reach max(i - k, 0), so the index floors at 0 |
| HelpModal.StatusOf | client/components/HelpModal.tsx:121-127 | A bar is current iff it is the shown step, done iff it comes before it, pending iff it comes after it |
| HelpModal.ProgressBars | client/components/HelpModal.tsx:118-128 | One bar per step; bar idx is current iff idx is the current step, done iff it is before it, pending iff it is after it |
| HelpModal.BarCounts | client/components/HelpModal.tsx:118-128 | On step i of N, exactly one bar is current, i bars are done and N - 1 - i are pending |
| HelpModal.StepLabel | client/components/HelpModal.tsx:131-133 | The text starts with "Step " and ends with the number of steps; StepLabelInjective, LabelNumberInRange and LabelShowsLastStep state what the step number in it means |
| HelpModal.LabelNumberInRange | client/components/HelpModal.tsx:131-133 | For a valid step the number shown after "Step " reads back as a value in 1..N |
| HelpModal.StepLabelInjective | client/components/HelpModal.tsx:131-133 | Two steps show the same "Step k of N" text iff they are the same step |
| HelpModal.LabelShowsLastStep | client/components/HelpModal.tsx:131-133 | The text reads "Step N of N" exactly on the last step |
| HelpModal.Render | client/components/HelpModal.tsx:62-161 | The dialog on step i shows step i's content, its bars are ProgressBars(i, N) with bar i the current one, the text is that step's label, Previous is disabled iff i is 0 and Next iff i is the last step; DisabledIffNoOp and FirstView state more |
| HelpModal.DisabledIffNoOp | client/components/HelpModal.tsx:136-161 | Previous is disabled exactly when its handler would not move the index, and the same holds for Next |
| HelpModal.FirstView | client/components/HelpModal.tsx:15-22 | On mount the dialog shows "Welcome to the Chat" and "Step 1 of 6", with Previous disabled and Next enabled |
| HelpModal.HelpDialog.constructor | client/components/HelpModal.tsx:61 | The state cell holds the six tutorial steps and starts at index 0 |
| HelpModal.HelpDialog.HandleNext | client/components/HelpModal.tsx:64-68 | The new index is Advance of the old one, and the index stays valid |
| HelpModal.HelpDialog.HandlePrev | client/components/HelpModal.tsx:70-74 | The new index is Retreat of the old one, and the index stays valid |
| HelpModal.HelpDialog.HandleClose | client/components/HelpModal.tsx:147-152 | Close requests open = false from the host and leaves the step index unchanged |
| Decimal.FromNat | client/components/HelpModal.tsx:132 | A number renders as a non-empty string of digits, with a leading 0 only for zero |
| Decimal.ToNatFromNat | client/components/HelpModal.tsx:132 | Reading the rendered digits back gives the number |
| Decimal.FromNatInjective | client/components/HelpModal.tsx:132 | Two numbers render the same iff they are equal |
| SettingsModal.Get | client/components/SettingsModal.tsx:24-27 | A field holds a boolean iff its key is not privacy |
| SettingsModal.Put | client/components/SettingsModal.tsx:25-28 | The spread update sets the named field and leaves every other field unchanged |
| SettingsModal.Toggle | client/components/SettingsModal.tsx:24-29 | A boolean field is negated, and every other field is unchanged |
| SettingsModal.ToggleTextIsIdentity | client/components/SettingsModal.tsx:27 | Toggling the string field privacy leaves the whole record unchanged |
| SettingsModal.ToggleTwice | client/components/SettingsModal.tsx:24-29 | Toggling the same key twice gives back the original record |
| SettingsModal.ToggleCommutes | client/components/SettingsModal.tsx:24-29 | Toggles of two keys give the same record in either order |
| SettingsModal.ChangePrivacy | client/components/SettingsModal.tsx:31-33 | Privacy becomes the given value, unvalidated, and all four flags are unchanged |
| SettingsModal.OptionValue | client/components/SettingsModal.tsx:148-150 | Every option of the select has the value "private", "friends" or "public" |
| SettingsModal.OptionValuesDistinct | client/components/SettingsModal.tsx:148-150 | Two options carry the same value iff they are the same option |
| SettingsModal.Handle | client/components/SettingsModal.tsx:54-151 | The notifications, email and sound rows each toggle their own flag; no interaction changes dark mode; a click leaves privacy alone and a selection is ChangePrivacy with the option's value, so it leaves all four flags unchanged; ReplayKeepsConsistent states the consequence for any sequence |
| SettingsModal.ReplayKeepsConsistent | client/components/SettingsModal.tsx:54-151 | The three wired row clicks and the select keep dark mode on and privacy among "private", "friends", "public" |
| SettingsModal.ReachableIsConsistent | client/components/SettingsModal.tsx:16-151 | From the initial record, any sequence of interactions the dialog offers keeps dark mode true and privacy one of the select's three values |
| SettingsModal.SettingsDialog.constructor | client/components/SettingsModal.tsx:16-22 | The initial record is darkMode true, notifications true, emailNotifications false, soundEnabled true, privacy "private" |
| SettingsModal.SettingsDialog.ToggleSetting | client/components/SettingsModal.tsx:24-29 | The new record is Toggle of the old one for the given key |
| SettingsModal.SettingsDialog.HandlePrivacyChange | client/components/SettingsModal.tsx:31-33 | The new record is the old one with privacy replaced by the given value |

## Left out

- Rendering is not modelled: the JSX markup, the styling class strings, the icons and the transitions. Only which bar status, text and disabled flag the markup receives is modelled.
- The dialog primitives and the host-owned `isOpen` flag are a foreign UI library and callback plumbing. `HandleClose` returns the value passed to `onOpenChange`.
- React's re-render and closure semantics are not modelled. Example: two Next clicks handled within one render both read the same captured `currentStep`. The handlers are modelled as sequential updates of the state cell.
- The text "Settings are saved automatically" has no code behind it, so no persistence is modelled.
- `client/components/Sidebar.tsx` is not part of this model. It renders a fixed one-item list that nothing updates, and its buttons have no handlers.
- Decimal.FromNat: does not model JavaScript's double-precision rounding of numbers of 2^53 and above, or its exponent form from 10^21, because the label only shows numbers 1..6.
- The step's emoji images are written as Unicode escapes of the same code points.
