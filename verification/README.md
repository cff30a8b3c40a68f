# Escape-room PIN lifecycle

A Dafny model of the logic of a two-screen escape-room toy. On the lock screen the
player types a three-digit PIN, which is kept in the browser's localStorage. On the
escape screen the player must type the same PIN again on a keypad to "escape", after
which "Play Again" starts a new round. The repository holds two versions of the game:
a plain script (`script.js`) and a component version (`app/page.tsx`,
`components/lock-screen.tsx`, `components/escape-screen.tsx`, `lib/storage.ts`). The
two versions make the same decisions, but they differ in four ways:

- "Play Again": the script clears the stored PIN before reloading; the component only reloads.
- The comparison target: the script reads the store at the moment of the check; the
  component compares with the PIN the page holds (`pin || ""`). `Game.CheckDecides` and
  `Keypad.ChecksAgree` show that both decide alike in every reachable state.
- The buffer reset after a wrong guess: the script waits 500 ms; the component resets at once.
- Disabled keys: only the component disables the digit keys and delete. Those keys
  are disabled exactly where their handlers do nothing (`Keypad.DisabledKeysAreNoOps`),
  so both versions behave the same.

The model covers both versions.

Modules, one per file:

- `Wrappers` (wrappers.dfy): `Option`, standing for `string | null`.
- `Digits` (digits.dfy): `MAX_PIN_LENGTH`, digit characters, the `replace(/[^0-9]/g, "")`
  filter and `slice(0, n)`.
- `Storage` (storage.dfy): the single-key store. localStorage is a `map<string, string>`,
  and `typeof window !== "undefined"` is a boolean parameter.
- `LockScreen` (lock_screen.dfy): the creation field's sanitiser, the lock button's
  enable condition, and submission with its error message.
- `Keypad` (keypad.dfy): the entry buffer (append, delete, clear), the three display
  slots, the button guards, and both versions of the check.
- `Page` (page.dfy): the page's initial state, the mount-time routing, `handlePinSet`
  and the `pin || ""` fallback.
- `Game` (game.dfy): everything composed into one machine with modes `Creating`,
  `Entering` and `Unlocked`. Each handler is one atomic `Step`. A control that is
  hidden or disabled does nothing. Play Again takes a `ReplayPolicy`: `ForgetPin` is
  the plain script, which clears the store and reloads; `KeepPin` is the component
  version, which only reloads. The invariant `Inv` holds in every reachable state.
- `Scenarios` (scenarios.dfy): concrete play-throughs.

Points about the code's behaviour:

- Digit input is not validated. The keypad only offers the keys 0 to 9, so a key is
  the subset type `Digit`.
- The check handler itself does not test the length. Only the disabled button does,
  so `Keypad.HandleCheck` is unguarded and `Game.Step` applies the guard. The component
  sets that button's state on every render. The plain script sets it only after a key
  press, Clear, ← or a rejection, so the model takes its page markup to start the
  button disabled (see "## Left out").
- In the unlocked state, no operation fails. The keypad and the check are simply not
  on screen, so those actions are no-ops.
- The store accepts any string, and start-up treats a stored empty string as no PIN.
- Creating a PIN does not clear the creation field. The lock screen is just left behind.
- In the component, the submit handler's "Please enter a 3-digit PIN" error is only
  reachable past a disabled lock button. The same holds for the plain script if its page
  markup starts the lock button disabled, because the script sets the button only on
  input events. `LockScreen.HandleSubmit` keeps that branch, but no step of the game
  reaches it, and `Game.Inv` records that the error line stays empty.

## Model

| member | source | states |
|---|---|---|
| Digits.FilterDigits | components/lock-screen.tsx:20 | the filtered text holds only digits, is never longer than the input, and is the input itself when that was all digits |
| Digits.FilterDigitsConcat | script.js:87 | filtering distributes over concatenation, so digits keep their order |
| Digits.FilterDigitsSingle | script.js:87 | one character survives iff it is a digit; with the concatenation law this determines the filter |
| Digits.FilterDigitsMembers | script.js:87 | a character occurs in the filtered text iff it is a digit occurring in the input |
| Digits.FilterDigitsIdempotent | components/lock-screen.tsx:20 | filtering twice is filtering once |
| Digits.Take | script.js:87 | `slice(0, n)` is the prefix of length min(length, n) |
| Digits.DigitChar | components/escape-screen.tsx:21 | the text `prev + digit` appends for a key 0..9 is one digit character whose value is the key's number |
| Digits.DigitCharRoundTrip | components/escape-screen.tsx:19-23 | the character a key appends reads back as that key's number |
| Digits.DigitValueRoundTrip | components/escape-screen.tsx:80-94 | every digit character is the text of exactly one keypad key |
| Storage.StorePin | lib/storage.ts:3-7 | with a window, the PIN key holds exactly the given string, unvalidated, and every other key is untouched; without a window, nothing changes |
| Storage.GetStoredPin | lib/storage.ts:9-14 | a value is returned iff there is a window and the key is present, and it is the stored string |
| Storage.ClearPin | lib/storage.ts:16-20 | with a window, the key is removed and nothing else changes; without a window, nothing changes |
| Storage.StoreThenGet | lib/storage.ts:3-14 | a store followed by a read returns any string unchanged, leading zeros included |
| Storage.ClearThenGet | lib/storage.ts:9-20 | a read after clearing returns null |
| Storage.LastWriteWins | lib/storage.ts:1-7 | there is one key, so a second store overwrites the first |
| Storage.StoreThenClear | script.js:32-38 | clearing undoes a store into an empty slot |
| Storage.NoWindowIsInert | lib/storage.ts:4-17 | without a window, reads return null and writes do nothing |
| LockScreen.Sanitize | script.js:87 | the field holds only digits, at most three, as a prefix of the input's digits with length min(3, digit count) |
| LockScreen.SanitizeIdempotent | components/lock-screen.tsx:20 | sanitising twice gives the same text as sanitising once |
| LockScreen.SanitizeFixpoints | components/lock-screen.tsx:20 | the sanitiser leaves a text unchanged iff it is at most three digits |
| LockScreen.SanitizeIncremental | script.js:85-88 | typing after the sanitised text gives the same field as sanitising everything typed at once |
| LockScreen.HandlePinChange | components/lock-screen.tsx:19-23 | an input event sets the field to the sanitised text and clears the error |
| LockScreen.LockEnabledAfterInput | script.js:91 | after input the lock button is enabled iff the raw text had at least three digits, and then the field is a complete PIN |
| LockScreen.HandleSubmit | components/lock-screen.tsx:25-34 | a PIN is handed on iff the field has exactly three characters, and it is the field unmodified; otherwise the error text is set and the field is kept |
| LockScreen.SubmittedPinIsPin | script.js:98-112 | a PIN submitted through the field is three digits: the first three digits typed |
| Keypad.Press | components/escape-screen.tsx:19-23 | a key appends its digit iff the buffer is shorter than three; otherwise the buffer is unchanged |
| Keypad.Delete | components/escape-screen.tsx:25-27 | delete removes exactly the last character and leaves the empty buffer empty |
| Keypad.DeleteUndoesPress | script.js:115-135 | deleting right after an accepted key press restores the buffer |
| Keypad.KeypadKeepsBounded | components/escape-screen.tsx:19-31 | press, delete and clear keep the buffer at no more than three digits |
| Keypad.PressAll | script.js:115-121 | any run of key presses leaves the first three characters of the old buffer followed by the keys pressed, taken together |
| Keypad.Slot | script.js:138-150 | display slot i shows the i-th character iff i is below the buffer length, and is empty otherwise |
| Keypad.DisplayShowsBuffer | components/escape-screen.tsx:65-73 | the three slots read left to right spell the buffer, and slot i is filled iff i is below its length |
| Keypad.DisabledKeysAreNoOps | components/escape-screen.tsx:85-103 | digit keys are disabled at length three and delete at length zero, exactly where those handlers would do nothing |
| Keypad.HandleCheck | components/escape-screen.tsx:33-42 | a buffer equal to the PIN sets unlocked and celebration; any other buffer is emptied and the unlocked state is kept |
| Keypad.HandleTryEscape | script.js:158-174 | a buffer equal to the stored PIN unlocks; a missing PIN matches nothing; otherwise the buffer is emptied |
| Keypad.ChecksAgree | script.js:158-161 | the script's check against the store and the component's check against its PIN agree when the two are the same |
| Keypad.CheckNeverRelocks | components/escape-screen.tsx:33-36 | unlocked is only ever set to true, so no check locks again |
| Keypad.OnlyPinsCanUnlock | components/escape-screen.tsx:114 | an enabled check with keypad-made input can never match a target that is not three digits |
| Keypad.Clear | components/escape-screen.tsx:29-31 | clear empties the buffer whatever it held, re-enabling the digit keys and disabling delete |
| Keypad.DigitKeysEnabled | components/escape-screen.tsx:85 | the digit keys are enabled iff the buffer is shorter than three, which is exactly when a key press changes it |
| Keypad.DeleteEnabled | components/escape-screen.tsx:103 | delete is enabled iff the buffer is non-empty, which is exactly when deleting changes it |
| Keypad.CheckEnabled | script.js:153-155 | the check is enabled iff the buffer has three characters, which for keypad input means a complete PIN, and then the digit keys are off |
| Keypad.Display | components/escape-screen.tsx:65-74 | there are three slots; slot i is filled iff i is below the buffer length, and then it shows the i-th character |
| LockScreen.LockEnabled | components/lock-screen.tsx:67 | the lock button is enabled iff the field has three characters, exactly when submission is accepted; for a sanitised field, iff it is a complete PIN |
| Page.Initial | app/page.tsx:9-11 | before mounting there is no PIN, the lock screen is selected and loading is pending |
| Game.StepCreating | script.js:85-112 | on the lock screen, typing sanitises the field and clears the error; locking with an enabled button stores the field and opens entry with a fresh keypad; nothing else changes the store or the page |
| Game.StepEntering | components/escape-screen.tsx:19-42 | on the locked escape screen, the store, page and form are untouched; the buffer stays bounded; a celebration happens iff the step unlocks, on a buffer equal to the page PIN; a shake happens only for a check, and it empties the buffer |
| Game.StepUnlocked | components/escape-screen.tsx:120-127 | once unlocked, only Play Again acts: it reloads onto a fresh, locked screen, with the store emptied and creation next under the forgetting policy, or the store kept under the keeping policy |
| Game.Step | script.js:177-181 | only the check produces an effect, and only locking the room or Play Again changes the store |
| Page.Truthy | app/page.tsx:16 | the truthiness test `if (storedPin)` holds iff the value is present and not the empty string |
| Page.Mount | app/page.tsx:13-21 | a truthy stored PIN is adopted and the escape screen is shown; otherwise the state is kept; loading ends either way |
| Page.StartupRouting | script.js:41-52 | start-up shows the escape screen iff the stored PIN is present and non-empty |
| Page.HandlePinSet | app/page.tsx:23-27 | the new PIN becomes the page's PIN and is stored, so a later read returns it, and the escape screen is shown |
| Page.CorrectPin | app/page.tsx:39 | the escape screen compares with the page's PIN, or the empty string when there is none |
| Page.EscapeIsFinal | app/page.tsx:10-26 | neither page operation moves from the escape screen back to the lock screen |
| Game.Boot | app/page.tsx:9-21 | a page load routes to entry iff the store holds a truthy PIN, else to creation, with an empty form and buffer and the store untouched |
| Game.BootEstablishesInv | app/page.tsx:9-21 | every page load starts in a state satisfying the game invariant |
| Game.StepPreservesInv | components/escape-screen.tsx:19-42 | every action keeps the invariant: bounded digit buffers, no error shown, page PIN equal to the stored PIN on the escape screen, and unlocked only on a matched three-digit PIN |
| Game.RunPreservesInv | script.js:115-174 | the invariant holds after any sequence of actions |
| Game.ReachableBuffersBounded | components/escape-screen.tsx:19-23 | after any sequence of actions from a page load, the entry buffer and the creation field hold at most three digits |
| Game.SubmitCreation | script.js:91-112 | a three-character field stores exactly that PIN and opens entry; at any other length the lock button is disabled (for the plain script, given its markup starts it disabled) and nothing changes |
| Game.TypingClearsError | components/lock-screen.tsx:19-23 | any input on the creation field clears the error |
| Game.CheckDecides | script.js:158-174 | an enabled check unlocks and celebrates iff the buffer equals the stored PIN; otherwise it shakes, empties the buffer and stays on entry |
| Game.DisabledCheckIsNoOp | components/escape-screen.tsx:114 | a check at any length other than three meets a disabled button and does nothing (for the plain script, given its markup starts the button disabled) |
| Game.CelebrateExactlyOnUnlock | components/escape-screen.tsx:33-36 | the celebration is announced on exactly the step that unlocks |
| Game.ModesMoveForward | components/escape-screen.tsx:33-41 | apart from Play Again, the mode never moves backwards |
| Game.UnlockedIgnoresAllButReplay | components/escape-screen.tsx:78-127 | once unlocked, only Play Again is on offer, so every other action changes nothing |
| Game.EscapeStaysEscape | app/page.tsx:13-27 | the escape screen is only ever left for the lock screen by a replay that forgets the PIN |
| Game.ReplayForgetting | script.js:177-181 | the script's Play Again empties the store, so the next round starts at creation |
| Game.ReplayKeeping | components/escape-screen.tsx:120-127 | the component's Play Again reloads onto entry with the same PIN and an empty buffer |
| Game.ReloadAfterCreation | app/page.tsx:13-19 | once a PIN is set, a reload starts on entry with that PIN |
| Scenarios.CreateFromEmptyStore | script.js:85-112 | from an empty store, typing 1, 2, 3 and locking stores "123" and opens entry |
| Scenarios.LeadingZeroSurvivesReload | lib/storage.ts:3-14 | keystrokes 0, a, 0, -, 7 create the PIN "007", which a reload reads back unchanged |
| Scenarios.WrongThenRightGuess | components/escape-screen.tsx:33-42 | with "123" stored, guessing 999 shakes and empties the buffer, and then guessing 123 unlocks with a celebration |
| Scenarios.ReplayPoliciesDiffer | script.js:177-181 | after escaping, the forgetting replay returns to creation and the keeping replay returns to entry |
| Scenarios.EmptyStoredValueMeansCreation | app/page.tsx:15-16 | a stored empty string counts as no PIN |

## Left out

- Rendering, CSS classes, icons and text changes in `unlockRoom`, and all DOM lookups
  and event wiring (`setupEventListeners`). The model keeps the state these react to.
- The celebration itself: confetti, audio, random numbers and timers
  (`components/celebration.tsx`, `createConfetti` and `playSuccessSound`). Only the
  event that triggers it (`Effect.Celebrate`) is modelled.
- The 500 ms shake delay in the plain script. The buffer reset happens in the
  rejection step itself. Key presses made during that half second are not modelled.
- React scheduling: hooks, batching and stale closures. Each handler is one atomic step.
- `window.location.reload()`, modelled as a new `Game.Boot` on the current store.
- localStorage failures and other tabs writing the key. The store is changed only by
  the game's own actions, although `Game.Boot` accepts any initial store.
- The keypad markup of the plain script, which lives in an HTML page that is not part
  of this model. Its keys are taken to be the digits 0 to 9, the same as the component
  keypad.
- Inserting text in the middle of the creation field. `LockScreen.HandlePinChange`
  accepts any raw text, and `LockScreen.SanitizeIncremental` covers only typing at the end.
- LockScreen.HandlePinChange: accepts any field text, but the component's input has
  `maxLength={3}`, so the browser cuts typed or pasted text to three UTF-16 units before
  the handler sees it. Pasting "a1b2c3" gives the field "1" there, but "123" in the model.
  The model admits more inputs than the component can produce, so its universal
  properties still hold. The scenarios use one keystroke per input event, which both
  versions can produce.
- Game.SubmitCreation, Game.DisabledCheckIsNoOp: the plain script's lock and Try Escape
  buttons are assumed disabled in its page markup until the first input event or key
  press, since the script itself sets them only then. If the markup left them enabled,
  locking an empty field would show the length error, and Try Escape on an empty buffer
  would shake. The same markup decides whether Clear and ← sit inside the keypad that
  `unlockRoom` hides; the model takes them to, as in the component.
