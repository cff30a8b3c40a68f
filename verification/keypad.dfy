/**
 * The escape screen's entry buffer: a keypad of the ten digits that appends
 * while the buffer is shorter than three, a delete key, a clear key, the
 * three display slots, the enable conditions of the buttons, and the check
 * against the PIN. The buffer of both versions of the game behaves alike:
 * the plain script never disables the digit and delete keys, but those keys
 * are disabled only where their handlers do nothing. The two checks compare
 * with different things, the store or the page's PIN.
 */
module Keypad {
  import opened Wrappers
  import opened Digits

  /** enteredPin, isUnlocked and showCelebration of the escape screen. */
  datatype Screen = Screen(enteredPin: string, isUnlocked: bool, showCelebration: bool)

  /** The screen as it is mounted: nothing typed, still locked. */
  const FreshScreen: Screen := Screen("", false, false)

  /** handleDigitClick: append the key's digit only while there is room. */
  function Press(buf: string, d: Digit): (r: string)
    ensures buf <= r
    ensures |r| == if |buf| < MaxPinLength then |buf| + 1 else |buf|
    ensures |buf| < |r| ==> r[|buf|] == DigitChar(d)
  {
    if |buf| < MaxPinLength then buf + [DigitChar(d)] else buf
  }

  /** handleDelete: `slice(0, -1)`, which leaves the empty string empty. */
  function Delete(buf: string): (r: string)
    ensures buf == [] ==> r == []
    ensures buf != [] ==> r + [buf[|buf| - 1]] == buf
  {
    if buf == [] then [] else buf[..|buf| - 1]
  }

  /** handleClear, `setEnteredPin("")`: the buffer is emptied whatever it
      held, so the old buffer is not consulted. */
  function Clear(buf: string): (r: string)
    ensures |r| == 0
    ensures Bounded(r) && !DeleteEnabled(r) && DigitKeysEnabled(r)
  {
    ""
  }

  /** Delete undoes a press that was accepted. */
  lemma DeleteUndoesPress(buf: string, d: Digit)
    requires |buf| < MaxPinLength
    ensures Delete(Press(buf, d)) == buf
  {
  }

  /** Every keypad operation keeps the buffer at most three digits. */
  lemma KeypadKeepsBounded(buf: string, d: Digit)
    requires Bounded(buf)
    ensures Bounded(Press(buf, d)) && Bounded(Delete(buf)) && Bounded(Clear(buf))
  {
  }

  /** A run of key presses: the buffer becomes the first three characters of
      what was there followed by every key pressed. */
  function PressAll(buf: string, keys: seq<Digit>): (r: string)
    requires |buf| <= MaxPinLength
    ensures Bounded(buf) ==> Bounded(r)
    ensures r == Take(buf + KeyText(keys), MaxPinLength)
    decreases |keys|
  {
    if keys == [] then
      assert buf + KeyText(keys) == buf;
      buf
    else
      PressStep(buf, keys);
      PressAll(Press(buf, keys[0]), keys[1..])
  }

  /** One press, then the rest, leaves the same first three characters. */
  lemma PressStep(buf: string, keys: seq<Digit>)
    requires |buf| <= MaxPinLength && keys != []
    ensures Take(Press(buf, keys[0]) + KeyText(keys[1..]), MaxPinLength)
         == Take(buf + KeyText(keys), MaxPinLength)
  {
  }

  /** The characters of a sequence of keys. */
  function KeyText(keys: seq<Digit>): (r: string)
    ensures |r| == |keys|
    ensures forall i :: 0 <= i < |keys| ==> r[i] == DigitChar(keys[i])
  {
    if keys == [] then [] else [DigitChar(keys[0])] + KeyText(keys[1..])
  }

  /** The text of display slot `i`: the i-th character if typed, else empty. */
  function Slot(buf: string, i: nat): (r: string)
    requires i < MaxPinLength
    ensures |r| <= 1
    ensures r != "" <==> i < |buf|
    ensures i < |buf| ==> r[0] == buf[i]
  {
    if i < |buf| then [buf[i]] else ""
  }

  /** The three slots, left to right. */
  function Display(buf: string): (r: seq<string>)
    ensures |r| == MaxPinLength
    ensures forall i :: 0 <= i < |r| ==> (r[i] != "" <==> i < |buf|)
    ensures forall i :: 0 <= i < |r| && i < |buf| ==> r[i] == [buf[i]]
  {
    [Slot(buf, 0), Slot(buf, 1), Slot(buf, 2)]
  }

  /** Reading the slots left to right gives back the buffer. */
  lemma DisplayShowsBuffer(buf: string)
    requires |buf| <= MaxPinLength
    ensures Display(buf)[0] + Display(buf)[1] + Display(buf)[2] == buf
    ensures forall i :: 0 <= i < MaxPinLength ==> (Display(buf)[i] != "" <==> i < |buf|)
  {
  }

  /** Digit keys are disabled at length three: enabled exactly when a key
      press would change the buffer. */
  predicate DigitKeysEnabled(buf: string)
    ensures DigitKeysEnabled(buf) <==> Press(buf, 0) != buf
  {
    |buf| < MaxPinLength
  }

  /** Delete is disabled on the empty buffer: enabled exactly when deleting
      would change the buffer. */
  predicate DeleteEnabled(buf: string)
    ensures DeleteEnabled(buf) <==> Delete(buf) != buf
  {
    |buf| != 0
  }

  /** "Try to Escape" is enabled at exactly three characters, which for a
      keypad-made buffer means a complete PIN. */
  predicate CheckEnabled(buf: string)
    ensures Bounded(buf) ==> (CheckEnabled(buf) <==> IsPin(buf))
    ensures CheckEnabled(buf) ==> !DigitKeysEnabled(buf)
  {
    |buf| == MaxPinLength
  }

  /** The digit and delete keys are disabled exactly where their handlers
      would do nothing; the check's handler, by contrast, is not guarded. */
  lemma DisabledKeysAreNoOps(buf: string, d: Digit)
    ensures !DigitKeysEnabled(buf) ==> Press(buf, d) == buf
    ensures !DeleteEnabled(buf) ==> Delete(buf) == buf
    ensures DigitKeysEnabled(buf) ==> Press(buf, d) != buf
    ensures DeleteEnabled(buf) ==> Delete(buf) != buf
  {
  }

  /** handleCheck of the component: compare with the PIN it was given. A match
      unlocks and starts the celebration; anything else empties the buffer. */
  function HandleCheck(s: Screen, correctPin: string): (r: Screen)
    ensures r.isUnlocked <==> s.isUnlocked || s.enteredPin == correctPin
    ensures s.enteredPin == correctPin ==> r.showCelebration && r.enteredPin == s.enteredPin
    ensures s.enteredPin != correctPin ==>
      r.enteredPin == "" && r.showCelebration == s.showCelebration
  {
    if s.enteredPin == correctPin then s.(isUnlocked := true, showCelebration := true)
    else s.(enteredPin := "")
  }

  /** handleTryEscape of the plain script: compare with the store at the time
      of the check, where a missing PIN (null) matches no buffer. The shake
      delay before the reset is collapsed into this step. */
  function HandleTryEscape(s: Screen, stored: Option<string>): (r: Screen)
    ensures r.isUnlocked <==> s.isUnlocked || stored == Some(s.enteredPin)
    ensures stored == Some(s.enteredPin) ==> r.showCelebration && r.enteredPin == s.enteredPin
    ensures stored != Some(s.enteredPin) ==>
      r.enteredPin == "" && r.showCelebration == s.showCelebration
  {
    if stored == Some(s.enteredPin) then s.(isUnlocked := true, showCelebration := true)
    else s.(enteredPin := "")
  }

  /** The two checks agree whenever the component's PIN is the stored one. */
  lemma ChecksAgree(s: Screen, pin: string)
    ensures HandleCheck(s, pin) == HandleTryEscape(s, Some(pin))
  {
  }

  /** Unlocking is monotone: no check ever locks the screen again. */
  lemma CheckNeverRelocks(s: Screen, correctPin: string, stored: Option<string>)
    requires s.isUnlocked
    ensures HandleCheck(s, correctPin).isUnlocked
    ensures HandleTryEscape(s, stored).isUnlocked
  {
  }

  /** With only keypad input, a PIN that is not three digits can never be
      matched by an enabled check. */
  lemma OnlyPinsCanUnlock(s: Screen, correctPin: string)
    requires Bounded(s.enteredPin) && CheckEnabled(s.enteredPin)
    requires !IsPin(correctPin)
    ensures !HandleCheck(s, correctPin).isUnlocked <==> !s.isUnlocked
  {
  }
}
