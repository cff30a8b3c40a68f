/**
 * Concrete play-throughs of the game, step by step.
 */
module Scenarios {
  import opened Wrappers
  import opened Storage
  import opened Game
  import LockScreen

  /** A fresh store: the lock screen; typing 1, 2, 3 and locking stores "123"
      and opens the escape screen. */
  lemma CreateFromEmptyStore(policy: ReplayPolicy)
    ensures ModeOf(Boot(map[])) == Creating
    ensures var g := Run(Boot(map[]), [TypePin("1"), TypePin("12"), TypePin("123"), SubmitPin], policy);
      ModeOf(g) == Entering && GetStoredPin(true, g.storage) == Some("123")
  {
  }

  /** A PIN with a leading zero survives creation and a reload unchanged.
      Each input event carries the field's text after one keystroke, stray
      characters included; the sanitiser drops them as they arrive. */
  lemma LeadingZeroSurvivesReload(policy: ReplayPolicy)
    ensures var g := Run(Boot(map[]), [TypePin("0"), TypePin("0a"), TypePin("00"),
                                       TypePin("00-"), TypePin("007"), SubmitPin], policy);
      && GetStoredPin(true, g.storage) == Some("007")
      && ModeOf(Boot(g.storage)) == Entering
      && Boot(g.storage).page.pin == Some("007")
  {
    var g0 := Boot(map[]);
    var g1 := Step(g0, TypePin("0"), policy).next;
    var g2 := Step(g1, TypePin("0a"), policy).next;
    assert LockScreen.Sanitize("0a") == "0";
    var g3 := Step(g2, TypePin("00"), policy).next;
    var g4 := Step(g3, TypePin("00-"), policy).next;
    assert LockScreen.Sanitize("00-") == "00";
    var g5 := Step(g4, TypePin("007"), policy).next;
    assert LockScreen.Sanitize("007") == "007";
    var g6 := Step(g5, SubmitPin, policy).next;
    assert Run(g6, [], policy) == g6;
    assert Run(g0, [TypePin("0"), TypePin("0a"), TypePin("00"),
                    TypePin("00-"), TypePin("007"), SubmitPin], policy) == g6;
  }

  /** The store holds "123": a wrong guess shakes and empties the buffer; the
      right one unlocks and celebrates. */
  lemma WrongThenRightGuess(policy: ReplayPolicy)
    ensures var g0 := Boot(map[PinStorageKey := "123"]);
      var g1 := Run(g0, [PressDigit(9), PressDigit(9), PressDigit(9)], policy);
      var t1 := Step(g1, TryEscape, policy);
      var g2 := Run(t1.next, [PressDigit(1), PressDigit(2), PressDigit(3)], policy);
      var t2 := Step(g2, TryEscape, policy);
      && ModeOf(g0) == Entering
      && t1.effect == Shake && ModeOf(t1.next) == Entering && t1.next.screen.enteredPin == ""
      && t2.effect == Celebrate && ModeOf(t2.next) == Unlocked
  {
    var g0 := Boot(map[PinStorageKey := "123"]);
    var a := Step(g0, PressDigit(9), policy).next;
    var b := Step(a, PressDigit(9), policy).next;
    var c := Step(b, PressDigit(9), policy).next;
    assert c.screen.enteredPin == "999";
    assert Run(c, [], policy) == c;
    assert Run(g0, [PressDigit(9), PressDigit(9), PressDigit(9)], policy) == c;
    var t1 := Step(c, TryEscape, policy);
    var d := Step(t1.next, PressDigit(1), policy).next;
    var e := Step(d, PressDigit(2), policy).next;
    var f := Step(e, PressDigit(3), policy).next;
    assert f.screen.enteredPin == "123";
    assert Run(f, [], policy) == f;
    assert Run(t1.next, [PressDigit(1), PressDigit(2), PressDigit(3)], policy) == f;
  }

  /** After escaping, the two replay policies part ways. */
  lemma ReplayPoliciesDiffer()
    ensures var g := Step(Run(Boot(map[PinStorageKey := "482"]),
                              [PressDigit(4), PressDigit(8), PressDigit(2)], KeepPin),
                          TryEscape, KeepPin).next;
      && ModeOf(g) == Unlocked
      && ModeOf(Step(g, PlayAgain, ForgetPin).next) == Creating
      && ModeOf(Step(g, PlayAgain, KeepPin).next) == Entering
  {
  }

  /** An empty stored value counts as no PIN at all. */
  lemma EmptyStoredValueMeansCreation()
    ensures ModeOf(Boot(map[PinStorageKey := ""])) == Creating
    ensures Boot(map[PinStorageKey := ""]).page.pin == None
  {
  }
}
