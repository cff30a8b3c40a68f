/**
 * The whole PIN lifecycle as one machine. A game is the store, the page,
 * the creation form and the escape screen; its mode is Creating while the
 * lock screen is shown, Entering on the escape screen, and Unlocked once the
 * check has matched. Every handler is one atomic step; a control that is not
 * on screen, or is disabled, does nothing. The lock button and the check are
 * disabled whenever the field or the buffer is not three characters long:
 * the component computes this on every render, and the plain script is
 * taken to start with both buttons disabled in its page markup, which is not
 * part of this model. So the creation form's length error, which only the
 * handler behind a disabled lock button would show, is never reached by a
 * step. "Play Again", where the two versions of the
 * game differ, is a policy parameter. Their other differences are the
 * comparison target, which `CheckDecides` shows decides alike, and the
 * timing of the reset after a wrong guess, which happens within the step.
 */
module Game {
  import opened Wrappers
  import opened Digits
  import opened Storage
  import LockScreen
  import Keypad
  import Page

  datatype Mode = Creating | Entering | Unlocked

  /** Play Again: the plain script clears the PIN before reloading; the
      component version only reloads. */
  datatype ReplayPolicy = ForgetPin | KeepPin

  /** What the player can do. */
  datatype Action =
    | TypePin(raw: string)  // an input event on the creation field
    | SubmitPin             // "Lock the Room"
    | PressDigit(d: Digit)  // a keypad key
    | DeleteDigit
    | ClearDigits
    | TryEscape
    | PlayAgain

  /** What presentation is told to play: the celebration, or the shake. */
  datatype Effect = NoEffect | Celebrate | Shake

  datatype Game = Game(
    storage: LocalStorage,
    page: Page.State,
    form: LockScreen.Form,
    screen: Keypad.Screen)

  datatype Transition = Transition(next: Game, effect: Effect)

  function ModeOf(g: Game): (m: Mode) {
    if g.page.gameState == Page.Lock then Creating
    else if g.screen.isUnlocked then Unlocked
    else Entering
  }

  /** Forward order of the modes. */
  function Rank(m: Mode): (r: nat) {
    match m
    case Creating => 0
    case Entering => 1
    case Unlocked => 2
  }

  /** Page load: read the store once and route on it. */
  function Boot(storage: LocalStorage): (g: Game)
    ensures ModeOf(g) == Entering <==> Page.Truthy(GetStoredPin(true, storage))
    ensures ModeOf(g) == Creating <==> !Page.Truthy(GetStoredPin(true, storage))
    ensures g.storage == storage && !g.page.isLoading
    ensures g.form == LockScreen.EmptyForm && g.screen == Keypad.FreshScreen
  {
    Game(storage, Page.Mount(Page.Initial(), GetStoredPin(true, storage)),
         LockScreen.EmptyForm, Keypad.FreshScreen)
  }

  /** The lock screen: only the field and the button are on screen, and the
      button submits only while it is enabled. */
  function StepCreating(g: Game, a: Action): (r: Transition)
    requires ModeOf(g) == Creating
    ensures r.effect == NoEffect && ModeOf(r.next) != Unlocked
    ensures ModeOf(r.next) == Entering <==> a.SubmitPin? && LockScreen.LockEnabled(g.form)
    ensures ModeOf(r.next) == Entering ==>
      GetStoredPin(true, r.next.storage) == Some(g.form.pin) && r.next.screen == Keypad.FreshScreen
    ensures ModeOf(r.next) == Creating ==> r.next.storage == g.storage && r.next.page == g.page
    ensures a.TypePin? ==> r.next.form.pin == LockScreen.Sanitize(a.raw) && r.next.form.error == ""
    ensures !a.TypePin? ==> r.next.form == g.form
  {
    match a
    case TypePin(raw) => Transition(g.(form := LockScreen.HandlePinChange(raw)), NoEffect)
    case SubmitPin =>
      if LockScreen.LockEnabled(g.form) then
        var done := Page.HandlePinSet(g.page, g.storage, LockScreen.HandleSubmit(g.form).pin);
        Transition(Game(done.storage, done.page, g.form, Keypad.FreshScreen), NoEffect)
      else Transition(g, NoEffect)
    case _ => Transition(g, NoEffect)
  }

  /** The escape screen while locked: keypad and check, each behind its guard. */
  function StepEntering(g: Game, a: Action): (r: Transition)
    requires ModeOf(g) == Entering
    ensures r.next.storage == g.storage && r.next.page == g.page && r.next.form == g.form
    ensures ModeOf(r.next) != Creating
    ensures r.effect == Celebrate <==> ModeOf(r.next) == Unlocked
    ensures ModeOf(r.next) == Unlocked ==> r.next.screen.enteredPin == Page.CorrectPin(g.page)
    ensures r.effect == Shake ==> a.TryEscape? && r.next.screen.enteredPin == ""
    ensures Bounded(g.screen.enteredPin) ==> Bounded(r.next.screen.enteredPin)
    ensures a.PressDigit? ==> r.next.screen.enteredPin == Keypad.Press(g.screen.enteredPin, a.d)
    ensures a.DeleteDigit? ==> r.next.screen.enteredPin == Keypad.Delete(g.screen.enteredPin)
    ensures a.ClearDigits? ==> r.next.screen.enteredPin == ""
  {
    var buf := g.screen.enteredPin;
    match a
    case PressDigit(d) =>
      if Keypad.DigitKeysEnabled(buf)
      then Transition(g.(screen := g.screen.(enteredPin := Keypad.Press(buf, d))), NoEffect)
      else Transition(g, NoEffect)
    case DeleteDigit =>
      if Keypad.DeleteEnabled(buf)
      then Transition(g.(screen := g.screen.(enteredPin := Keypad.Delete(buf))), NoEffect)
      else Transition(g, NoEffect)
    case ClearDigits =>
      Transition(g.(screen := g.screen.(enteredPin := Keypad.Clear(g.screen.enteredPin))), NoEffect)
    case TryEscape =>
      if Keypad.CheckEnabled(buf) then
        var s := Keypad.HandleCheck(g.screen, Page.CorrectPin(g.page));
        Transition(g.(screen := s), if s.isUnlocked then Celebrate else Shake)
      else Transition(g, NoEffect)
    case _ => Transition(g, NoEffect)
  }

  /** The escape screen once unlocked: only Play Again is offered. */
  function StepUnlocked(g: Game, a: Action, policy: ReplayPolicy): (r: Transition)
    requires ModeOf(g) == Unlocked
    ensures a != PlayAgain ==> r == Transition(g, NoEffect)
    ensures a == PlayAgain ==>
      ModeOf(r.next) != Unlocked && r.next.screen == Keypad.FreshScreen && r.effect == NoEffect
    ensures a == PlayAgain && policy == ForgetPin ==>
      ModeOf(r.next) == Creating && GetStoredPin(true, r.next.storage) == None
    ensures a == PlayAgain && policy == KeepPin ==> r.next.storage == g.storage
  {
    match a
    case PlayAgain =>
      var kept := if policy == ForgetPin then ClearPin(true, g.storage) else g.storage;
      Transition(Boot(kept), NoEffect)
    case _ => Transition(g, NoEffect)
  }

  /** One action on whichever screen is showing. Only the check produces an
      effect, and only locking the room or a replay touches the store. */
  function Step(g: Game, a: Action, policy: ReplayPolicy): (r: Transition)
    ensures r.effect != NoEffect ==> a == TryEscape
    ensures r.next.storage != g.storage ==> a == SubmitPin || a == PlayAgain
  {
    match ModeOf(g)
    case Creating => StepCreating(g, a)
    case Entering => StepEntering(g, a)
    case Unlocked => StepUnlocked(g, a, policy)
  }

  /** The game after a sequence of actions. */
  function Run(g: Game, actions: seq<Action>, policy: ReplayPolicy): (r: Game)
    decreases |actions|
  {
    if actions == [] then g else Run(Step(g, actions[0], policy).next, actions[1..], policy)
  }

  /** What holds in every state reachable from a page load. */
  predicate Inv(g: Game) {
    && !g.page.isLoading
    && Bounded(g.form.pin)
    && g.form.error == ""
    && Bounded(g.screen.enteredPin)
    && g.screen.showCelebration == g.screen.isUnlocked
    && (g.page.gameState == Page.Lock ==> g.page.pin == None && g.screen == Keypad.FreshScreen)
    && (g.page.gameState == Page.Escape ==>
          Page.Truthy(g.page.pin) && GetStoredPin(true, g.storage) == g.page.pin)
    && (g.screen.isUnlocked ==>
          g.page.pin == Some(g.screen.enteredPin) && IsPin(g.screen.enteredPin))
  }

  lemma BootEstablishesInv(storage: LocalStorage)
    ensures Inv(Boot(storage))
  {
  }

  lemma StepPreservesInv(g: Game, a: Action, policy: ReplayPolicy)
    requires Inv(g)
    ensures Inv(Step(g, a, policy).next)
  {
  }

  lemma {:induction false} RunPreservesInv(g: Game, actions: seq<Action>, policy: ReplayPolicy)
    requires Inv(g)
    ensures Inv(Run(g, actions, policy))
    decreases |actions|
  {
    if actions != [] {
      StepPreservesInv(g, actions[0], policy);
      RunPreservesInv(Step(g, actions[0], policy).next, actions[1..], policy);
    }
  }

  /** Every reachable buffer and creation field holds at most three digits. */
  lemma ReachableBuffersBounded(storage: LocalStorage, actions: seq<Action>, policy: ReplayPolicy)
    ensures var g := Run(Boot(storage), actions, policy);
      Bounded(g.screen.enteredPin) && Bounded(g.form.pin)
  {
    BootEstablishesInv(storage);
    RunPreservesInv(Boot(storage), actions, policy);
  }

  /** Submitting the creation form: exactly three characters store that PIN
      and open the escape screen; with any other length the lock button is
      disabled and nothing happens. */
  lemma SubmitCreation(g: Game, policy: ReplayPolicy)
    requires Inv(g) && ModeOf(g) == Creating
    ensures var n := Step(g, SubmitPin, policy).next;
      if |g.form.pin| == MaxPinLength then
        ModeOf(n) == Entering && GetStoredPin(true, n.storage) == Some(g.form.pin)
        && n.page.pin == Some(g.form.pin) && n.screen.enteredPin == ""
      else
        Step(g, SubmitPin, policy) == Transition(g, NoEffect)
  {
  }

  /** Any input on the creation field clears the error. */
  lemma TypingClearsError(g: Game, raw: string, policy: ReplayPolicy)
    requires ModeOf(g) == Creating
    ensures Step(g, TypePin(raw), policy).next.form.error == ""
    ensures Step(g, TypePin(raw), policy).next.form.pin == LockScreen.Sanitize(raw)
  {
  }

  /** An enabled check unlocks iff the buffer is the stored PIN; a failed one
      empties the buffer, stays on entry and shakes. The component's check
      against `pin || ""` and the plain script's check against the store at
      that moment make the same decision. */
  lemma CheckDecides(g: Game, policy: ReplayPolicy)
    requires Inv(g) && ModeOf(g) == Entering && Keypad.CheckEnabled(g.screen.enteredPin)
    ensures var t := Step(g, TryEscape, policy);
      && t.next.storage == g.storage
      && t.next.screen == Keypad.HandleTryEscape(g.screen, GetStoredPin(true, g.storage))
      && (ModeOf(t.next) == Unlocked <==> GetStoredPin(true, g.storage) == Some(g.screen.enteredPin))
      && (t.effect == Celebrate <==> ModeOf(t.next) == Unlocked)
      && (ModeOf(t.next) != Unlocked ==>
            ModeOf(t.next) == Entering && t.next.screen.enteredPin == "" && t.effect == Shake)
  {
  }

  /** A disabled check does nothing, unlike the unguarded handler. */
  lemma DisabledCheckIsNoOp(g: Game, policy: ReplayPolicy)
    requires ModeOf(g) == Entering && !Keypad.CheckEnabled(g.screen.enteredPin)
    ensures Step(g, TryEscape, policy) == Transition(g, NoEffect)
  {
  }

  /** The celebration is announced exactly on the step that unlocks. */
  lemma CelebrateExactlyOnUnlock(g: Game, a: Action, policy: ReplayPolicy)
    ensures var t := Step(g, a, policy);
      t.effect == Celebrate <==> ModeOf(g) != Unlocked && ModeOf(t.next) == Unlocked
  {
  }

  /** Apart from Play Again, the mode only moves forward. */
  lemma ModesMoveForward(g: Game, a: Action, policy: ReplayPolicy)
    requires a != PlayAgain
    ensures Rank(ModeOf(Step(g, a, policy).next)) >= Rank(ModeOf(g))
  {
  }

  /** Once unlocked, everything but Play Again is ignored. */
  lemma UnlockedIgnoresAllButReplay(g: Game, a: Action, policy: ReplayPolicy)
    requires ModeOf(g) == Unlocked && a != PlayAgain
    ensures Step(g, a, policy) == Transition(g, NoEffect)
  {
  }

  /** The escape screen never gives way to the lock screen, except by a
      replay that forgets the PIN. */
  lemma EscapeStaysEscape(g: Game, a: Action, policy: ReplayPolicy)
    requires Inv(g) && g.page.gameState == Page.Escape
    requires !(a == PlayAgain && policy == ForgetPin)
    ensures Step(g, a, policy).next.page.gameState == Page.Escape
  {
  }

  /** Play Again in the plain script: the PIN is gone and creation starts over. */
  lemma ReplayForgetting(g: Game)
    requires Inv(g) && ModeOf(g) == Unlocked
    ensures var n := Step(g, PlayAgain, ForgetPin).next;
      ModeOf(n) == Creating && GetStoredPin(true, n.storage) == None
  {
  }

  /** Play Again in the component version: back to entry, same PIN, empty buffer. */
  lemma ReplayKeeping(g: Game)
    requires Inv(g) && ModeOf(g) == Unlocked
    ensures var n := Step(g, PlayAgain, KeepPin).next;
      && ModeOf(n) == Entering && n.storage == g.storage
      && n.page.pin == g.page.pin && n.screen == Keypad.FreshScreen
  {
  }

  /** Reloading after a PIN has been set starts on entry, not creation. */
  lemma ReloadAfterCreation(g: Game)
    requires Inv(g) && ModeOf(g) != Creating
    ensures ModeOf(Boot(g.storage)) == Entering
    ensures Boot(g.storage).page.pin == g.page.pin
  {
  }
}
