/**
 * The top-level page of the component version: which screen is shown, the
 * PIN it holds for the escape screen, and whether the start-up read of the
 * store is still pending.
 */
module Page {
  import opened Wrappers
  import opened Storage

  /** gameState */
  datatype GameState = Lock | Escape

  datatype State = State(pin: Option<string>, gameState: GameState, isLoading: bool)

  /** The state before the mount effect runs: no PIN, the lock screen,
      still loading. */
  function Initial(): (s: State)
    ensures s.pin == None && s.gameState == Lock && s.isLoading
  {
    State(None, Lock, true)
  }

  /** JavaScript truthiness of a `string | null`: present and non-empty. */
  predicate Truthy(v: Option<string>)
    ensures Truthy(v) <==> v != None && v != Some("")
  {
    v.Some? && v.value != ""
  }

  /** The mount effect (and initGame of the plain script): a truthy stored PIN
      is adopted and the escape screen shown; loading ends either way. */
  function Mount(s: State, stored: Option<string>): (r: State)
    ensures !r.isLoading
    ensures Truthy(stored) ==> r.pin == stored && r.gameState == Escape
    ensures !Truthy(stored) ==> r.pin == s.pin && r.gameState == s.gameState
  {
    if Truthy(stored) then State(stored, Escape, false) else s.(isLoading := false)
  }

  /** Start-up shows the escape screen iff the stored PIN is truthy. */
  lemma StartupRouting(stored: Option<string>)
    ensures Mount(Initial(), stored).gameState == Escape <==> Truthy(stored)
    ensures Mount(Initial(), stored).gameState == Lock ==> Mount(Initial(), stored).pin == None
  {
  }

  datatype PinSet = PinSet(page: State, storage: LocalStorage)

  /** handlePinSet: remember the new PIN, store it, show the escape screen. */
  function HandlePinSet(s: State, ls: LocalStorage, newPin: string): (r: PinSet)
    ensures r.page.pin == Some(newPin) && r.page.gameState == Escape
    ensures r.page.isLoading == s.isLoading
    ensures GetStoredPin(true, r.storage) == Some(newPin)
    ensures r.storage == StorePin(true, ls, newPin)
  {
    PinSet(State(Some(newPin), Escape, s.isLoading), StorePin(true, ls, newPin))
  }

  /** The escape screen's comparison target: `pin || ""`. */
  function CorrectPin(s: State): (r: string)
    ensures Truthy(s.pin) ==> r == s.pin.value
    ensures !Truthy(s.pin) ==> r == ""
  {
    if s.pin.Some? then s.pin.value else ""
  }

  /** Nothing on the page leads from the escape screen back to the lock screen. */
  lemma EscapeIsFinal(s: State, stored: Option<string>, ls: LocalStorage, newPin: string)
    requires s.gameState == Escape
    ensures Mount(s, stored).gameState == Escape
    ensures HandlePinSet(s, ls, newPin).page.gameState == Escape
  {
  }
}
