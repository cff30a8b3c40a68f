/**
 * The single-slot PIN store. The browser's localStorage is a map from keys
 * to strings; the game only ever touches one key. `typeof window !==
 * "undefined"` becomes the flag `hasWindow`: without a window every
 * operation is inert and reads answer null. The copy of these helpers in
 * the plain-script version is the `hasWindow == true` instance.
 */
module Storage {
  import opened Wrappers

  type LocalStorage = map<string, string>

  /** PIN_STORAGE_KEY */
  const PinStorageKey: string := "escape-room-pin"

  /** storePin: overwrite the PIN slot with `pin`, unvalidated. */
  function StorePin(hasWindow: bool, ls: LocalStorage, pin: string): (r: LocalStorage)
    ensures hasWindow ==> PinStorageKey in r && r[PinStorageKey] == pin
    ensures hasWindow ==> r.Keys == ls.Keys + {PinStorageKey}
    ensures forall k :: k in ls && k != PinStorageKey ==> k in r && r[k] == ls[k]
    ensures !hasWindow ==> r == ls
  {
    if hasWindow then ls[PinStorageKey := pin] else ls
  }

  /** getStoredPin: the PIN slot, or null when it is empty or there is no window. */
  function GetStoredPin(hasWindow: bool, ls: LocalStorage): (r: Option<string>)
    ensures r.Some? <==> hasWindow && PinStorageKey in ls
    ensures r.Some? ==> r.value == ls[PinStorageKey]
  {
    if hasWindow && PinStorageKey in ls then Some(ls[PinStorageKey]) else None
  }

  /** clearPin: empty the PIN slot. */
  function ClearPin(hasWindow: bool, ls: LocalStorage): (r: LocalStorage)
    ensures hasWindow ==> r.Keys == ls.Keys - {PinStorageKey}
    ensures forall k :: k in r ==> k in ls && r[k] == ls[k]
    ensures !hasWindow ==> r == ls
  {
    if hasWindow then ls - {PinStorageKey} else ls
  }

  /** Any string, leading zeros and all, comes back unchanged. */
  lemma StoreThenGet(ls: LocalStorage, pin: string)
    ensures GetStoredPin(true, StorePin(true, ls, pin)) == Some(pin)
  {
  }

  lemma ClearThenGet(hasWindow: bool, ls: LocalStorage)
    ensures GetStoredPin(hasWindow, ClearPin(hasWindow, ls)) == None
  {
  }

  /** One key, so the later of two stores wins outright. */
  lemma LastWriteWins(ls: LocalStorage, first: string, second: string)
    ensures StorePin(true, StorePin(true, ls, first), second) == StorePin(true, ls, second)
  {
  }

  /** Clearing after storing leaves no trace of the stored PIN. */
  lemma StoreThenClear(ls: LocalStorage, pin: string)
    requires PinStorageKey !in ls
    ensures ClearPin(true, StorePin(true, ls, pin)) == ls
  {
  }

  /** Without a window nothing is read and nothing is written. */
  lemma NoWindowIsInert(ls: LocalStorage, pin: string)
    ensures GetStoredPin(false, ls) == None
    ensures StorePin(false, ls, pin) == ls && ClearPin(false, ls) == ls
  {
  }
}
