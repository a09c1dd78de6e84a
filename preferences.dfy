/**
 * The application's `SharedPreferences` store: a map from key to a typed value,
 * read with a default, and written through an `Editor` whose staged changes
 * reach the store only on `commit`.
 */
module Preferences {

  /** The five value kinds a preference can hold (a float is kept as its text). */
  datatype PrefValue =
    | BoolValue(b: bool)
    | StringValue(s: string)
    | IntValue(i: int)
    | LongValue(l: int)
    | FloatText(text: string)

  type Store = map<string, PrefValue>

  /** `getBoolean(key, default)`. */
  function GetBoolean(store: Store, key: string, default: bool): bool
  {
    if key in store && store[key].BoolValue? then store[key].b else default
  }

  /** `getString(key, default)`. */
  function GetString(store: Store, key: string, default: string): string
  {
    if key in store && store[key].StringValue? then store[key].s else default
  }

  /** The persistent preference store of the application. */
  class SharedPreferences {
    var values: Store

    constructor (initial: Store)
      ensures values == initial
    {
      values := initial;
    }
  }

  /**
   * `SharedPreferences.Editor`: `put*` calls stage a value (the last one for a
   * key wins), `clear` asks for the store to be emptied, and `commit` applies
   * the clear first and the staged values after it.
   */
  class Editor {
    const target: SharedPreferences
    var pending: Store
    var clearRequested: bool

    constructor (target: SharedPreferences)
      ensures this.target == target
      ensures pending == map[] && !clearRequested
    {
      this.target := target;
      pending := map[];
      clearRequested := false;
    }

    /** `putBoolean`, `putString`, `putInt`, `putLong` and `putFloat`. */
    method Put(key: string, value: PrefValue)
      modifies this
      ensures pending == old(pending)[key := value]
      ensures clearRequested == old(clearRequested)
    {
      pending := pending[key := value];
    }

    method Clear()
      modifies this
      ensures clearRequested
      ensures pending == old(pending)
    {
      clearRequested := true;
    }

    method Commit()
      modifies target
      ensures target.values == (if clearRequested then map[] else old(target.values)) + pending
    {
      var base := if clearRequested then map[] else target.values;
      target.values := base + pending;
    }
  }
}
