/**
 * The browser's per-tab `sessionStorage`, a string-to-string store that outlives a page
 * reload, and the JavaScript truthiness test the restore effect applies to what it reads.
 */
module SessionStorage {

  import opened Wrappers

  type Store = map<string, string>

  const TokenKey: string := "token"
  const UsernameKey: string := "username"

  /** `sessionStorage.getItem(key)`: `null` when the key was never set. */
  function GetItem(store: Store, key: string): Option<string>
  {
    if key in store then Some(store[key]) else None
  }

  /** `sessionStorage.setItem(key, value)`: a later read of `key` sees `value`, other keys are untouched. */
  function SetItem(store: Store, key: string, value: string): (r: Store)
    ensures GetItem(r, key) == Some(value)
    ensures forall k :: k != key ==> GetItem(r, k) == GetItem(store, k)
  {
    store[key := value]
  }

  /** `if (item)` on a `getItem` result: `null` and the empty string are both falsy. */
  predicate Truthy(item: Option<string>)
  {
    item.Some? && item.value != ""
  }
}
