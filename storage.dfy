/** The browser's `localStorage`: a record of string keys to string values. */
module Storage {
  import opened Wrappers

  const TokenKey := "token"
  const EmailKey := "email"
  const UsernameKey := "username"
  const RoleKey := "role"
  const RoleIdKey := "roleId"

  /** The five keys the login page writes and the top menu erases. */
  const SessionKeys: set<string> := {TokenKey, EmailKey, UsernameKey, RoleKey, RoleIdKey}

  /** `getItem`: the stored value, or `null` (None) when the key is absent. */
  function Lookup(m: map<string, string>, key: string): (v: Option<string>)
    ensures v.Some? <==> key in m
    ensures v.Some? ==> v.value == m[key]
  {
    if key in m then Some(m[key]) else None
  }

  class LocalStorage {
    var items: map<string, string>

    constructor (initial: map<string, string>)
      ensures items == initial
    {
      items := initial;
    }

    method GetItem(key: string) returns (v: Option<string>)
      ensures v.Some? <==> key in items
      ensures v.Some? ==> v.value == items[key]
    {
      v := if key in items then Some(items[key]) else None;
    }

    method SetItem(key: string, value: string)
      modifies this
      ensures items == old(items)[key := value]
    {
      items := items[key := value];
    }

    method RemoveItem(key: string)
      modifies this
      ensures items == old(items) - {key}
    {
      items := items - {key};
    }
  }
}
