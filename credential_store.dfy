/** The credential store: one string slot in the browser's key-value
    storage, under a fixed key. The storage itself is a map from keys to
    strings; other keys in it belong to other code and are never touched. */
module CredentialStore {
  import opened Wrappers

  /** The one storage key the service reads and writes. */
  const ApiKeyStorageKey: string := "storm_ai_api_key"

  /** `getItem` on the credential slot: the stored string, or none. */
  function Lookup(items: map<string, string>): (r: Option<string>)
    ensures r.Some? <==> ApiKeyStorageKey in items
    ensures r.Some? ==> r.value == items[ApiKeyStorageKey]
  {
    if ApiKeyStorageKey in items then Some(items[ApiKeyStorageKey]) else None
  }

  /** `setItem` on the credential slot: overwrites unconditionally. */
  function WithKey(items: map<string, string>, key: string): (r: map<string, string>)
    ensures r.Keys == items.Keys + {ApiKeyStorageKey}
    ensures r[ApiKeyStorageKey] == key
    ensures forall k :: k in items && k != ApiKeyStorageKey ==> r[k] == items[k]
  {
    items[ApiKeyStorageKey := key]
  }

  /** `removeItem` on the credential slot. */
  function WithoutKey(items: map<string, string>): (r: map<string, string>)
    ensures r.Keys == items.Keys - {ApiKeyStorageKey}
    ensures forall k :: k in r ==> r[k] == items[k]
  {
    items - {ApiKeyStorageKey}
  }

  /** JavaScript truthiness of a `string | null`: present and non-empty. */
  predicate IsUsable(k: Option<string>): (b: bool)
    ensures b <==> k != None && k != Some("")
  {
    k.Some? && k.value != ""
  }

  /** Storing a key and reading it back gives that key. */
  lemma SetThenGet(items: map<string, string>, key: string)
    ensures Lookup(WithKey(items, key)) == Some(key)
  {
  }

  /** After removal nothing is read back. */
  lemma RemoveThenGet(items: map<string, string>)
    ensures Lookup(WithoutKey(items)) == None
  {
  }

  /** A later store overwrites the earlier one; only the last key remains. */
  lemma SetOverwrites(items: map<string, string>, first: string, second: string)
    ensures WithKey(WithKey(items, first), second) == WithKey(items, second)
    ensures Lookup(WithKey(WithKey(items, first), second)) == Some(second)
  {
  }

  /** Removing after storing leaves the storage as if nothing had been stored. */
  lemma RemoveUndoesSet(items: map<string, string>, key: string)
    ensures WithoutKey(WithKey(items, key)) == WithoutKey(items)
  {
  }

  /** Neither store nor removal touches any key other than the credential slot. */
  lemma OtherKeysUntouched(items: map<string, string>, key: string, other: string)
    requires other != ApiKeyStorageKey
    ensures other in WithKey(items, key) <==> other in items
    ensures other in WithoutKey(items) <==> other in items
    ensures other in items ==> WithKey(items, key)[other] == items[other]
    ensures other in items ==> WithoutKey(items)[other] == items[other]
  {
  }

  /** A stored key makes the credential usable exactly when it is non-empty:
      storing `""` still leaves the service without a key. */
  lemma UsableAfterSet(items: map<string, string>, key: string)
    ensures IsUsable(Lookup(WithKey(items, key))) <==> key != ""
  {
  }

  /** The browser's local storage, reduced to its key-value map. */
  class ApiKeyStore {
    var items: map<string, string>

    constructor (initial: map<string, string>)
      ensures items == initial
    {
      items := initial;
    }

    /** The value in the credential slot, as `getStoredApiKey` reads it. */
    function StoredKey(): (r: Option<string>)
      reads this
      ensures r.Some? <==> ApiKeyStorageKey in items
      ensures r.Some? ==> r.value == items[ApiKeyStorageKey]
    {
      Lookup(items)
    }

    /** `getStoredApiKey`: the slot's value, or none when the slot is empty. */
    method GetStoredApiKey() returns (k: Option<string>)
      ensures k.Some? <==> ApiKeyStorageKey in items
      ensures k.Some? ==> k.value == items[ApiKeyStorageKey]
    {
      if ApiKeyStorageKey in items {
        k := Some(items[ApiKeyStorageKey]);
      } else {
        k := None;
      }
    }

    /** `setStoredApiKey`: overwrites the slot, leaves every other key alone. */
    method SetStoredApiKey(key: string)
      modifies this
      ensures items == WithKey(old(items), key)
      ensures StoredKey() == Some(key)
      ensures forall other :: other != ApiKeyStorageKey ==>
        (other in items <==> other in old(items)) &&
        (other in items ==> items[other] == old(items)[other])
    {
      items := items[ApiKeyStorageKey := key];
    }

    /** `removeStoredApiKey`: empties the slot, leaves every other key alone. */
    method RemoveStoredApiKey()
      modifies this
      ensures items == WithoutKey(old(items))
      ensures StoredKey() == None
      ensures forall other :: other != ApiKeyStorageKey ==>
        (other in items <==> other in old(items)) &&
        (other in items ==> items[other] == old(items)[other])
    {
      items := items - {ApiKeyStorageKey};
    }

    /** `hasApiKey`: true exactly when a non-empty key is stored. */
    method HasApiKey() returns (b: bool)
      ensures b <==> ApiKeyStorageKey in items && items[ApiKeyStorageKey] != ""
    {
      var k := GetStoredApiKey();
      b := k.Some? && k.value != "";
    }
  }
}
