/**
 * The browser's key-value store as the components see it: a map from keys to
 * string values that can be unavailable (private mode, disabled storage), in
 * which case every access throws.
 */
module BrowserStorage {
  import opened Wrappers

  /** The exception an unavailable store throws. */
  datatype StorageError = SecurityError

  /** `getItem(key)` on a store in the given state. */
  function Read(items: map<string, string>, available: bool, key: string): (r: Result<Option<string>, StorageError>)
    ensures r.Failure? <==> !available
    ensures r.Success? ==> (r.value.Some? <==> key in items)
    ensures r.Success? && r.value.Some? ==> r.value.value == items[key]
  {
    if !available then Failure(SecurityError)
    else if key in items then Success(Some(items[key]))
    else Success(None)
  }

  /** The contents after `setItem(key, value)`; a failing call changes nothing. */
  function AfterSet(items: map<string, string>, available: bool, key: string, value: string): (r: map<string, string>)
    ensures available ==> key in r && r[key] == value
    ensures forall k :: k != key ==> (k in r <==> k in items)
    ensures forall k :: k != key && k in items ==> r[k] == items[k]
    ensures !available ==> r == items
  {
    if available then items[key := value] else items
  }

  /** The contents after `removeItem(key)`; a failing call changes nothing. */
  function AfterRemove(items: map<string, string>, available: bool, key: string): (r: map<string, string>)
    ensures available ==> key !in r
    ensures forall k :: k != key ==> (k in r <==> k in items)
    ensures forall k :: k != key && k in items ==> r[k] == items[k]
    ensures !available ==> r == items
  {
    if available then items - {key} else items
  }

  /** `window.localStorage`. */
  class Storage {
    var items: map<string, string>
    var available: bool

    constructor (items0: map<string, string>, available0: bool)
      ensures items == items0 && available == available0
    {
      items := items0;
      available := available0;
    }

    method GetItem(key: string) returns (r: Result<Option<string>, StorageError>)
      ensures r == Read(items, available, key)
    {
      if !available {
        r := Failure(SecurityError);
      } else if key in items {
        r := Success(Some(items[key]));
      } else {
        r := Success(None);
      }
    }

    method SetItem(key: string, value: string) returns (r: Result<(), StorageError>)
      modifies this
      ensures items == AfterSet(old(items), old(available), key, value)
      ensures available == old(available)
      ensures r.Failure? <==> !available
    {
      if !available {
        r := Failure(SecurityError);
      } else {
        items := items[key := value];
        r := Success(());
      }
    }

    method RemoveItem(key: string) returns (r: Result<(), StorageError>)
      modifies this
      ensures items == AfterRemove(old(items), old(available), key)
      ensures available == old(available)
      ensures r.Failure? <==> !available
    {
      if !available {
        r := Failure(SecurityError);
      } else {
        items := items - {key};
        r := Success(());
      }
    }
  }

  /** Writing a key and reading it back gives the value written. */
  lemma SetThenRead(items: map<string, string>, key: string, value: string)
    ensures Read(AfterSet(items, true, key, value), true, key) == Success(Some(value))
  {
  }

  /** Removing a key and reading it back gives nothing. */
  lemma RemoveThenRead(items: map<string, string>, key: string)
    ensures Read(AfterRemove(items, true, key), true, key) == Success(None)
  {
  }
}
