/**
 * `PersonaSaveEffect`: on mount, remember the persona being viewed under the
 * storage key, ignoring a store that throws.
 */
module PersonaSaveEffect {
  import opened Wrappers
  import opened Personas
  import opened BrowserStorage

  /** The store's contents after the effect has run for `slug`. */
  function Saved(items: map<string, string>, available: bool, slug: PersonaSlug): map<string, string> {
    AfterSet(items, available, StorageKey, SlugName(slug))
  }

  /** The effect itself: a best-effort write whose failure is swallowed. */
  method SaveEffect(storage: Storage, slug: PersonaSlug)
    modifies storage
    ensures storage.items == Saved(old(storage.items), old(storage.available), slug)
    ensures storage.available == old(storage.available)
  {
    var r := storage.SetItem(StorageKey, SlugName(slug));
    match r
    case Success(_) =>
    case Failure(_) =>
  }

  /** With the store available, the key holds the slug afterwards. */
  lemma SaveWritesSlug(items: map<string, string>, slug: PersonaSlug)
    ensures StorageKey in Saved(items, true, slug) && Saved(items, true, slug)[StorageKey] == SlugName(slug)
  {
  }

  /** With the store unavailable, nothing changes. */
  lemma SaveUnavailableUnchanged(items: map<string, string>, slug: PersonaSlug)
    ensures Saved(items, false, slug) == items
  {
  }

  /** Saving the same slug twice leaves the store as saving it once. */
  lemma SaveIdempotent(items: map<string, string>, available: bool, slug: PersonaSlug)
    ensures Saved(Saved(items, available, slug), available, slug) == Saved(items, available, slug)
  {
  }

  /** The last save wins: an earlier save is overwritten. */
  lemma LastSaveWins(items: map<string, string>, available: bool, first: PersonaSlug, second: PersonaSlug)
    ensures Saved(Saved(items, available, first), available, second) == Saved(items, available, second)
  {
  }

  /** Only the storage key is written; every other key keeps its presence and value. */
  lemma SaveOnlyTouchesKey(items: map<string, string>, available: bool, slug: PersonaSlug, k: string)
    requires k != StorageKey
    ensures k in Saved(items, available, slug) <==> k in items
    ensures k in items ==> Saved(items, available, slug)[k] == items[k]
  {
  }
}
