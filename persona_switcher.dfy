/**
 * The persona menu in the top bar, the language toggle beside it, and the
 * `useLastPersona` hook that reads back (and clears) the remembered persona.
 */
module PersonaSwitcher {
  import opened Wrappers
  import opened Seqs
  import opened Personas
  import opened BrowserStorage
  import opened LanguageContext
  import opened Content

  // ─── the menu ─────────────────────────────────────────────────────────────

  function NotCurrent(current: PersonaSlug): PersonaSlug -> bool {
    s => s != current
  }

  /** `others`: every persona but the current one, in table order. */
  function Others(current: PersonaSlug): (r: seq<PersonaSlug>)
    ensures |r| == 2
    ensures current !in r
    ensures forall p :: p != current ==> p in r
    ensures forall i, j :: 0 <= i < j < |r| ==> r[i] != r[j]
  {
    OthersExactlyTheRest(current);
    Filter(PersonaSlugs, NotCurrent(current))
  }

  lemma OthersShape(current: PersonaSlug)
    ensures Filter(PersonaSlugs, NotCurrent(current)) ==
      match current
      case Architect => [Musician, Artist]
      case Musician => [Architect, Artist]
      case Artist => [Architect, Musician]
  {
    var f := NotCurrent(current);
    assert PersonaSlugs[1..][1..][1..] == [];
    assert Filter(PersonaSlugs, f) == (if f(Architect) then [Architect] else []) + Filter(PersonaSlugs[1..], f);
    assert Filter(PersonaSlugs[1..], f) == (if f(Musician) then [Musician] else []) + Filter(PersonaSlugs[1..][1..], f);
    assert Filter(PersonaSlugs[1..][1..], f) == (if f(Artist) then [Artist] else []);
  }

  /** The other personas are the two slugs different from `current`, each once. */
  lemma OthersExactlyTheRest(current: PersonaSlug)
    ensures var r := Filter(PersonaSlugs, NotCurrent(current));
      && |r| == 2
      && current !in r
      && (forall p :: p != current ==> p in r)
      && (forall i, j :: 0 <= i < j < |r| ==> r[i] != r[j])
  {
    OthersShape(current);
    match current
    case Architect =>
    case Musician =>
    case Artist =>
  }

  /** The menu's entries: a link per other persona, then the link back to the landing page. */
  function MenuHrefs(current: PersonaSlug): (r: seq<string>)
    ensures |r| == 3 && r[2] == "/"
    ensures forall i :: 0 <= i < 2 ==> r[i] == "/" + SlugName(Others(current)[i])
  {
    Map(Others(current), (s: PersonaSlug) => "/" + SlugName(s)) + ["/"]
  }

  /** Whether the dropdown is open. */
  class Menu {
    var open: bool

    constructor ()
      ensures !open
    {
      open := false;
    }

    /** The menu button flips the dropdown. */
    method Toggle()
      modifies this
      ensures open == !old(open)
    {
      open := !open;
    }

    /** Following any menu link closes the dropdown. */
    method ItemClicked()
      modifies this
      ensures !open
    {
      open := false;
    }

    /** A mousedown closes the dropdown when it lands outside the menu, and leaves it otherwise. */
    method MouseDown(insideMenu: bool)
      modifies this
      ensures open == (old(open) && insideMenu)
    {
      if !insideMenu {
        open := false;
      }
    }
  }

  // ─── the language toggle ───────────────────────────────────────────────────

  /** The locale the toggle switches to. */
  function Toggled(l: Locale): (r: Locale)
    ensures r != l
  {
    match l
    case En => Es
    case Es => En
  }

  /** The toggle's label names the locale it switches to. */
  function ToggleLabel(l: Locale): (r: string)
    ensures r == if Toggled(l) == Es then "ES" else "EN"
  {
    if l == En then "ES" else "EN"
  }

  /** The toggle's click handler on the provider. */
  method ToggleLanguage(provider: Provider)
    modifies provider
    ensures provider.locale == Toggled(old(provider.locale))
  {
    provider.SetLocale(if provider.locale == En then Es else En);
  }

  /** Toggling twice restores the locale. */
  lemma ToggleTwice(l: Locale)
    ensures Toggled(Toggled(l)) == l
  {
  }

  // ─── useLastPersona ───────────────────────────────────────────────────────

  /** What the mount effect reads: a non-empty stored value that names a persona. */
  function LoadedPersona(items: map<string, string>, available: bool): (r: Option<PersonaSlug>)
    ensures r.Some? <==> available && StorageKey in items && IsValidPersona(items[StorageKey])
    ensures r.Some? ==> SlugName(r.value) == items[StorageKey]
  {
    match Read(items, available, StorageKey)
    case Failure(_) => None
    case Success(stored) =>
      if Truthy(stored) then ParseSlug(stored.value) else None
  }

  /** The same read with the validity test as written, which also passes inherited names. */
  function LoadedAsWritten(items: map<string, string>, available: bool): (r: Option<string>)
    ensures r.Some? <==> available && StorageKey in items && items[StorageKey] != "" && IsValidPersonaAsWritten(items[StorageKey])
    ensures r.Some? ==> r.value == items[StorageKey]
  {
    match Read(items, available, StorageKey)
    case Failure(_) => None
    case Success(stored) =>
      if Truthy(stored) && IsValidPersonaAsWritten(stored.value) then stored else None
  }

  /** The hook's state. */
  class LastPersonaHook {
    var lastPersona: Option<PersonaSlug>

    constructor ()
      ensures lastPersona == None
    {
      lastPersona := None;
    }

    /** The mount effect: adopt a valid stored persona; on anything else, or a throwing store, keep the state. */
    method Mount(storage: Storage)
      modifies this
      ensures LoadedPersona(storage.items, storage.available).Some? ==>
        lastPersona == LoadedPersona(storage.items, storage.available)
      ensures LoadedPersona(storage.items, storage.available).None? ==> lastPersona == old(lastPersona)
    {
      var stored := storage.GetItem(StorageKey);
      match stored
      case Failure(_) =>
      case Success(v) =>
        if v.Some? && v.value != "" {
          var p := ParseSlug(v.value);
          if p.Some? {
            lastPersona := p;
          }
        }
    }

    /** `clear`: remove the key (ignoring a throwing store), then forget the persona. */
    method Clear(storage: Storage)
      modifies this, storage
      ensures storage.items == AfterRemove(old(storage.items), old(storage.available), StorageKey)
      ensures storage.available == old(storage.available)
      ensures lastPersona == None
    {
      var r := storage.RemoveItem(StorageKey);
      lastPersona := None;
    }
  }

  // ─── the preference as a two-state machine ────────────────────────────────

  /** Saving a persona and reading it back yields that persona. */
  lemma SaveThenLoad(items: map<string, string>, slug: PersonaSlug)
    ensures LoadedPersona(AfterSet(items, true, StorageKey, SlugName(slug)), true) == Some(slug)
  {
    SlugRoundTrip(slug);
  }

  /** After a clear on an available store, nothing is read back. */
  lemma ClearThenLoad(items: map<string, string>)
    ensures LoadedPersona(AfterRemove(items, true, StorageKey), true) == None
  {
  }

  /** A throwing store reads back nothing. */
  lemma UnavailableLoadsNothing(items: map<string, string>)
    ensures LoadedPersona(items, false) == None
  {
  }

  /** A stored inherited property name passes the check as written, though it names no persona. */
  lemma InheritedNameLoadedAsWritten()
    ensures LoadedAsWritten(map[StorageKey := "toString"], true) == Some("toString")
    ensures LoadedPersona(map[StorageKey := "toString"], true) == None
  {
    InheritedNameAccepted();
  }

  /** The corrected read agrees with the one as written whenever it finds a persona. */
  lemma LoadedAgreesWhenValid(items: map<string, string>, available: bool)
    ensures LoadedPersona(items, available).Some? ==>
      LoadedAsWritten(items, available) == Some(SlugName(LoadedPersona(items, available).value))
  {
    if LoadedPersona(items, available).Some? {
      ValidationVersionsAgreeOnKeys(items[StorageKey]);
    }
  }
}
