/**
 * The language provider: the current locale (English at first), the two
 * translation tables and the `t` lookup, which falls back to English and then
 * to the key itself.
 */
module LanguageContext {
  import opened Wrappers

  datatype Locale = En | Es

  /** The locale's code, as stored in state. */
  function Code(l: Locale): string {
    match l
    case En => "en"
    case Es => "es"
  }

  const EnTable: map<string, string> := map[
    "nav.viewingAs" := "Viewing as",
    "nav.switchView" := "Switch view",
    "nav.fullEcosystem" := "Full ecosystem",
    "landing.title" := "Juan Michel",
    "landing.subtitle" := "An ecosystem of disciplines",
    "landing.whoAreYou" := "Who are you looking for?",
    "landing.welcomeBack" := "Welcome back —",
    "landing.continueAs" := "Continue as",
    "landing.dismiss" := "Dismiss",
    "section.studio" := "Studio",
    "section.papers" := "Papers",
    "section.cv" := "CV & Timeline",
    "section.courses" := "Courses & Certifications",
    "section.client-music" := "Music Projects",
    "section.performances" := "Performances",
    "section.art" := "Art",
    "section.emisito" := "emisito",
    "tag.studio" := "University Portfolio",
    "tag.papers" := "Academic Writing",
    "tag.cv" := "Background",
    "tag.courses" := "Continuing Education",
    "tag.client-music" := "Music Production",
    "tag.performances" := "Live Music",
    "tag.art" := "Visual Art",
    "tag.emisito" := "Music Brand",
    "cv.education" := "Education",
    "cv.experience" := "Experience",
    "cv.awards" := "Awards",
    "cv.all" := "All",
    "cv.download" := "Download CV (PDF)",
    "misc.viewAll" := "View all",
    "misc.read" := "Read",
    "misc.listen" := "Listen",
    "misc.present" := "Present",
    "misc.private" := "Private Project"]

  const EsTable: map<string, string> := map[
    "nav.viewingAs" := "Viendo como",
    "nav.switchView" := "Cambiar vista",
    "nav.fullEcosystem" := "Ecosistema completo",
    "landing.title" := "Juan Michel",
    "landing.subtitle" := "Un ecosistema de disciplinas",
    "landing.whoAreYou" := "¿Quién buscas?",
    "landing.welcomeBack" := "Bienvenido de vuelta —",
    "landing.continueAs" := "Continuar como",
    "landing.dismiss" := "Descartar",
    "section.studio" := "Estudio",
    "section.papers" := "Publicaciones",
    "section.cv" := "CV y Trayectoria",
    "section.courses" := "Cursos y Certificaciones",
    "section.client-music" := "Proyectos Musicales",
    "section.performances" := "Actuaciones",
    "section.art" := "Arte",
    "section.emisito" := "emisito",
    "tag.studio" := "Portfolio Universitario",
    "tag.papers" := "Escritura Académica",
    "tag.cv" := "Trayectoria",
    "tag.courses" := "Educación Continua",
    "tag.client-music" := "Producción Musical",
    "tag.performances" := "Música en Vivo",
    "tag.art" := "Arte Visual",
    "tag.emisito" := "Marca Musical",
    "cv.education" := "Educación",
    "cv.experience" := "Experiencia",
    "cv.awards" := "Reconocimientos",
    "cv.all" := "Todo",
    "cv.download" := "Descargar CV (PDF)",
    "misc.viewAll" := "Ver todo",
    "misc.read" := "Leer",
    "misc.listen" := "Escuchar",
    "misc.present" := "Actualidad",
    "misc.private" := "Proyecto Privado"]

  /** `translations[locale]`. */
  function Table(l: Locale): map<string, string> {
    match l
    case En => EnTable
    case Es => EsTable
  }

  /** `t(key)`: the current locale's entry, else the English one, else the key. */
  function T(locale: Locale, key: string): (r: string)
    ensures key in Table(locale) ==> r == Table(locale)[key]
    ensures key !in Table(locale) && key in EnTable ==> r == EnTable[key]
    ensures key !in Table(locale) && key !in EnTable ==> r == key
  {
    if key in Table(locale) then Table(locale)[key]
    else if key in EnTable then EnTable[key]
    else key
  }

  /** The provider's state: the locale, changed by `setLocale`. */
  class Provider {
    var locale: Locale

    constructor ()
      ensures locale == En
    {
      locale := En;
    }

    method SetLocale(l: Locale)
      modifies this
      ensures locale == l
    {
      locale := l;
    }

    /** `t` bound to the current locale. */
    function Translate(key: string): string
      reads this
    {
      T(locale, key)
    }
  }

  /** `useLanguage()`: the provider, or the error thrown outside one. */
  function UseLanguage(ctx: Option<Provider>): (r: Result<Provider, string>)
    ensures r.Success? <==> ctx.Some?
    ensures r.Success? ==> r.value == ctx.value
    ensures r.Failure? ==> r.error == "useLanguage must be used within LanguageProvider"
  {
    match ctx
    case None => Failure("useLanguage must be used within LanguageProvider")
    case Some(p) => Success(p)
  }

  // ─── properties of the tables ─────────────────────────────────────────────

  /** Both tables translate the same keys. */
  lemma TablesHaveSameKeys()
    ensures EnTable.Keys == EsTable.Keys
  {
  }

  /**
   * Since the tables share their keys, the English fallback is never taken: a
   * key is either translated in the current locale or returned as it is.
   */
  lemma LookupNeverFallsBack(locale: Locale, key: string)
    ensures T(locale, key) == if key in EnTable then Table(locale)[key] else key
  {
    TablesHaveSameKeys();
  }

  /** A key neither table has comes back as itself, in either locale. */
  lemma MissingKeyReturnsItself(key: string)
    requires key !in EnTable
    ensures T(En, key) == key && T(Es, key) == key
  {
    TablesHaveSameKeys();
  }
}
