# Persona portfolio — a verified model

The site presents one person through three personas: the architect, the
musician and the artist. A static registry gives each persona a theme and
one entry per page section. Each entry has a section id, a variant
(`featured`, `standard`, `compact` or `hidden`) and an `order`.
This project models in Dafny the logic that sits on that registry:

- **Registry** (`personas.dfy`): the `PERSONAS` table, `PERSONA_SLUGS`, the storage key, slug validation and the navigation labels.
- **Content** (`content.dfy`): the record types and the static collections, with their uniqueness and consistency facts, and the `find`-by-id used by the sections' selection state.
- **Section rendering** (`section_renderer.dfy`): `getVariant`, the stable sort of a copy of the sections by `order`, the generic `switch` dispatch and the musician's two-column layout.
- **Navigation** (`navigation.dfy`): the filter/sort/take-5 chain, link targets, the right-hand controls and the `scrolled` flag.
- **Preference store** (`browser_storage.dfy`, `persona_save_effect.dfy`, `persona_switcher.dfy`): a key-value store that may be unavailable. The model covers the best-effort save, the validated load and `clear`, plus the persona menu and the language toggle.
- **Translation** (`language_context.dfy`): the two tables, the lookup with its two fallbacks, and the provider guard.
- **Project viewer** (`project_viewer.dfy`): the page list and the bounded page index with its slide direction.
- **Section helpers** (`cv_section.dfy`, `courses_section.dfy`, `performances_section.dfy`, `client_music_section.dfy`, `studio_section.dfy`, `art_section.dfy`, `papers_section.dfy`, `emisito_section.dfy`): the partitions, the compact strips, the variant dispatch and the selection state of each section. `compact_strip.dfy` holds the strip shape they share.

Shared support modules:
- `wrappers.dfy`: `Option` and `Result`.
- `seqs.dfy`: `filter`, `find`, `slice(0, k)` and `map`, each with JavaScript's semantics.
- `text.dfy`: decimal rendering of integers and `padStart(2, '0')`.

Where the source changes state in place, the model uses a class. This covers the storage, the hook's `lastPersona`, the menu's `open` flag, the locale, the viewer's page and direction, and the toggles and selections of the sections. Everything else is a function.

## Model

| member | source | states |
|---|---|---|
| Seqs.Filter | components/Navigation.tsx:26 | every kept element satisfies the test and comes from the input, and every input element that satisfies it is kept |
| Seqs.FilterKeepsOrder | components/Navigation.tsx:26 | the filtered list holds exactly the elements at the positions that pass the test, one each, in ascending order of position |
| Seqs.Take | components/Navigation.tsx:28 | `slice(0, k)`: the first `min(k, n)` elements |
| Seqs.Find | components/SectionRenderer.tsx:23 | nothing iff no element satisfies the test; otherwise the first element that does |
| Seqs.FilterSplit | components/sections/CoursesSection.tsx:12-13 | filtering by a test and by its negation splits a list without loss |
| Text.NatToStringRoundTrip | components/sections/StudioSection.tsx:107 | `String(n)` reads back as `n` |
| Text.NatToStringInjective | components/sections/StudioSection.tsx:107 | different numbers never print alike |
| Text.PaddedNumber | components/sections/StudioSection.tsx:107 | `padStart(2, '0')` of `String(n)` has at least two digits and reads back as `n` |
| Personas.ParseSlug | lib/personas.ts:120-122 | a string parses to a slug exactly when it is one of the three own keys, and the slug's name is that string |
| Personas.SectionsComplete | lib/personas.ts:42-114 | every persona lists each of the six section ids, and no id twice |
| Personas.SectionsDistinct | lib/personas.ts:42-114 | no persona lists a section id twice |
| Personas.SectionsCovered | lib/personas.ts:42-114 | every persona lists every section id |
| Personas.OrdersAreOneToSix | lib/personas.ts:42-114 | each persona has six entries whose orders are 1..6 by position, hence pairwise distinct |
| Personas.SlugMatchesKey | lib/personas.ts:42-114 | the record stored under each key carries that key as its `slug` |
| Personas.PersonaSlugsExact | lib/personas.ts:116 | `PERSONA_SLUGS` holds each persona once, and each name is an own key of the table |
| Personas.IsValidPersonaExact | lib/personas.ts:120-122 | the intended validation accepts exactly the names of the three personas |
| Personas.SlugRoundTrip | lib/personas.ts:120-122 | every slug passes validation and parses back to itself |
| Personas.InheritedNameAccepted | lib/personas.ts:120-122 | as written (`slug in PERSONAS`), validation accepts "toString", which names no persona |
| Personas.ValidationVersionsAgreeOnKeys | lib/personas.ts:120-122 | the written and the intended validation differ only on inherited property names |
| Personas.ArchitectScenario | lib/personas.ts:57-64 | architect: studio featured/1, cv featured/2, courses standard/3, the rest hidden |
| Personas.MusicianScenario | lib/personas.ts:81-88 | musician: performances featured/1, client-music featured/2, the rest hidden |
| Personas.ArtistScenario | lib/personas.ts:105-112 | artist: art featured/1, the rest hidden |
| Personas.SectionLabelsDefined | lib/personas.ts:125-132 | every section id has a non-empty label, and the labels are distinct |
| Content.StudioIdsHead | lib/content.ts:140-174 | the first three studio projects carry the ids s1, s3 and s_playtroll, out of five |
| Content.StudioIdsTail | lib/content.ts:187-201 | the last two studio projects carry the ids s2 and s4 |
| Content.StudioIdsUnique | lib/content.ts:138-212 | studio project ids are pairwise distinct |
| Content.CvIdsHead | lib/content.ts:229-259 | the first four CV entries carry the ids cv1, cv1b, cv2 and cv3, out of seven |
| Content.CvIdsTail | lib/content.ts:269-289 | the last three CV entries carry the ids cv4, cv4b and cv5 |
| Content.CvIdsUnique | lib/content.ts:227-298 | CV entry ids are pairwise distinct |
| Content.CourseIdsUnique | lib/content.ts:300-338 | course ids are pairwise distinct |
| Content.MusicIdsUnique | lib/content.ts:340-392 | music project ids are pairwise distinct |
| Content.PerformanceIdsUnique | lib/content.ts:394-445 | performance ids are pairwise distinct |
| Content.ArtIdsUnique | lib/content.ts:447-502 | art piece ids are pairwise distinct |
| Content.CvYearsOrdered | lib/content.ts:227-298 | every CV entry with a numeric end year starts no later than it ends |
| Content.CertifiedCourses | lib/content.ts:300-338 | exactly c2 and c5 of the five courses carry a certificate link |
| Content.PerformanceMix | lib/content.ts:394-445 | the performances are recital, band, recital, band; exactly perf1 and perf2 are featured |
| Content.MusicFlags | lib/content.ts:340-392 | only m3 is an own project and only m4 is private |
| Content.SelectedBy | components/sections/StudioSection.tsx:164 | the selection is present iff some record has the selected id, and it is a record of the list carrying that id |
| Content.SelectedIsUnique | components/sections/ArtSection.tsx:144 | with distinct ids, the selection is the one record with the selected id |
| SectionRenderer.GetVariant | components/SectionRenderer.tsx:22-24 | the variant of the first entry with the id, or `hidden` when no entry has it |
| SectionRenderer.GetVariantOfEntry | components/SectionRenderer.tsx:22-24 | with distinct ids, looking up an entry's id gives that entry's variant |
| SectionRenderer.SortByOrderCorrect | components/SectionRenderer.tsx:27 | the sorted copy is ascending by order, a permutation of the sections, and stable: entries with equal order keep their relative order |
| SectionRenderer.SortByOrderSorted | components/SectionRenderer.tsx:27 | the sorted copy is ascending by order |
| SectionRenderer.SortByOrderPerm | components/SectionRenderer.tsx:27 | the sorted copy holds the same entries as the input, with the same multiplicities |
| SectionRenderer.SortByOrderStable | components/SectionRenderer.tsx:27 | for each order value, the entries carrying it appear in the sorted copy in their input order |
| SectionRenderer.InsertByOrderIds | components/SectionRenderer.tsx:27 | inserting an entry adds exactly its id to the multiset of ids |
| SectionRenderer.SortByOrderIds | components/SectionRenderer.tsx:27 | sorting keeps the multiset of section ids |
| SectionRenderer.SortByOrderSortedIdentity | components/SectionRenderer.tsx:27 | a list already sorted by order is returned unchanged |
| SectionRenderer.InsertByOrderSorted | components/SectionRenderer.tsx:27 | one insertion step keeps the list sorted |
| SectionRenderer.InsertByOrderPerm | components/SectionRenderer.tsx:27 | one insertion step adds exactly the inserted entry |
| SectionRenderer.InsertByOrderClasses | components/SectionRenderer.tsx:27 | an inserted entry goes before the entries with its own order, which is what keeps the sort stable |
| SectionRenderer.SortFilterCommute | components/Navigation.tsx:25-27 | filtering then sorting equals sorting then filtering |
| SectionRenderer.FilterInsertByOrder | components/SectionRenderer.tsx:27 | inserting into a sorted list commutes with filtering |
| SectionRenderer.Dispatch | components/SectionRenderer.tsx:70-123 | each id is given its own variant and collections (cv also gets the courses), the persona except for courses and art, and no column flag |
| SectionRenderer.RenderOrdered | components/SectionRenderer.tsx:66-68 | every rendered section is visible, carries `getVariant` of its id and its own content |
| SectionRenderer.RenderOrderedDistinct | components/SectionRenderer.tsx:66-68 | with distinct ids, the rendered ids are the visible entries of the ordered list, in that order |
| SectionRenderer.RenderedAreVisibleSorted | components/SectionRenderer.tsx:64-128 | on the generic path the rendered ids are the non-hidden entries sorted by order |
| SectionRenderer.AllHiddenRendersNothing | components/SectionRenderer.tsx:64-128 | a configuration whose sections are all hidden renders an empty container |
| SectionRenderer.GetVariantIgnoresOrder | components/SectionRenderer.tsx:22-24 | changing the order values never changes the variant found for an id |
| SectionRenderer.MusicianIgnoresOrder | components/SectionRenderer.tsx:32-61 | the musician's page does not depend on the order values |
| SectionRenderer.MusicianColumnsShape | components/SectionRenderer.tsx:32-61 | the musician's page is performances then client-music, each present iff not hidden, both as columns, each given `getVariant` of its id and the musician persona |
| SectionRenderer.RenderSortedConfig | components/SectionRenderer.tsx:27 | a configuration already sorted by order renders in its own order |
| SectionRenderer.RenderVisiblePrefix3 | components/SectionRenderer.tsx:66-68 | three visible entries followed by hidden ones render exactly those three |
| SectionRenderer.RenderVisiblePrefix1 | components/SectionRenderer.tsx:66-68 | one visible entry followed by hidden ones renders exactly that one |
| SectionRenderer.RenderTail | components/SectionRenderer.tsx:66-68 | a run of hidden entries renders nothing |
| SectionRenderer.ArchitectRenders | components/SectionRenderer.tsx:64-128 | the architect page renders studio and cv featured, then courses standard |
| SectionRenderer.MusicianRenders | components/SectionRenderer.tsx:32-61 | the musician page renders the performances and client-music columns, both featured |
| SectionRenderer.ArtistRenders | components/SectionRenderer.tsx:64-128 | the artist page renders the art section alone, featured |
| Navigation.NavBar.constructor | components/Navigation.tsx:15 | the bar starts unscrolled |
| Navigation.NavBar.OnScroll | components/Navigation.tsx:18 | `scrolled` holds iff `scrollY > 40` |
| Navigation.NavIds | components/Navigation.tsx:24-30 | at most five links: as many as there are visible sections, capped at five |
| Navigation.NavSections | components/Navigation.tsx:24-30 | no links without a persona; otherwise the persona's visible sections |
| Navigation.NavIdsArePagePrefix | components/Navigation.tsx:26-28 | the links are the first five sections of the rendered page, in page order |
| Navigation.NavIdsVisible | components/Navigation.tsx:26 | every linked section has a non-hidden variant |
| Navigation.NavIdsComplete | components/Navigation.tsx:26-28 | with at most five visible sections, the links are exactly the visible sections' ids, as many times each as they occur |
| Navigation.NavIdsOfVisiblePrefix | components/Navigation.tsx:24-30 | sorted visible entries followed by hidden ones give exactly their ids |
| Navigation.ArchitectNav | components/Navigation.tsx:24-30 | the architect's links are studio, cv, courses |
| Navigation.MusicianNav | components/Navigation.tsx:24-30 | the musician's links are performances, client-music |
| Navigation.ArtistNav | components/Navigation.tsx:24-30 | the artist's only link is art |
| Navigation.LinkFor | components/Navigation.tsx:52-70 | the architect's cv links to the `/cv` page, every other link to `#id`; the text is the section label |
| Navigation.CenterLinks | components/Navigation.tsx:50-73 | center links appear only on a persona page with a persona, one per linked section |
| Navigation.RightControls | components/Navigation.tsx:76-89 | the language toggle first and always; the persona switcher for the current persona iff on a persona page with a persona; the contact link to `mailto:hello@whoisjuanmichel.com` iff on the landing page; nothing else |
| BrowserStorage.Read | components/PersonaSwitcher.tsx:96-97 | a read fails iff storage is unavailable, and otherwise returns the stored value, if any |
| BrowserStorage.AfterSet | components/PersonaSaveEffect.tsx:11 | a write stores the value under the key and leaves every other key alone; unavailable storage is unchanged |
| BrowserStorage.AfterRemove | components/PersonaSwitcher.tsx:108 | a removal drops the key and leaves every other key alone; unavailable storage is unchanged |
| BrowserStorage.Storage.constructor | components/PersonaSaveEffect.tsx:11 | the store holds the given contents and availability |
| BrowserStorage.Storage.GetItem | components/PersonaSwitcher.tsx:97 | reading the store is `Read` of its state |
| BrowserStorage.Storage.SetItem | components/PersonaSaveEffect.tsx:11 | the new state is `AfterSet` of the old one, and the call fails iff storage is unavailable |
| BrowserStorage.Storage.RemoveItem | components/PersonaSwitcher.tsx:108 | the new state is `AfterRemove` of the old one, and the call fails iff storage is unavailable |
| BrowserStorage.SetThenRead | components/PersonaSaveEffect.tsx:11 | reading a key just written gives the value written |
| BrowserStorage.RemoveThenRead | components/PersonaSwitcher.tsx:108 | reading a key just removed gives nothing |
| PersonaSaveEffect.SaveEffect | components/PersonaSaveEffect.tsx:9-15 | the store becomes the best-effort save of the slug; a failure is swallowed |
| PersonaSaveEffect.SaveWritesSlug | components/PersonaSaveEffect.tsx:11 | with storage available, the key maps to the slug's name after the save |
| PersonaSaveEffect.SaveUnavailableUnchanged | components/PersonaSaveEffect.tsx:12-14 | with storage unavailable, the save changes nothing |
| PersonaSaveEffect.SaveIdempotent | components/PersonaSaveEffect.tsx:11 | saving the same slug twice equals saving it once |
| PersonaSaveEffect.LastSaveWins | components/PersonaSaveEffect.tsx:11 | of two saves, the second decides the stored slug |
| PersonaSaveEffect.SaveOnlyTouchesKey | components/PersonaSaveEffect.tsx:11 | every key other than the storage key is unchanged |
| LanguageContext.T | lib/context/LanguageContext.tsx:109-111 | the current locale's entry; otherwise the English one; otherwise the key itself |
| LanguageContext.Provider.constructor | lib/context/LanguageContext.tsx:107 | the initial locale is English |
| LanguageContext.Provider.SetLocale | lib/context/LanguageContext.tsx:107 | the locale becomes the one given |
| LanguageContext.UseLanguage | lib/context/LanguageContext.tsx:120-124 | outside a provider the hook fails with its message; inside, it returns the provider |
| LanguageContext.TablesHaveSameKeys | lib/context/LanguageContext.tsx:15-102 | the English and Spanish tables have the same keys |
| LanguageContext.LookupNeverFallsBack | lib/context/LanguageContext.tsx:110 | because the key sets agree, a known key is always found in the current locale |
| LanguageContext.MissingKeyReturnsItself | lib/context/LanguageContext.tsx:110 | an unknown key is shown as itself in both locales |
| PersonaSwitcher.Others | components/PersonaSwitcher.tsx:29 | the two personas other than the current one, each once |
| PersonaSwitcher.OthersExactlyTheRest | components/PersonaSwitcher.tsx:29 | filtering the current persona out of the three slugs leaves exactly the other two, without repeats |
| PersonaSwitcher.OthersShape | components/PersonaSwitcher.tsx:29 | `others` keeps the order of `PERSONA_SLUGS` |
| PersonaSwitcher.MenuHrefs | components/PersonaSwitcher.tsx:46-70 | the menu links to `/slug` for each other persona, then to `/` |
| PersonaSwitcher.Menu.constructor | components/PersonaSwitcher.tsx:14 | the menu starts closed |
| PersonaSwitcher.Menu.Toggle | components/PersonaSwitcher.tsx:34 | the button flips `open` |
| PersonaSwitcher.Menu.ItemClicked | components/PersonaSwitcher.tsx:54-66 | a menu item click closes the menu |
| PersonaSwitcher.Menu.MouseDown | components/PersonaSwitcher.tsx:20-23 | a mousedown outside closes the menu; inside, it stays as it was |
| PersonaSwitcher.Toggled | components/PersonaSwitcher.tsx:82 | the toggle always switches to the other locale |
| PersonaSwitcher.ToggleLabel | components/PersonaSwitcher.tsx:86 | the label names the locale the toggle switches to |
| PersonaSwitcher.ToggleLanguage | components/PersonaSwitcher.tsx:82 | the provider's locale becomes the other one |
| PersonaSwitcher.ToggleTwice | components/PersonaSwitcher.tsx:82 | toggling twice restores the locale |
| PersonaSwitcher.LoadedPersona | components/PersonaSwitcher.tsx:95-104 | a persona is loaded iff storage is available and holds a valid slug under the key, and it is that slug |
| PersonaSwitcher.LoadedAsWritten | components/PersonaSwitcher.tsx:95-104 | as written: the stored value is loaded iff storage is available and the value is non-empty and passes `slug in PERSONAS` |
| PersonaSwitcher.LastPersonaHook.constructor | components/PersonaSwitcher.tsx:93 | no persona is remembered before the mount effect runs |
| PersonaSwitcher.LastPersonaHook.Mount | components/PersonaSwitcher.tsx:95-104 | `lastPersona` becomes the loaded slug when there is one, and stays as it was otherwise |
| PersonaSwitcher.LastPersonaHook.Clear | components/PersonaSwitcher.tsx:106-113 | the key is removed (best effort) and `lastPersona` becomes null, even if removal fails |
| PersonaSwitcher.SaveThenLoad | components/PersonaSwitcher.tsx:97-99 | a saved slug loads back as itself |
| PersonaSwitcher.ClearThenLoad | components/PersonaSwitcher.tsx:106-113 | after a clear nothing is loaded |
| PersonaSwitcher.UnavailableLoadsNothing | components/PersonaSwitcher.tsx:101-103 | when storage is unavailable, nothing is loaded and nothing escapes |
| PersonaSwitcher.InheritedNameLoadedAsWritten | components/PersonaSwitcher.tsx:98 | as written, a stored "toString" is loaded as a persona; the intended load rejects it |
| PersonaSwitcher.LoadedAgreesWhenValid | components/PersonaSwitcher.tsx:98 | both loads agree whenever the intended one finds a persona |
| ProjectViewer.PdfSource | components/ProjectViewer.tsx:227-230 | putting the `pdf:` prefix back on the embedded source gives the page |
| ProjectViewer.BuildPages | components/ProjectViewer.tsx:21-30 | an art piece gives its image; a project gives its cover, its images in order, and a last `pdf:` page iff it has a PDF, which embeds the PDF; never empty |
| ProjectViewer.PageCounter | components/ProjectViewer.tsx:249-252 | no counter for a single page; `PDF` on a PDF page; `n / total` otherwise |
| ProjectViewer.Viewer.constructor | components/ProjectViewer.tsx:51-53 | the viewer shows `buildPages` of its item, opens on the first page moving forward, and is in its invariant (page in range, direction ±1) |
| ProjectViewer.Viewer.Next | components/ProjectViewer.tsx:55-57 | forward one page with direction 1 unless on the last page, where nothing changes; the page stays in range |
| ProjectViewer.Viewer.Prev | components/ProjectViewer.tsx:59-61 | back one page with direction -1 unless on the first page, where nothing changes; the page stays in range |
| ProjectViewer.Viewer.GoTo | components/ProjectViewer.tsx:198 | the indicator sets the page, forward iff it lies ahead |
| ProjectViewer.Viewer.HandleKey | components/ProjectViewer.tsx:63-68 | Escape asks to close and nothing else; ArrowRight moves forward with direction 1 and ArrowLeft back with direction -1, each stopping at the ends with page and direction unchanged; other keys change nothing; the page stays in range |
| ProjectViewer.PdfPageIffPdfUrl | components/ProjectViewer.tsx:21-28 | when no image is itself a `pdf:` path, a page list has a PDF page iff the project has a PDF, and only as the last page |
| ProjectViewer.CounterInRange | components/ProjectViewer.tsx:252 | the counter is two digit strings around ` / ` that read back as the one-based page number and the total, so the page shown lies between 1 and the total |
| ProjectViewer.NextThenPrev | components/ProjectViewer.tsx:55-61 | forward then back returns to the same page |
| CompactStrip.StripFrom | components/sections/StudioSection.tsx:248-253 | the items read back out of a strip are the items given |
| CompactStrip.Interleave | components/sections/StudioSection.tsx:248-253 | items at even positions in order, a separator at each odd position |
| CompactStrip.InterleaveEntries | components/sections/StudioSection.tsx:248-253 | the interleaving loses no item |
| CompactStrip.SeparatorsBetweenOnly | components/sections/StudioSection.tsx:251 | a separator after every item but the last is the interleaving |
| CompactStrip.TakeStripInterleaved | components/sections/StudioSection.tsx:248-251 | the `i < min(n, k) - 1` guard over `slice(0, k)` gives the interleaving |
| CompactStrip.EntriesConcat | components/sections/StudioSection.tsx:248-253 | reading the items out of two strips placed end to end gives the items of the first, then of the second |
| CompactStrip.InterleaveFramedNoDoubleSep | components/sections/StudioSection.tsx:246-254 | framed by the label's and the link's separators, a non-empty strip never has two separators in a row |
| CvSection.DurReadsBack | components/sections/CVSection.tsx:296-301 | `< 1 yr` exactly for a zero span, `1 yr` exactly for one year; for longer spans the digits before ` yrs` read back as the span |
| CvSection.DurInjective | components/sections/CVSection.tsx:296-301 | different non-negative spans never get the same label |
| CvSection.EndLabelReadsBack | components/sections/CVSection.tsx:311 | `Present` labels exactly the open-ended entries; a year label reads back as the year |
| CvSection.Timeline | components/sections/CVSection.tsx:347-351 | education and experience hold exactly the entries of their type, in their order; skills and certs split the courses by certificate, also in order, and a missing course list gives two empty lists |
| CvSection.AwardsLeftOut | components/sections/CVSection.tsx:348-349 | an award entry appears in neither timeline list |
| CvSection.PaperItemRoundTrip | components/sections/CVSection.tsx:148-159 | every item keeps its text, and it is drawn as a rule exactly when it is `—` |
| CvSection.AcademicDivider | components/sections/CVSection.tsx:20-32 | the academic section's only rule is its third item |
| CvSection.PaperSectionPanel.constructor | components/sections/CVSection.tsx:82 | a panel starts closed |
| CvSection.PaperSectionPanel.MouseEnter | components/sections/CVSection.tsx:87 | the mouse entering opens the panel |
| CvSection.PaperSectionPanel.MouseLeave | components/sections/CVSection.tsx:88 | the mouse leaving closes the panel |
| CvSection.PaperSectionPanel.Shown | components/sections/CVSection.tsx:115-160 | the open panel shows one item per entry, in order, each showing that entry's text and being a divider exactly when the entry is the divider text; the closed one shows nothing |
| CvSection.TimelineRow.constructor | components/sections/CVSection.tsx:310 | a row starts collapsed |
| CvSection.TimelineRow.Toggle | components/sections/CVSection.tsx:332-341 | the button flips `open`, and with it whether the description shows |
| CvSection.CvModal.constructor | components/sections/CVSection.tsx:454 | the modal starts closed |
| CvSection.CvModal.OpenModal | components/sections/CVSection.tsx:485 | the paper view opens the modal |
| CvSection.CvModal.CloseModal | components/sections/CVSection.tsx:487 | the modal's close button closes it |
| CvSection.View | components/sections/CVSection.tsx:453-490 | nothing when hidden; compact shows the first education's institution and the first experience's title; the timeline iff the architect is inline; the paper view otherwise |
| CoursesSection.SkillsAndCertificationsPartition | components/sections/CoursesSection.tsx:12-13 | skills and certifications are disjoint, hold every course once, are split by certificate link, and each keeps the courses' order |
| CoursesSection.View | components/sections/CoursesSection.tsx:9-36 | nothing when hidden; compact shows the number of certifications and the number of skills, which sum to the course count; otherwise the featured or standard style, each block shown iff non-empty |
| CoursesSection.CompactCoursesCounts | components/sections/CoursesSection.tsx:22-24 | on the site's courses the strip reads 2 certs and 3 skills |
| PerformancesSection.PianoAndBandPartition | components/sections/PerformancesSection.tsx:144-145 | piano and band performances split the list: each performance is in exactly one |
| PerformancesSection.OtherEventProgram | components/sections/PerformancesSection.tsx:113-115 | an other event shows exactly its first `min(2, n)` pieces, and only when it has a program |
| PerformancesSection.HistoryProgram | components/sections/PerformancesSection.tsx:197-203 | the history lists a full program only for the featured variant |
| PerformancesSection.View | components/sections/PerformancesSection.tsx:140-167 | nothing when hidden; compact shows the piano and band counts; the musician gets the live view whose featured and other events split the list, each in list order; otherwise the history, whose piano and band lists are exactly those events in list order |
| PerformancesSection.CompactBeforeMusician | components/sections/PerformancesSection.tsx:147-167 | a compact musician section gets the strip, whose counts sum to the number of performances |
| ClientMusicSection.DisplayName | components/sections/ClientMusicSection.tsx:42 | the artist name if non-empty, else the client if non-empty, else `—` |
| ClientMusicSection.CreditBoxes | components/sections/ClientMusicSection.tsx:79-81 | four boxes in the order Written, Produced, Mixed, Mastered; each checked iff the project lists that credit |
| ClientMusicSection.NoCreditsNoneActive | components/sections/ClientMusicSection.tsx:43 | without credits, all four boxes are unchecked |
| ClientMusicSection.CompactProjects | components/sections/ClientMusicSection.tsx:183-185 | the first two public projects, in list order (fewer when there are fewer) |
| ClientMusicSection.CompactStripAsWritten | components/sections/ClientMusicSection.tsx:183-192 | the written strip shows the compact projects in order, and with exactly one public project it is that item followed by a separator |
| ClientMusicSection.CompactStripBody | components/sections/ClientMusicSection.tsx:183-192 | the intended strip shows the compact projects in order, with separators exactly at the odd positions |
| ClientMusicSection.Row | components/sections/ClientMusicSection.tsx:41-98 | a track row shows the title iff public, and the Spotify link iff public and present |
| ClientMusicSection.CardOf | components/sections/ClientMusicSection.tsx:224-244 | a card shows the title and the listen link only when public, and the project's description only when featured and public; the name line is `artistName`, else a non-empty client, else empty, whether or not the project is public; Listen prefers Spotify |
| ClientMusicSection.PrivateStaysPrivate | components/sections/ClientMusicSection.tsx:224-244 | a private project shows no title, no description and no link, in either view |
| ClientMusicSection.View | components/sections/ClientMusicSection.tsx:171-202 | nothing when hidden; compact shows the first two public projects, as the written strip does except with exactly one public project; the musician gets the own and for-others rows, each in list order and covering every project; otherwise the card of each project, in order |
| ClientMusicSection.OwnAndOthersPartition | components/sections/ClientMusicSection.tsx:105-106 | own and for-others projects split the list, each keeping the list order |
| ClientMusicSection.SinglePublicDoubleSeparator | components/sections/ClientMusicSection.tsx:183-192 | as written, a single public project puts two separators in a row |
| ClientMusicSection.AsWrittenAgreesFromTwo | components/sections/ClientMusicSection.tsx:183-190 | with two or more public projects, the strip as written is the intended one |
| ClientMusicSection.CompactStripSeparated | components/sections/ClientMusicSection.tsx:183-192 | the intended strip never puts two separators in a row |
| StudioSection.View | components/sections/StudioSection.tsx:235-266 | nothing when hidden; the strip with the total when compact; the stack of all projects when featured; the first six projects otherwise |
| StudioSection.CompactStripShape | components/sections/StudioSection.tsx:248-255 | the strip shows the first `min(3, n)` titles in order, separated only between consecutive titles |
| StudioSection.CounterReadsBack | components/sections/StudioSection.tsx:107 | the counter is two zero-padded numbers that read back as `i + 1` and the total |
| StudioSection.StudioSelection.constructor | components/sections/StudioSection.tsx:19 | nothing is selected at first |
| StudioSection.StudioSelection.ClickStacked | components/sections/StudioSection.tsx:59 | a click selects only when nothing is selected |
| StudioSection.StudioSelection.Open | components/sections/StudioSection.tsx:201 | opening a folder selects it |
| StudioSection.StudioSelection.Close | components/sections/StudioSection.tsx:152 | closing the viewer clears the selection |
| StudioSection.ClickWhileOpen | components/sections/StudioSection.tsx:59 | a click while a project is open does not switch projects |
| ArtSection.LayoutsCycle | components/sections/ArtSection.tsx:34 | layouts repeat with period six |
| ArtSection.LayoutShape | components/sections/ArtSection.tsx:16-23 | the image comes first exactly at even indices, the two flex bases sum to 100, and the text aligns away from the image |
| ArtSection.Blocks | components/sections/ArtSection.tsx:127-137 | each entry lays out its image block and its text block once each |
| ArtSection.MediumLabel | components/sections/ArtSection.tsx:85-86 | the medium, followed by ` · series` exactly when there is a series |
| ArtSection.MediumLabelReadsBack | components/sections/ArtSection.tsx:85-86 | the medium can be read back from the front of the label |
| ArtSection.MediumLabelNamesMedium | components/sections/ArtSection.tsx:85-86 | two pieces with the same label have the same medium |
| ArtSection.Gallery | components/sections/ArtSection.tsx:184-191 | one gallery entry per piece, in order; entry i uses layout i mod 6 and shows both blocks, the image first exactly when that layout puts the image on the left |
| ArtSection.View | components/sections/ArtSection.tsx:146-241 | nothing when hidden; the count when compact; the gallery when featured; the grid otherwise |
| ArtSection.GalleryPiece.constructor | components/sections/ArtSection.tsx:35 | the overlay starts hidden |
| ArtSection.GalleryPiece.MouseEnter | components/sections/ArtSection.tsx:42 | the mouse entering shows the overlay |
| ArtSection.GalleryPiece.MouseLeave | components/sections/ArtSection.tsx:43 | the mouse leaving hides it |
| ArtSection.ArtSelection.constructor | components/sections/ArtSection.tsx:143 | nothing is selected at first |
| ArtSection.ArtSelection.Open | components/sections/ArtSection.tsx:189 | opening a piece selects it |
| ArtSection.ArtSelection.Close | components/sections/ArtSection.tsx:200 | closing the viewer clears the selection |
| ArtSection.OpenSelects | components/sections/ArtSection.tsx:144 | opening a piece makes it the selected piece |
| PapersSection.TitleRefOf | components/sections/PapersSection.tsx:21-27 | a strip title links to the PDF exactly when the paper has one |
| PapersSection.Card | components/sections/PapersSection.tsx:91-108 | the paper's title; its subtitle exactly when the subtitle is non-empty; its abstract only when featured; the Read link iff there is a PDF |
| PapersSection.View | components/sections/PapersSection.tsx:9-40 | nothing when hidden; the strip with the total when compact; one card per paper otherwise |
| PapersSection.CompactStripShape | components/sections/PapersSection.tsx:19-32 | the strip shows the first `min(3, n)` titles in order, separated only between consecutive titles |
| PapersSection.LinkIffPdf | components/sections/PapersSection.tsx:102 | the strip link and the Read link both exist exactly when the paper has a PDF |
| EmisitoSection.StreamLinks | components/sections/EmisitoSection.tsx:138-151 | each link is for a platform with a URL and goes to that URL |
| EmisitoSection.LinksExactlyThePlatformsWithUrls | components/sections/EmisitoSection.tsx:138-151 | a platform gets a link iff the release has a URL for it |
| EmisitoSection.LinksFollowPlatformOrder | components/sections/EmisitoSection.tsx:10-15 | the links follow the fixed order spotify, appleMusic, soundcloud, bandcamp, skipping exactly the platforms without a URL |
| EmisitoSection.Card | components/sections/EmisitoSection.tsx:80-154 | a card shows the release's title, its description exactly when featured, and the release's streaming links |
| EmisitoSection.View | components/sections/EmisitoSection.tsx:17-172 | nothing when hidden; the count when compact; otherwise the card of each release, in order, the intro only when featured and the explore link only when not |
| EmisitoSection.NoReleasesYet | lib/content.ts:504 | the site has no releases: the compact count is 0 and the list is empty |

## Left out

- JSX markup, CSS and Tailwind classes, inline styles and framer-motion animation. A rendered section is its component and props, and a view is the data it shows.
- Host components and embeds (next/image, Link, the PDF iframe, the video element) are represented only by the paths they are given.
- DOM listeners (scroll, keydown, mousedown containment, hover) become methods that receive the event's outcome: `scrollY`, the key, or whether the click was inside the menu. The smooth `scrollBy` of the studio track has no state and is not modelled.
- `formatDate` in the performances section depends on the runtime's date parsing and locale formatting. Dates stay strings.
- `dur` reads the current year from the clock. The model takes it as a parameter.
- Browser storage is a map plus an "available" flag. An unavailable store makes every call fail. Cross-tab races on the key are concurrency and are not modelled.
- `useLanguage` fails by throwing. The model returns a `Failure` carrying the same message.
- The translation tables are own-key maps. `T` therefore does not see keys inherited from `Object.prototype`, as `translations[locale][key]` would.
- SectionRenderer.Dispatch: the `default: return null` branch of the switch cannot be reached, because the section id type is closed.
- Navigation.NavBar.OnScroll: `scrollY` is an integer here. The browser reports a floating-point number.
- ProjectViewer.Viewer.HandleKey: `onClose` is a callback into the parent. The model records the request in `closeRequested`.
- Filter: the contract of `Filter` itself states membership both ways. Order and multiplicity are stated by the lemma `FilterKeepsOrder`, which keeps proofs that only use membership cheap. Every section helper that filters states the order through it.
- ClientMusicSection.View: the compact body is the intended strip (`CompactStripBody`), not the strip as written. The two differ only when exactly one project is public. There, the written strip ends in a doubled separator (`SinglePublicDoubleSeparator`; both halves are under "## Findings"). With zero or two or more public projects they agree (`AsWrittenAgreesFromTwo`).
- PersonaSwitcher.LastPersonaHook.Mount: adopts only a stored value that names one of the three personas (`LoadedPersona`). As written, components/PersonaSwitcher.tsx:97-99 also adopts inherited property names such as "toString" (`LoadedAsWritten`, `InheritedNameLoadedAsWritten`; see "## Findings"). The hook's `lastPersona` is persona-typed and cannot hold such a name.
- SectionConfig: `order` is an integer. The TypeScript field is a `number`, which may also be fractional or NaN. Every registry entry uses a small integer.
- ProjectViewer.IsStudio: the structural test `'coverImage' in item` becomes a tag on the `FolderItem` datatype. A studio project always has a cover image and an art piece never has one, so the tag and the test agree on every item the site builds.
- ClientMusicSection.CardOf: the role badge, the year and the genre tags are shown as given, with no logic. The card keeps the title, the name line, the description and the listen link.
- ClientMusicSection.Row: the year is shown as given, with no logic. The row keeps the title, the name, the Spotify link and the credit boxes.
- PapersSection.Card: the year, the course and the tags are shown as given, with no logic. The card keeps the title, the subtitle, the abstract and the Read link.
- EmisitoSection.Card: the type badge, the year and the cover image are shown as given, with no logic. The card keeps the title, the description and the links.
- The studio section's own `selectedId` state at components/sections/StudioSection.tsx:236-237 is never read by any view, so it is not modelled.
- Joining the performance program with `, ` is presentation. The model keeps the list of pieces.
- Content: the collections reproduce the records of lib/content.ts, with the optional fields as `Option` and `endYear: 'present'` as `Present`.
- components/EcosystemLanding.tsx, components/ProjectFolder.tsx, components/Footer.tsx, components/PersonaHero.tsx and the app/ pages are not part of this model: they only consume the modelled pieces or hold static markup.

## Findings

| source | as written | input that shows it | evidently intended | confidence | as-written member | corrected member |
|---|---|---|---|---|---|---|
| lib/personas.ts:121 | `slug in PERSONAS` also accepts property names inherited from `Object.prototype` | the stored value `"toString"` passes `isValidPersona`, and the welcome-back hook loads it as a persona | accept exactly the three persona slugs (an own-key test such as `Object.hasOwn`) | high; not executed | Personas.InheritedNameAccepted | Personas.IsValidPersonaExact |
| components/sections/ClientMusicSection.tsx:189 | the separator after an item is drawn when `i === 0`, even when no second item follows | a project list with exactly one public project: the strip shows `Music · role — title · · More →` | a separator only between consecutive items, like the studio and papers strips (`i < Math.min(n, 2) - 1`) | medium; not executed | ClientMusicSection.SinglePublicDoubleSeparator | ClientMusicSection.CompactStripSeparated |
