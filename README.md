# Teaching Torch content model in Dafny

Teaching Torch is a catalog of free study material: textbooks, past papers,
short notes and video lessons, arranged by grade and subject, in three
language mediums (Sinhala, Tamil, English). All of its logic sits in the
data provider `src/context/DataContext.js`, and six pages read from it.
This project models:

- **The store** (`Catalog`, `Reducer`). A state holds grades, subjects, a
  resource tree `resources[grade][subject]` and a video tree
  `videos[grade][subject]`, plus settings with an activity log. `dataReducer`
  updates it case by case:
  - textbooks are overwritten per medium;
  - papers are appended under a term or chapter key;
  - videos are appended;
  - log entries are prepended, and the log is capped at 50;
  - a loaded or imported payload is spread over the state.

  The model also covers the seeded catalog (`getDefaultData`), the action
  creators, the shape check in `importData`, and the log entry that
  `exportData` adds.
- **The read side** (`Queries`, `Stats`):
  - `getSubjectsForGrade` and `generateGradePageData` are modelled as their
    `forEach` loops, each proved equal to a specification function;
  - `getResources` and `getVideos` are lookups with a default, modelled as
    functions;
  - `getStats` is modelled as its nested loops, proved equal to a count over
    the list of language tags of every counted item.
- **The pages**:
  - `GradePage`: the not-found check, the grade label, four counters and the
    per-subject count;
  - `PapersPage`, `NotesPage`, `TextbooksPage`, `VideosPage`: labels, the
    per-item language filter, the rule that skips a subject under a language
    selection, and placeholders;
  - `NotesPage`, `TextbooksPage` and `VideosPage` also show a grade-level
    "no results" message. `PapersPage` has none: when a selection skips
    every subject, it renders no section and no message.
  - `PageFilter` holds the rules the four resource pages share.

JavaScript's data is made explicit:

- A plain object is an insertion-ordered list of distinct keys (`Dicts.Dict`).
  Assigning to a key replaces it in place, or appends it when it is new.
- A stored file, paper, note or video is a flat record of string or number
  fields.
- A field the source reads defensively is an `Option`, so that missing data
  can be written down. Examples: `if (resources.textbooks)`, `|| {}`.
- A paper entry that is not an array is `NotArray`.
- Where the source would throw, the model returns `Err`:
  - spreading a non-array entry in ADD_PAPER;
  - reading `terms` of a missing `papers`;
  - calling `includes` on a numeric note chapter.

Values that the source takes from its environment are inputs:

- the clock (`new Date().toISOString()`);
- `Date.now()` and `Math.random()` ids;
- the log messages built by the action creators.

The language filter `shouldShowResource` comes from
`src/context/LanguageContext.js`, which is not part of this model. The pages
are therefore proved for every filter `show`, with the selection `sel` as a
separate input. `PageFilter.ConcreteShow` is an assumed filter: "all"
shows everything, and any other selection shows the matching `language`.

Behaviour that follows from the code and is proved here:

- `getVideos` turns a missing list into `[]`, so such a subject shows "No
  video lessons available" (`VideosPage.MissingVideosRenderEmpty`).
- A subject with no stored bundle gets three empty term arrays from
  `getResources`. Its term card therefore renders no group at all, rather
  than the "No term papers available" placeholder
  (`PapersPage.EmptyBundleCards`).
- `getStats` never visits notes, so `totalResources` excludes them
  (`Stats.NotesNotCounted`).

## Model

| member | source | states |
|---|---|---|
| Catalog.OrDefault | src/context/DataContext.js:57-58 | the `or` default: the default exactly when the value is missing, `""` or `0`, else the value itself |
| Catalog.SubjectIdsDistinct | src/context/DataContext.js:211-262 | the ten seeded subject ids are pairwise distinct, so the seeded list is a valid object |
| Catalog.DefaultData | src/context/DataContext.js:201-272 | the seeded payload has 7 grades, 10 subjects, empty resource and video trees, and an empty activity log |
| Reducer.Overlay | src/context/DataContext.js:26-27 | INITIALIZE_DATA: every top-level key the payload has replaces the state's key, the others are kept, and `loading` becomes false |
| Reducer.TextbookRecord | src/context/DataContext.js:41-45 | the stored textbook has `language` equal to the medium and `uploadDate` equal to now; every other field comes from the file data |
| Reducer.AddTextbookEffect | src/context/DataContext.js:29-50 | ADD_TEXTBOOK sets the record under its medium, keeps the bundle's other mediums, papers and notes, leaves every other grade/subject unchanged, and changes no other part of the state |
| Reducer.PaperRecord | src/context/DataContext.js:54-60 | the paper takes the generated `id` unless the file data has one; `school` and `language` fall back to "Unknown School" and "english" when falsy; `uploadDate` is now; other fields come from the file data |
| Reducer.AppendUnder | src/context/DataContext.js:77-77 | appending under a paper key fails exactly when the entry is not an array; otherwise the entry gains `x` at its end and no other key changes |
| Reducer.AddPaperEffect | src/context/DataContext.js:52-104 | ADD_PAPER throws exactly when the chosen grouping is missing or its entry is not an array; otherwise it appends the record to `terms[category]` (type "term") or `chapters[category]` (other types), keeps every other key, grouping and bundle, and changes nothing else |
| Reducer.VideoRecord | src/context/DataContext.js:108-113 | the video takes the generated `id` unless the data has one, `language` defaults to "english" when falsy, and `addedDate` is now |
| Reducer.AddVideoEffect | src/context/DataContext.js:106-124 | ADD_VIDEO appends the record to the place's list (starting from `[]`), leaves every other place unchanged, and changes no other part of the state |
| Reducer.LogActivityEffect | src/context/DataContext.js:130-147 | LOG_ACTIVITY puts the new entry first, then the old entries in order, at most 50 in all; it stamps `lastUpdated`, keeps the other settings keys, and changes nothing else |
| Reducer.Reduce | src/context/DataContext.js:18-151 | only ADD_PAPER can throw; DELETE_RESOURCE and unknown action types return the state unchanged |
| Reducer.ImportData | src/context/DataContext.js:459-475 | succeeds exactly when `grades` and `subjects` are present. On failure, only the error is set and loading is cleared. On success, the state is the overlay of the payload and the newest log entry is "Data imported successfully" |
| Reducer.ExportSnapshot | src/context/DataContext.js:442-443 | loading the exported state restores the state (with `loading` false): export and load are a round trip |
| Reducer.ExportData | src/context/DataContext.js:442-456 | the exported snapshot is taken before logging and reloads to the state; afterwards the newest log entry is "Data exported successfully", the old entries follow it (capped at 50), and nothing but the settings changes |
| StoreProperties.AddTextbookTwice | src/context/DataContext.js:39-45 | adding the same medium twice keeps the same medium keys and only the second record |
| StoreProperties.AddPaperAppends | src/context/DataContext.js:62-104 | on a place that can take a paper, ADD_PAPER succeeds, the place can still take another, and its papers gain exactly the new record at the end |
| StoreProperties.FileOne | src/context/DataContext.js:52-104 | one reduced ADD_PAPER action to a place that can take it files its record at the end |
| StoreProperties.PapersAppendOnly | src/context/DataContext.js:77-97 | N ADD_PAPER actions to one key add exactly those N records, in dispatch order, after the papers already there |
| StoreProperties.LogStep | src/context/DataContext.js:137-138 | one log step is "prepend, then keep the first 50" |
| StoreProperties.LogAfterSteps | src/context/DataContext.js:130-147 | after one or more log steps the log is the new entries, newest first, then the old log, capped at 50 |
| StoreProperties.LogKeepsMostRecent | src/context/DataContext.js:137-138 | after at least 50 log steps the log holds exactly the 50 most recent entries, newest first |
| StoreProperties.LogCapPreserved | src/context/DataContext.js:18-151 | no action makes a log of at most 50 entries longer than 50, unless a loaded payload installs a longer one |
| ActionCreators.AddTextbookFlow | src/context/DataContext.js:275-284 | after `addTextbook`, the medium holds the new record and the newest log entry is the message |
| ActionCreators.AddPaperDefaults | src/context/DataContext.js:286-295 | with no school or language given, the default parameters and then the reducer's fallbacks yield "Unknown School" and "english"; a truthy argument is kept |
| ActionCreators.AddPaperFlowRejected | src/context/DataContext.js:286-295 | `addPaper` on a place whose grouping is missing or whose entry is not an array throws before anything is logged |
| ActionCreators.AddPaperFlowAccepted | src/context/DataContext.js:286-295 | `addPaper` on a place that can take the paper ends that group with the new record, after the papers already there, and the newest log entry is the message |
| ActionCreators.AddVideoFlow | src/context/DataContext.js:297-306 | after `addVideo`, the list ends with the new video and the newest log entry is the message |
| Queries.ForGrade | src/context/DataContext.js:316-325 | a subject is in the result exactly when it is stored and its `grades` include the grade |
| Queries.GetSubjectsForGrade | src/context/DataContext.js:316-325 | the `forEach` loop builds exactly the subjects of the grade, in key order |
| Queries.GetResources | src/context/DataContext.js:327-336 | a stored bundle is returned as is; a missing one is the empty bundle with three empty terms |
| Queries.GetVideos | src/context/DataContext.js:338-340 | a stored list, even an empty one, is returned as is; a missing one is `[]` |
| Queries.GenerateGradePageData | src/context/DataContext.js:418-439 | the loop builds the grade and one view per subject of the grade, with its resources and videos |
| Queries.GradePageSubjects | src/context/DataContext.js:418-439 | the page data lists exactly the subjects taught in the grade, each with its stored or default resources and videos |
| Queries.UnknownGrade | src/context/DataContext.js:419-419 | an unknown grade id yields page data with no grade |
| Stats.Bump | src/context/DataContext.js:378-380 | only a truthy tag naming one of the three languages moves a counter, by one at most |
| Stats.CountItems | src/context/DataContext.js:376-381 | visiting a list of papers or videos counts each item once and tallies its `language` |
| Stats.CountTextbooks | src/context/DataContext.js:361-368 | each medium key counts once and is tallied under its own name |
| Stats.CountGroup | src/context/DataContext.js:372-383 | array entries of a term or chapter object count their papers; other entries are skipped |
| Stats.CountBundle | src/context/DataContext.js:358-399 | a bundle contributes its textbooks, then its term papers, then its chapter papers |
| Stats.CountResources | src/context/DataContext.js:356-401 | the nested loops over grades and subjects equal the count over every bundle's tags |
| Stats.CountVideos | src/context/DataContext.js:404-413 | the nested loops over the video tree equal the count over every video's tag |
| Stats.GetStats | src/context/DataContext.js:342-416 | `getStats` returns the key counts, the number of counted resources and videos, and the tally of all their tags |
| Stats.TallyCounts | src/context/DataContext.js:348-352 | each language counter is the number of counted items tagged with that language |
| Stats.BreakdownAtMostTotals | src/context/DataContext.js:342-416 | the three counters add up to at most `totalResources + totalVideos`; unknown languages are counted but not tallied |
| Stats.EmptyCatalog | src/context/DataContext.js:342-353 | with nothing filed, every count except the grade and subject counts is zero |
| Stats.DefaultCatalogStats | src/context/DataContext.js:201-272 | the seeded catalog gives 7 grades, 10 subjects and nothing else |
| Stats.NotesNotCounted | src/context/DataContext.js:358-399 | a bundle's notes never affect what `getStats` counts |
| Stats.TwoTextbooksScenario | src/context/DataContext.js:361-368 | on the seeded catalog, adding an English and then a Sinhala textbook to grade 6 mathematics gives 2 resources, 0 videos, one English and one Sinhala |
| GradePage.CountArrayEntries | src/pages/GradePage.js:48-53 | the loop over a term or chapter object adds up the lengths of its array entries |
| GradePage.CountTextbooks | src/pages/GradePage.js:31-40 | the counter is the sum of every subject's number of textbook keys |
| GradePage.CountPapers | src/pages/GradePage.js:42-66 | the counter is the sum of every subject's array-valued term and chapter papers |
| GradePage.CountNotes | src/pages/GradePage.js:68-77 | the counter is the sum of every subject's number of note keys |
| GradePage.CountVideos | src/pages/GradePage.js:79-88 | the counter is the sum of every subject's number of videos |
| GradePage.GetSubjectResourceCount | src/pages/GradePage.js:90-110 | a subject's count is its textbooks, papers, notes and videos together |
| GradePage.GradeLabelIsSecondWord | src/pages/GradePage.js:118-118 | without "A/L", the label is the word after the first space of the display |
| GradePage.GradeNumberLabel | src/pages/GradePage.js:118-118 | the display "Grade N" is labelled N |
| GradePage.AdvancedLevelLabel | src/pages/GradePage.js:118-118 | a display containing "A/L" is labelled "A/L" |
| GradePage.RenderGradePage | src/pages/GradePage.js:16-234 | not found exactly for an unknown grade; otherwise the label, the four totals, one card per subject in order with its own count, and the "no subjects" flag |
| GradePage.CardsAddUpToTotals | src/pages/GradePage.js:209-221 | the subject cards' counts add up to the sum of the four totals |
| GradePage.EmptySubjectCountsZero | src/pages/GradePage.js:90-110 | a subject with the default empty bundle and no videos shows 0 resources |
| GradePage.StatsCountMatchesPage | src/pages/GradePage.js:90-106 | for any bundle, the items `getStats` counts are exactly its textbooks and papers as the page counts them |
| PageFilter.Visible | src/pages/NotesPage.js:200-210 | a subject is rendered exactly when it is on the page and is not skipped |
| PageFilter.AllKeepsEverySubject | src/pages/NotesPage.js:207-210 | under the "all" selection no subject is skipped |
| PageFilter.SectionLookup | src/pages/NotesPage.js:200-228 | a subject has a section exactly when it is kept, and that section is built from that subject |
| PageFilter.NoResultsIffAllSkipped | src/pages/NotesPage.js:244-248 | the grade-level message shows exactly when there are subjects, a selection is made, and every subject is skipped |
| PageFilter.AllShowsEveryRecord | src/pages/NotesPage.js:71-73 | under the assumed concrete filter, "all" passes every record |
| PapersPage.FormatTermName | src/pages/PapersPage.js:31-38 | term1/2/3 map to "1st Term", "2nd Term" and "3rd Term"; any other key is capitalised, with its length and the rest of its text kept |
| PapersPage.CapitalizeDashed | src/pages/PapersPage.js:46-46 | the first character is upper-cased and the first '-' after it becomes a space |
| PapersPage.FormatChapterName | src/pages/PapersPage.js:41-47 | a key starting with "ch" becomes "Chapter " followed by the rest of the key; any other key is capitalised, with its first '-' turned into a space |
| PapersPage.ChapterLabel | src/pages/PapersPage.js:42-45 | `ch<n>` is labelled "Chapter <n>", so different chapter numbers get different labels |
| PapersPage.GroupOf | src/pages/PapersPage.js:62-68 | an entry renders exactly when it is a non-empty array and, under a selection, has a passing paper; it shows the passing papers in order under its formatted title |
| PapersPage.GroupsOf | src/pages/PapersPage.js:60-110 | a term or chapter object never renders more groups than it has entries |
| PapersPage.GroupsOfConcat | src/pages/PapersPage.js:62-108 | the groups keep the entries' key order: the groups of two consecutive runs of entries are those of the first run, then those of the second |
| PapersPage.GroupsOfMembers | src/pages/PapersPage.js:60-110 | the rendered groups are exactly the groups of the entries that are not skipped |
| PapersPage.GroupsEmptyIffAllSkipped | src/pages/PapersPage.js:60-110 | no group is rendered exactly when every entry is skipped |
| PapersPage.ListingOf | src/pages/PapersPage.js:50-58 | the placeholder shows exactly for a missing or empty object; otherwise the object's groups are shown |
| PapersPage.RenderedEntry | src/pages/PapersPage.js:63-68 | under a selection, an entry renders exactly when it is an array with a passing paper |
| PapersPage.MatchingIffGroups | src/pages/PapersPage.js:232-237 | under a selection, `hasTermPapers` holds exactly when the term card renders a group (the same holds for chapters) |
| PapersPage.SkippedIffNothingRendered | src/pages/PapersPage.js:231-242 | under a selection, a subject is skipped exactly when neither card would render a group |
| PapersPage.Render | src/pages/PapersPage.js:16-305 | not found exactly for an unknown grade; otherwise the grade's display and the "no subjects" message exactly when the grade has no subjects |
| PapersPage.RenderSections | src/pages/PapersPage.js:227-242 | a subject of the grade has a section exactly when the skip rule keeps it |
| PapersPage.EmptyBundleCards | src/pages/PapersPage.js:50-58 | for the default empty bundle, the term card renders neither a group nor the placeholder; the chapter card renders the placeholder |
| NotesPage.FormatChapterName | src/pages/NotesPage.js:40-56 | a note key is labelled by its part before the first '_', using the papers page's chapter rules |
| NotesPage.SuffixStripped | src/pages/NotesPage.js:41-49 | `<base>_<suffix>` is labelled as `<base>` is |
| NotesPage.NoteTitle | src/pages/NotesPage.js:115-115 | the title formats `note.chapter` when truthy text and the key when falsy; a truthy numeric chapter throws |
| NotesPage.FilteredNotes | src/pages/NotesPage.js:71-73 | a note key survives exactly when its note passes the filter |
| NotesPage.NotesGrid | src/pages/NotesPage.js:59-89 | "no notes" exactly for an empty object; "no match" exactly when a selection leaves nothing; otherwise one card per passing note |
| NotesPage.AnyValues | src/pages/NotesPage.js:205-205 | `hasFilteredNotes` holds exactly when the filtered entries are not empty |
| NotesPage.KeptSubjectShowsCards | src/pages/NotesPage.js:200-226 | under a selection, a subject that is kept always shows at least one note card, never an empty-result message |
| NotesPage.Render | src/pages/NotesPage.js:16-263 | not found exactly for an unknown grade; otherwise the display and the "no subjects" flag |
| NotesPage.RenderSections | src/pages/NotesPage.js:200-210 | a subject of the grade has a section exactly when the skip rule keeps it |
| NotesPage.NoResultsIffNoSections | src/pages/NotesPage.js:244-248 | "no notes found" for the grade shows exactly when there are subjects, a selection is made, and no section renders |
| TextbooksPage.FilteredTextbooks | src/pages/TextbooksPage.js:129-131 | a medium survives exactly when it is stored and the filter accepts its key |
| TextbooksPage.CountLabelMeaning | src/pages/TextbooksPage.js:148-148 | the count line starts with digits that read back as the count; "textbooks" is plural exactly when the count is not 1 |
| TextbooksPage.SkipTestsAgree | src/pages/TextbooksPage.js:129-136 | the per-subject skip test on the filtered list agrees with the grade-level test on the medium keys |
| TextbooksPage.MediumCards | src/pages/TextbooksPage.js:154-209 | three cards (Sinhala, Tamil, English), each carrying that medium's stored textbook and hidden exactly when the filter rejects its medium |
| TextbooksPage.CardVisibleIffFiltered | src/pages/TextbooksPage.js:154-209 | for a stored medium, its card is visible exactly when its textbook is among the filtered ones |
| TextbooksPage.KeptSubjectCountsTextbooks | src/pages/TextbooksPage.js:133-148 | under a selection, a subject that is kept counts at least one textbook |
| TextbooksPage.Render | src/pages/TextbooksPage.js:16-248 | not found exactly for an unknown grade; otherwise the display and the "no subjects" flag |
| TextbooksPage.RenderSections | src/pages/TextbooksPage.js:124-136 | a subject has a section exactly when its filtered textbooks are not empty or no selection is made |
| TextbooksPage.NoResultsIffNoSections | src/pages/TextbooksPage.js:229-233 | "no textbooks found" for the grade shows exactly when there are subjects, a selection is made, and no section renders |
| VideosPage.VideosGrid | src/pages/VideosPage.js:38-66 | "no videos" exactly for an empty list; "no match" exactly when a selection leaves nothing; otherwise the passing videos in order |
| VideosPage.KeptSubjectShowsVideos | src/pages/VideosPage.js:230-251 | under a selection, a subject that is kept shows at least one video, and every video shown passes |
| VideosPage.Render | src/pages/VideosPage.js:16-288 | not found exactly for an unknown grade; otherwise the display and the "no subjects" flag |
| VideosPage.RenderSections | src/pages/VideosPage.js:225-235 | a subject of the grade has a section exactly when the skip rule keeps it |
| VideosPage.NoResultsIffNoSections | src/pages/VideosPage.js:269-273 | "no videos found" for the grade shows exactly when there are subjects, a selection is made, and no section renders |
| VideosPage.MissingVideosRenderEmpty | src/pages/VideosPage.js:38-46 | a subject with no stored videos shows "No video lessons available" and is skipped exactly under a selection |
| Strings.Capitalize | src/pages/PapersPage.js:37-37 | `charAt(0).toUpperCase() + slice(1)`: same length, first character upper-cased, the rest kept |
| Strings.ReplacePrefix | src/pages/PapersPage.js:42-43 | for a key starting with "ch", `replace('ch', '')` removes exactly that prefix |
| Strings.ReplaceFirstChar | src/pages/PapersPage.js:46-46 | `replace('-', ' ')` changes only the first '-' |
| Strings.ContainsChar | src/pages/NotesPage.js:41-41 | `includes('_')` holds exactly when the character occurs |
| Strings.Split | src/pages/NotesPage.js:43-43 | `split('_')` always yields at least one part |
| Strings.SplitJoin | src/pages/NotesPage.js:43-43 | joining the parts of a split with the separator gives the string back |
| Strings.SplitPartsClean | src/pages/NotesPage.js:43-43 | no part of a split holds the separator |
| Strings.NatToStringRoundTrip | src/pages/TextbooksPage.js:148-148 | a count is written as a non-empty run of decimal digits that reads back as the count |

## Left out

- Persistence is not modelled: `localStorage`, `saveData` and the two mount effects (src/context/DataContext.js:159-198); they are I/O.
- JSON text is left out: `JSON.parse` and `JSON.stringify`, the `Blob`, the download link and the exported file name. The log entry that export adds is modelled (`Reducer.ExportData`). `importData` and export take and give already-parsed payloads, so a parse failure is not represented.
- The clock, `Date.now()` and `Math.random()` are inputs of the actions, so the form of the generated ids and timestamps is not represented.
- Reducer.LogActivityIn: one clock reading `now` stands for both the new entry's `timestamp` (src/context/DataContext.js:133) and `settings.lastUpdated` (145). The source reads the clock twice, and the two values may differ. In the same way, each action creator passes one `now` to both of its dispatches, and `Reducer.LogActivityEffect` ties those timestamps together where the source does not.
- Catalog.State: a stored video list and the activity log are always lists. A non-array value in either place cannot be represented. In the source, such a value throws in `getStats` (`.forEach` at src/context/DataContext.js:406), in ADD_VIDEO's spread (121) and in LOG_ACTIVITY's spread (137-138). A non-array paper entry, by contrast, is represented (`Entry.NotArray`) and is skipped.
- The log messages built by the action creators (src/context/DataContext.js:282, 293, 304) are inputs. The lookups `state.subjects[subjectId]?.name` that they perform are not modelled.
- The action creators read the render-time `state` while React dispatches in order. The model dispatches the two actions one after the other and does not model React's batching.
- `formatFileSize` (NotesPage, TextbooksPage) and `extractYouTubeId` (VideosPage) are left out: they are floating-point and regular-expression display helpers.
- `shouldShowResource`, `getLanguageIndicator` and `filterByLanguage`: `src/context/LanguageContext.js` is not part of this model. The filter is a parameter, and `PageFilter.ConcreteShow` is only an assumed example.
- The page markup, the selected-language banner, icons, links and thumbnails are JSX presentation and are not modelled.
- Integer-like keys, which JavaScript orders numerically before other keys, are not modelled, and neither are prototype keys: key order is insertion order throughout. For example, `termNames['constructor']` in `formatTermName` is not modelled.
- Strings.Upper: `toUpperCase` is modelled for ASCII letters only; other characters are left as they are.
- Record fields are strings or numbers. `null`, booleans, nested objects and a `null` settings object are not represented. For example, `!importedData.grades` with `grades: null` is not modelled.
- Reducer.AppendUnder: `NotArray` stands for a truthy, non-iterable value under a paper key. A falsy non-array value, which `|| []` would treat as empty, and a string, which spreads into characters, are not modelled.
- `note.language.charAt(0)` at src/pages/NotesPage.js:125 throws for a note without a language when the filter passes it. The model covers only the card's title (`NotesPage.NoteTitle`), not the language line.
- The thrown errors are modelled as `Err` values. React's behaviour after a throw inside a dispatch or a render is not represented.
- DELETE_RESOURCE has no implementation in the source; the model returns the state unchanged, as the source does.
