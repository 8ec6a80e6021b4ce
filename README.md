# fedramp-tui, modelled in Dafny

`fedramp-tui` is a terminal browser for the FedRAMP documentation data files.
At start-up it downloads the catalog of twelve FRMR JSON documents, using an
on-disk cache. It reads definitions from FRD, key security indicators from KSI
and requirements from every other document. It then shows a home list of the
documents with their requirement counts. Keys switch between the document,
requirement, definition and indicator lists, filter the requirements, and open
a detail view of the highlighted row.

This project models that core and proves what it promises. One module covers
each part of the program:

| module | file | models |
|---|---|---|
| `Wrappers`, `Text` | wrappers.dfy, text.dfy | results and options; ASCII strings: `strings.Join`, `Fields`, `TrimSpace`, `ToLower`, `Contains`, decimal formatting |
| `Json` | json.dfy | a parsed JSON value tree and `encoding/json`'s decoding rules (null gives the zero value, a missing member is null; for maps and `json.RawMessage` the last duplicate key wins) |
| `Model` | model.dfy | `internal/model`: impact levels and their text, the domain records |
| `ListItem` | listitem.dfy | `internal/model/listitem.go`: titles, descriptions and filter values of the list rows |
| `ApiTypes` | types.dfy | `internal/api/types.go`: the JSON record shapes and their decoders, `UnmarshalFollowingInfo`, and the `json.Unmarshal` error cases |
| `MapOrder` | maporder.dfy | Go's unspecified map iteration order: an enumeration of the keys, the concatenation of per-key blocks, and its permutation lemmas |
| `Catalog` | catalog.dfy | `DocumentFiles`, `DocumentOrder`, `GetDocumentMetadata` |
| `Fetch` | fetch.dfy | `Client.fetchDocument` and `Client.FetchAllDocuments`: the cache-or-network decision and the error collection |
| `Definitions`, `Indicators`, `Requirements`, `Enrich` | definitions.dfy, indicators.dfy, requirements.dfy, enrich.dfy | `ParseDefinitions`, `ParseIndicators`, `ParseRequirements` with `extractRequirements`, `ParseDocumentInfo` with `EnrichDocument` |
| `Loader` | loader.dfy | the `fetchData` command of `internal/tui/app.go` |
| `Filters` | filters.dfy | `getRequirementItems` and the list's substring filter |
| `App` | app.dfy | `Model.Update`'s key handling and `updateListForView`, as the class `App.Tui` |
| `Views`, `Delegate` | views.dfy, delegate.dfy | `wrapText`; the row height, `truncate` and the requirement row title |

The code mutates state in three places, and each is a class or an array here:

- The application model is `App.Tui`. Its methods update its fields and are
  proved against the pure transition function `App.Transition`.
- The HTTP client with its cache is `Fetch.Client`.
- `extractRequirements` resolves each record in the caller's slice in place.
  It becomes a method on an `array`, and so does `EnrichDocument`.

Every Go `range` over a map becomes a loop that picks keys in an arbitrary
order. The order chosen is returned as a ghost value. The results are stated
for every order, and lemmas show that two orders give the same records,
permuted.

The network, the cache's disk and the JSON parser are parameters:

- `Fetch.Services` says what a GET of each URL returns and whether a cache
  write succeeds.
- The cache is a `map` from URL to bytes.
- `parse` turns bytes into a JSON `Value`, or `None` for text that is not JSON.

## Model

| member | source | states |
|---|---|---|
| `Text.Fields` | internal/tui/views.go:348 | `strings.Fields`: every word is non-empty and free of white space |
| `Text.FieldsJoin` | internal/tui/views.go:348 | splitting words joined by single spaces gives those words back |
| `Text.TrimSpace` | internal/tui/delegate.go:113 | the result starts and ends with a non-space and is the input minus leading and trailing white space only |
| `Text.NewlinesToSpaces` | internal/tui/delegate.go:112 | same length, no newline left, every other byte unchanged |
| `Text.ToLower` | internal/tui/app.go:374-376 | same length, each byte lowered on its own |
| `Text.JoinLength` | internal/model/requirement.go:25-29 | the joined length is the parts' lengths plus one separator between each two parts |
| `Text.Decimal` | internal/model/listitem.go:16 | `%d` of a count: only digits, and no leading zero unless the number is 0 |
| `Text.DecimalRoundTrip` | internal/model/listitem.go:16 | reading the digits back gives the number |
| `Json.Lookup` | internal/api/client.go:200-203 | a key is absent exactly when no member has it; a found value belongs to a member with that key, and no later member has the key (the last duplicate wins) |
| `Json.RawObject` | internal/api/client.go:194-197 | decoding into `map[string]json.RawMessage` succeeds exactly for an object or null; null gives the empty map |
| `Json.DecodeString` | internal/api/types.go:63-69 | a string field accepts a string or null; null gives "" |
| `Json.DecodeBool` | internal/api/types.go:93-95 | a bool field accepts a bool or null; null gives false |
| `Json.DecodeList` | internal/api/types.go:67 | a slice field: null gives the empty list, an array succeeds exactly when every element does and keeps their order, anything else fails |
| `Json.DecodeMap` | internal/api/client.go:205-208 | a map field: null gives the empty map, a non-object fails, an object gives its members |
| `Json.DecodeMembers` | internal/api/client.go:205-208 | the map holds exactly the keys of the members, each with its member's decoded value, and fails when any member fails |
| `Model.Levels` | internal/model/requirement.go:12-21 | one non-empty level name per set flag |
| `Model.ImpactString` | internal/model/requirement.go:11-30 | the method's loop returns `ImpactText`: the set levels joined with ", ", or "N/A" |
| `Model.ImpactTextNotApplicable` | internal/model/requirement.go:22-24 | the text is never empty and is "N/A" exactly when no level is set |
| `Model.ImpactTextAllLevels` | internal/model/requirement.go:11-30 | all three levels read "Low, Moderate, High" |
| `Model.ImpactTextInjective` | internal/model/requirement.go:11-30 | two impacts with the same text are the same impact |
| `Model.ImpactTextTable` | internal/model/requirement.go:11-30 | the text of each of the eight flag combinations |
| `Model.JoinStartsWithFirst` | internal/model/requirement.go:25 | a join starts with its first part's first byte |
| `Model.MustExcludesShould` | internal/model/requirement.go:44-52 | `IsMust` and `IsShould` never both hold; each means its keyword |
| `Text.FirstIndex` | internal/model/listitem.go:11 | the first position of a value in a sequence, or its length when absent: every earlier position holds something else |
| `ListItem.BracketedRoundTrip` | internal/model/listitem.go:11 | `[key] rest` can be split back into key and rest when the key has no `]` |
| `ListItem.DocumentTitle` | internal/model/listitem.go:10-12 | `[code] name`: its length, and code and name read back from it |
| `ListItem.DocumentDescription` | internal/model/listitem.go:14-19 | the description alone for a count of 0 or less; otherwise the description, " (", the count's `%d` digits (`Decimal`: digits only, no leading zero), which read back as the count, and " requirements)" |
| `ListItem.DocumentFilterValue` | internal/model/listitem.go:21-23 | code, name and description joined by spaces |
| `ListItem.RequirementTitle` | internal/model/listitem.go:30-32 | `[id] name`: for every id, "[", the id and "] " followed by the name; an id without ']' and the name read back from it |
| `ListItem.KeywordLabel` | internal/model/listitem.go:35-38 | the keyword, or "INFO" when it is empty; never empty |
| `ListItem.RequirementDescription` | internal/model/listitem.go:34-40 | document code, keyword label and impact text joined by " \| " |
| `ListItem.RequirementFilterValue` | internal/model/listitem.go:42-44 | id, name, statement and document code joined by spaces |
| `ListItem.DefinitionTitle` | internal/model/listitem.go:51-53 | a definition row's title is its term |
| `ListItem.DefinitionDescription` | internal/model/listitem.go:55-61 | at most 100 bytes; the text itself when it fits, else its first 97 bytes and "..." |
| `ListItem.DefinitionFilterValue` | internal/model/listitem.go:63-69 | the loop returns term, text and every alternate joined by spaces |
| `ListItem.IndicatorTitle` | internal/model/listitem.go:76-82 | the name, prefixed with "[RETIRED] " exactly when retired |
| `ListItem.IndicatorDescription` | internal/model/listitem.go:84-90 | theme and impact text; with controls, " \| ", the count's `%d` digits (`Decimal`: digits only, no leading zero), which read back as the count, and " controls" |
| `ListItem.IndicatorFilterValue` | internal/model/listitem.go:92-94 | id, name, statement and theme name joined by spaces |
| `ApiTypes.ToImpact` | internal/api/client.go:296-300 | the three impact flags are copied |
| `ApiTypes.DecodeRequirement` | internal/api/types.go:62-72 | only an object or null decodes; the nested list starts empty (`json:"-"`) and the raw `following_information` is kept |
| `ApiTypes.DecodeImpact` | internal/api/types.go:92-96 | only a JSON object or null decodes; null gives the zero value, all three flags false |
| `ApiTypes.DecodeCategory` | internal/api/types.go:99-104 | only a JSON object or null decodes; null gives the zero value: empty texts, no requirements |
| `ApiTypes.DecodeDefinition` | internal/api/types.go:107-116 | only a JSON object or null decodes; null gives the zero value: empty texts and lists |
| `ApiTypes.DecodeIndicator` | internal/api/types.go:119-129 | only a JSON object or null decodes; null gives the zero value: empty texts, no flags set, no controls, not retired |
| `ApiTypes.DecodeControl` | internal/api/types.go:132-135 | only a JSON object or null decodes; null gives the zero value: empty id and name |
| `ApiTypes.DecodeTheme` | internal/api/types.go:138-143 | only a JSON object or null decodes; null gives the zero value: empty texts, no indicators |
| `ApiTypes.DecodeDocumentInfo` | internal/api/types.go:6-12 | only a JSON object or null decodes; null gives the zero value: empty texts, no effective dates, no releases, an empty front matter |
| `ApiTypes.DecodeEffective` | internal/api/types.go:15-23 | only a JSON object or null decodes; null gives the zero value: empty texts and lists |
| `ApiTypes.DecodeRelatedRfc` | internal/api/types.go:26-34 | only a JSON object or null decodes; null gives the zero value: empty texts |
| `ApiTypes.DecodeRelease` | internal/api/types.go:37-43 | only a JSON object or null decodes; null gives the zero value: empty texts, not published, no changes |
| `ApiTypes.DecodeFrontMatter` | internal/api/types.go:46-50 | only a JSON object or null decodes; null gives the zero value: no authorities, empty purpose, no outcomes |
| `ApiTypes.DecodeAuthority` | internal/api/types.go:53-59 | only a JSON object or null decodes; null gives the zero value: empty texts |
| `ApiTypes.UnmarshalFollowingInfo` | internal/api/types.go:78-89 | only the nested list changes: unchanged when the raw field is absent or not a list of records, otherwise the decoded list |
| `ApiTypes.UnmarshalIdempotent` | internal/api/types.go:78-89 | resolving twice is resolving once |
| `ApiTypes.UnmarshalListOrder` | internal/api/types.go:82-86 | an array of records gives one nested record per element, in order |
| `ApiTypes.UnmarshalTextIgnored` | internal/api/types.go:88 | a string `following_information` leaves the record unchanged |
| `ApiTypes.ChildrenLighter` | internal/api/types.go:70-71 | the nested records weigh strictly less than their parent, so the recursion of `extractRequirements` ends |
| `ApiTypes.Unmarshal` | internal/api/client.go:161-163 | `json.Unmarshal`: a syntax error exactly for text that is not JSON, a type error exactly when the shape does not decode, otherwise the decoded value |
| `Catalog.Metadata` | internal/api/client.go:317-328 | one document per code of the display order, with the catalog name and description and no count |
| `Catalog.GetDocumentMetadata` | internal/api/client.go:317-328 | the loop returns `Metadata()` |
| `Catalog.CodesMatch` | internal/api/client.go:17-30 | every catalog entry is filed under its own code |
| `Catalog.OrderIsCatalog` | internal/api/client.go:32-33 | the display order lists every catalog code exactly once |
| `Catalog.CodeLengths` | internal/api/client.go:17-30 | every code is three bytes |
| `Catalog.FilenameCarriesCode` | internal/api/client.go:17-30 | a file name carries its code at bytes 5 to 8 |
| `Catalog.FilenamesDistinct` | internal/api/client.go:17-30 | two codes never share a file |
| `Catalog.Filename` | internal/api/client.go:17-30 | `FRMR.<code>.<slug>.json`: its length, the `FRMR.` prefix, the code after it and the `.json` suffix |
| `Catalog.MetadataCodes` | internal/api/client.go:317-328 | the home list shows each code in display order with the catalog's name and a count of 0 |
| `Fetch.Decide` | internal/api/client.go:117-156 | a cache hit returns the stored bytes and writes nothing; otherwise success exactly on a status-200 response, with its body; errors never write the cache; a write only happens with a cache and stores the returned bytes |
| `Fetch.DecideErrors` | internal/api/client.go:128-136 | a transport error is returned as is, any other status as "HTTP code: status" |
| `Fetch.DecideStores` | internal/api/client.go:150-153 | with a cache, a download is stored exactly when the cache write succeeds |
| `Fetch.StoredThenHit` | internal/api/client.go:120-153 | after a stored download, fetching the same file again without refresh is a hit with the same bytes, whatever the server now answers |
| `Fetch.RefreshIgnoresCache` | internal/api/client.go:121 | with refresh the outcome does not depend on the cache |
| `Fetch.DecideOwnEntry` | internal/api/client.go:118-125 | only the cache entry of the file's own URL matters |
| `Fetch.Url` | internal/api/client.go:118 | the base URL, one `/`, then the file name, each read back at its place |
| `Fetch.UrlInjective` | internal/api/client.go:118 | different files have different URLs |
| `Fetch.CatalogUrlsDistinct` | internal/api/client.go:17-30 | two catalog codes never share a URL, so their fetches touch different cache entries |
| `Fetch.Fetched` | internal/api/client.go:95-97 | the map holds exactly the visited codes whose fetch succeeded, each with its bytes |
| `Fetch.Block` | internal/api/client.go:91-93 | a code's error entries are its own: "fetching CODE: cause" when it failed, none otherwise |
| `Fetch.Client.constructor` | internal/api/client.go:54-70 | the base URL is the catalog's, and the refresh flag, the cache and its contents are as given |
| `Fetch.Client.FetchDocument` | internal/api/client.go:117-156 | the result and the new cache are those of `Decide` on the cache before the call |
| `Fetch.Client.FetchAllDocuments` | internal/api/client.go:80-115 | every catalog code is visited once; the map holds exactly the successes; the error is present exactly when some fetch failed and lists the failures in visiting order; each code's URL holds what its own fetch left and every other URL is untouched |
| `Fetch.CollectStep` | internal/api/client.go:86-99 | fetching one more code from the current cache is fetching it from the initial cache, and the loop's invariant is kept |
| `Fetch.CacheStep` | internal/api/client.go:86-99 | one code's cache write leaves every other catalog URL and every URL outside the catalog unchanged |
| `Fetch.FailuresPerCode` | internal/api/client.go:104-108 | whatever the order, each code has exactly its own error entry among the failures |
| `Fetch.ErrorIffSomeFailure` | internal/api/client.go:110-114 | the aggregated error is present exactly when some catalog code failed |
| `Fetch.SuccessOrFailure` | internal/api/client.go:90-97 | a code is in the map exactly when it has no error entry |
| `Fetch.Aggregate` | internal/api/client.go:110-114 | no error exactly when the list of failures is empty; otherwise the error carries that list |
| `Fetch.FailuresOrderIndependent` | internal/api/client.go:84-108 | two visiting orders give the same error entries, permuted |
| `Definitions.Converted` | internal/api/client.go:165-186 | one definition per record, in order, each with its fields copied and its note resolved |
| `Definitions.ParseDefinitions` | internal/api/client.go:159-189 | the method returns `DefinitionsOf`: the decode error, or the converted `FRD.ALL` list |
| `Definitions.ConvertAll` | internal/api/client.go:165-186 | the loop returns `Converted` |
| `Definitions.CoalesceNote` | internal/api/client.go:167-175 | the loop returns the resolved note |
| `Definitions.ResolvedNoteCases` | internal/api/client.go:167-175 | a non-empty note wins; otherwise the notes joined by single spaces |
| `Definitions.ResolvedNoteWords` | internal/api/client.go:167-175 | when the notes are words, splitting the joined note gives the notes back |
| `Definitions.NoteExamples` | internal/api/client.go:167-175 | notes "a" and "b" give "a b"; a note "x" wins over them |
| `Definitions.DefinitionsOfCases` | internal/api/client.go:160-163 | a syntax error for text that is not JSON, a type error for the wrong shape, otherwise the converted list |
| `Definitions.DefinitionsOf` | internal/api/client.go:159-189 | fails exactly when the text is not JSON or the document does not decode; on success one definition per `FRD.ALL` record |
| `Definitions.NoDefinitionsSection` | internal/api/fuzz_test.go:7-9 | `{}`, null and an empty `FRD` give no definitions and no error; an array is a type error |
| `Indicators.ControlsOf` | internal/api/client.go:215-221 | one control per record, in order, with its fields copied |
| `Indicators.ThemeBlock` | internal/api/client.go:214-241 | one indicator per record of the theme, in order, stamped with the theme's code, name and description |
| `Indicators.ParseIndicators` | internal/api/client.go:192-245 | the method returns `IndicatorsOf` for the order it visited the themes in, which lists every theme once; it fails exactly when `ThemesOf` does, with the same error; on success, whatever the order, an indicator is in the result exactly when it is in the block of some theme |
| `Indicators.CollectThemes` | internal/api/client.go:213-242 | the loop visits every theme once and returns the themes' blocks concatenated in that order; whatever the order, an indicator is in the result exactly when it is in some theme's block |
| `Indicators.ConvertTheme` | internal/api/client.go:214-241 | the loop returns `ThemeBlock` |
| `Indicators.ConvertControls` | internal/api/client.go:215-221 | the loop returns `ControlsOf` |
| `Indicators.ThemesOf` | internal/api/client.go:194-208 | a syntax error exactly for text that is not JSON; a success only for an object with a `KSI` member, and a null `KSI` gives no themes |
| `Indicators.IndicatorsOf` | internal/api/client.go:192-245 | fails exactly when `ThemesOf` does, with the same error |
| `Indicators.IndicatorsErrors` | internal/api/client.go:194-208 | each error of the source with its wrapping: raw document, missing KSI, KSI themes; a null KSI gives no indicators |
| `Indicators.BlockStamped` | internal/api/client.go:223-240 | every indicator of a theme carries that theme's code, name, description and its own controls |
| `Indicators.IndicatorsOfTheme` | internal/api/client.go:213-242 | whatever the order, the indicators of one theme are that theme's block, in record order |
| `Indicators.IndicatorsCount` | internal/api/client.go:213-242 | the count is the sum of the themes' record counts |
| `Indicators.IndicatorsOrderIndependent` | internal/api/client.go:213 | two visiting orders give the same indicators, permuted |
| `Requirements.Flatten` | internal/api/client.go:283-314 | every requirement returned carries the document code |
| `Requirements.Expand` | internal/api/client.go:291-310 | a record comes first, followed by its nested records, all stamped with the code |
| `Requirements.Resolved` | internal/api/client.go:287-289 | the record left in the slice is the resolved record, up to its nested list |
| `Requirements.ResolvedAll` | internal/api/client.go:286-289 | the slice keeps its length |
| `Requirements.ResolvedAllAt` | internal/api/client.go:286-289 | each element of the slice is resolved in its own place |
| `Requirements.ExtractRequirements` | internal/api/client.go:283-314 | the method returns `Flatten` of the slice and leaves every record of the slice resolved, nested records included |
| `Requirements.FlattenIsPreorder` | internal/api/client.go:283-314 | the result is the pre-order walk of the resolved record tree, each record stamped with the code |
| `Requirements.ExpandIsPreorder` | internal/api/client.go:305-310 | the same for one record and the records under it |
| `Requirements.FlattenAppend` | internal/api/client.go:286-311 | flattening two lists is flattening each and concatenating |
| `Requirements.ParseRequirements` | internal/api/client.go:248-281 | the method returns `RequirementsOf` for its visiting order of the categories, which lists every category once; it fails exactly when the `FRR` section lookup does, with the same error; a missing section gives no requirements; with a map of categories it succeeds and, whatever the order, a requirement is in the result exactly when some category's flattened list holds it |
| `Requirements.ExtractList` | internal/api/client.go:270 | one category's records flattened |
| `Requirements.Section` | internal/api/client.go:248-264 | fails exactly for text that is not JSON, a document that is not an object, or an `FRR` that is present and not an object; a section found is the document code's member of `FRR` |
| `Requirements.RequirementsOf` | internal/api/client.go:248-281 | fails exactly when `Section` does, with the same error; no section gives no requirements |
| `Requirements.CollectCategories` | internal/api/client.go:273-275 | every category is visited once and the blocks are concatenated in that order; whatever the order, a requirement is in the result exactly when some category's flattened list holds it |
| `Requirements.RequirementsErrors` | internal/api/client.go:249-261 | the only errors are text that is not JSON, a document that is not an object and an `FRR` that is not an object; the syntax error is exactly the first |
| `Requirements.RequirementsMissingSection` | internal/api/client.go:257-264 | no `FRR`, or no section for the code, gives no requirements and no error |
| `Requirements.RequirementsFallback` | internal/api/client.go:265-272 | a present section that is not a map of categories is flattened as one category, and gives `Ok([])` (no error) when that decode fails too |
| `Requirements.RequirementsFallbackExample` | internal/api/client.go:265-272 | a section holding a JSON string gives no requirements and no error |
| `Requirements.RequirementsStamped` | internal/api/client.go:293 | every requirement returned carries the requested code |
| `Requirements.RequirementsOrderIndependent` | internal/api/client.go:273-275 | two orders of the categories give the same requirements, permuted |
| `Requirements.RequirementsSeeds` | internal/api/fuzz_test.go:35-38 | the fuzz seeds `invalid json`, `{}` and an empty FSI section: a syntax error, then no requirements |
| `Requirements.RequirementsSeedList` | internal/api/client.go:266-270 | a section that is not a map of categories is read as one category; the VDR fuzz seed gives no requirements |
| `Requirements.DecodeParentExample` | internal/api/types.go:62-72 | a record with a nested list decodes with the raw list kept and no nested records yet |
| `Requirements.ChildrenExample` | internal/api/types.go:78-89 | resolving that record gives its one nested record |
| `Requirements.NestedRequirementExample` | internal/api/client.go:305-310 | record `A` with nested `A.1` is listed as `A` then `A.1`, both stamped VDR |
| `Enrich.ParseDocumentInfo` | internal/api/client.go:331-339 | a syntax error exactly for text that is not JSON; success exactly for an object or null whose `info` decodes, giving that `info`; otherwise a type error |
| `Enrich.NoInfoSection` | internal/api/client.go:332-338 | a document without `info` gives the zero `info` and no error |
| `Enrich.Authorities` | internal/api/client.go:352-358 | one authority per record, in order, fields copied |
| `Enrich.Releases` | internal/api/client.go:361-367 | one release per record, in order, fields copied |
| `Enrich.Statuses` | internal/api/client.go:370-382 | the same versions, each with its fields copied |
| `Enrich.EnrichDocument` | internal/api/client.go:342-383 | the element at the index becomes `Enriched` of its old value and every other element is unchanged |
| `Enrich.CopyEffective` | internal/api/client.go:371-381 | the loop over the map, in any order, returns `Statuses` |
| `Enrich.Enriched` | internal/api/client.go:342-383 | without `info` the document is unchanged; code, name, description and count are always kept; the old authorities and releases stay a prefix of the new lists; no effective dates keep the old ones |
| `Enrich.EnrichNothing` | internal/api/client.go:343-345 | without `info` the document is unchanged |
| `Enrich.EnrichFields` | internal/api/client.go:342-383 | identity and count kept; purpose and outcomes overwritten; authorities and releases appended in order; effective dates replaced only when there are any |
| `Enrich.EnrichTwice` | internal/api/client.go:352-367 | enriching twice appends the lists twice, so the operation is not idempotent |
| `Loader.FetchData` | internal/tui/app.go:114-177 | any failed fetch gives the aggregated error; otherwise the loaded message for the visiting orders of the maps; the cache as `FetchAllDocuments` leaves it |
| `Loader.ParseAll` | internal/tui/app.go:121-144 | every fetched code is visited once: FRD's definitions and KSI's indicators when they parse, the other codes' requirements concatenated in visiting order, failures skipped |
| `Loader.CountRequirements` | internal/tui/app.go:148-151 | the count of each code is the number of requirements with that code |
| `Loader.BuildDocuments` | internal/tui/app.go:146-168 | the home list is `Listing` |
| `Loader.CountAndEnrich` | internal/tui/app.go:152-160 | each entry gets its count and, when its document parses, its `info` |
| `Loader.CountAndEnrichAt` | internal/tui/app.go:153-159 | the loop body: entry i gets its count and, when its document parses, its `info`; every other entry is unchanged |
| `Loader.OverrideCounts` | internal/tui/app.go:161-168 | each entry passes through `Override` |
| `Loader.Override` | internal/tui/app.go:162-167 | only the count changes: FRD gets the definitions' count, KSI the indicators' |
| `Loader.Listing` | internal/tui/app.go:146-168 | one entry per code of the display order |
| `Loader.Loaded` | internal/tui/app.go:114-177 | a successful load always gives the loaded message with one home entry per code of the display order |
| `Loader.BlocksStamped` | internal/tui/app.go:138-142 | every requirement of a code's block carries that code |
| `Loader.RequirementsPerDocument` | internal/tui/app.go:126-143 | whatever the order, one document's requirements are that document's own parse |
| `Loader.RequirementSources` | internal/tui/app.go:127-142 | no requirement is ever attributed to FRD, to KSI or to a code that was not fetched |
| `Loader.LoadedEntry` | internal/tui/app.go:146-168 | each home entry has its catalog code and name, the right count (the definitions for FRD, the indicators for KSI, otherwise the requirements its own document parses to) and its document's purpose |
| `Loader.LoadOrderIndependent` | internal/tui/app.go:126-168 | two visiting orders give the same home list, definitions and indicators, and the same requirements permuted |
| `Loader.ListingByCounts` | internal/tui/app.go:148-153 | the home list depends on the requirements only through the per-code counts |
| `Filters.RequirementRows` | internal/tui/app.go:455 | one requirement row per requirement, in order |
| `Filters.Keep` | internal/tui/app.go:433-456 | the kept elements are at most as many as the input and each satisfies the test |
| `Filters.Passes` | internal/tui/app.go:434-454 | with no filter set every requirement passes; one that passes a document filter has that document code |
| `Filters.PassesClearing` | internal/tui/app.go:434-454 | clearing any one filter never drops a requirement that passed |
| `Filters.Filtered` | internal/tui/app.go:431-458 | no more rows than requirements, and every row passes the three filters |
| `Filters.GetRequirementItems` | internal/tui/app.go:431-458 | the loop returns the rows of `Filtered` |
| `Filters.FilteredSubsequence` | internal/tui/app.go:431-458 | the rows are the passing requirements, in their original order: a requirement is kept exactly when it passes |
| `Filters.NoFilterListsAll` | internal/tui/app.go:434-454 | with no filter set every requirement is listed |
| `Filters.FilteredMembers` | internal/tui/app.go:434-454 | a requirement is listed exactly when it matches each filter that is set: document code, keyword, and affects membership |
| `Filters.KeywordFilterExample` | internal/tui/app_test.go:174-218 | the keyword test's four requirements: all four, 2 MUST, 2 SHOULD, 2 VDR and MUST |
| `Filters.DocumentFilterExample` | internal/tui/app_test.go:118-147 | the document test: the VDR filter keeps the two VDR requirements |
| `Filters.ListFilter` | internal/tui/app.go:372-381 | the loop returns the indices of the matching targets, in order |
| `Filters.ListFilterRanks` | internal/tui/app.go:372-381 | the ranks are increasing valid indices, and index i is ranked exactly when the lowered target contains the lowered term |
| `Filters.EmptyTermMatchesAll` | internal/tui/app.go:374-378 | an empty term ranks every target |
| `Filters.ExampleTerms` | internal/tui/app.go:374-376 | the lowered term "vdr" is in the lowered "VDR-1" and not in "UCM-1", and "Ucm" the other way round |
| `Filters.CaseInsensitiveExample` | internal/tui/app.go:374-376 | "vdr" matches "VDR-1" only and "Ucm" matches "UCM-1" only |
| `App.AffectsIndex` | internal/tui/app.go:257-263 | the position of the affects filter in the cycle, 0 for a value outside it |
| `App.CurrentAffectsIndex` | internal/tui/app.go:257-263 | the search loop returns `AffectsIndex` |
| `App.DocumentRows` | internal/tui/app.go:423-429 | one document row per document, in order |
| `App.DefinitionRows` | internal/tui/app.go:460-466 | one definition row per definition, in order |
| `App.IndicatorRows` | internal/tui/app.go:468-474 | one indicator row per indicator, in order |
| `App.GetDocumentItems` | internal/tui/app.go:423-429 | the loop fills `DocumentRows` |
| `App.GetDefinitionItems` | internal/tui/app.go:460-466 | the loop fills `DefinitionRows` |
| `App.GetIndicatorItems` | internal/tui/app.go:468-474 | the loop fills `IndicatorRows` |
| `App.Transition` | internal/tui/app.go:182-313 | from a well-formed state, nothing quits from the detail view and the list is rebuilt only outside it |
| `App.DetailEffect` | internal/tui/app.go:184-217 | the selected row, the return view and the keyword and affects filters are kept; a key that does not leave the detail view goes to the viewport and changes nothing; leaving it drops the viewport and rebuilds the list |
| `App.Dispatch` | internal/tui/app.go:226-313 | the command is quit exactly for ctrl+c and `q`; a detail view opens only on Enter, when loaded, with a highlighted row, which becomes the selection, remembering the view it came from and with a viewport |
| `App.FilterEffect` | internal/tui/app.go:245-290 | view, return view, selection and viewport are kept; outside the requirements view nothing changes and nothing is rebuilt; the list is rebuilt exactly when the state changes |
| `App.NextAffectsMoves` | internal/tui/app.go:257-265 | every affects value, inside the cycle or not, moves to a different one |
| `App.ViewEffect` | internal/tui/app.go:291-312 | return view, selection, viewport and affects filter are kept; the detail view is neither entered nor left; the list is rebuilt exactly outside the detail view, and the key goes on to the list exactly when loaded, without error, outside the detail view |
| `App.Tui.constructor` | internal/tui/app.go:86-104 | `NewModel`: home view, loading, no filters, no data, a well-formed state |
| `App.Tui.UpdateListForView` | internal/tui/app.go:384-421 | the list gets the rows of the current view: documents, filtered requirements, definitions or indicators; nothing else changes |
| `App.Tui.DataLoaded` | internal/tui/app.go:334-343 | loading ends, the data is stored, the list shows the documents, navigation is unchanged |
| `App.Tui.LoadFailed` | internal/tui/app.go:345-348 | loading ends with the error; nothing else changes |
| `App.Tui.UpdateKey` | internal/tui/app.go:182-313 | the new navigation state and command are those of `Transition`, and the list is rebuilt exactly when `Transition` says |
| `App.Tui.DetailKey` | internal/tui/app.go:184-217 | the detail view takes a key exactly when `DetailTakes` holds, with `DetailEffect`'s result; otherwise nothing changes |
| `App.Tui.OpenDocumentList` | internal/tui/app.go:193-209 | the view and document filter of `Route`, the viewport gone, the list rebuilt |
| `App.Tui.ForwardCmd` | internal/tui/app.go:351-358 | the key reaches the list exactly when loaded, without error, outside the detail view |
| `App.Tui.SwitchKey` | internal/tui/app.go:226-313 | the result of `Dispatch` |
| `App.Tui.FilterKey` | internal/tui/app.go:245-290 | the result of `FilterEffect` |
| `App.Tui.ClearFilters` | internal/tui/app.go:245-253 | all three filters cleared, the list rebuilt |
| `App.Tui.CycleAffects` | internal/tui/app.go:254-268 | the next affects filter of the cycle, the list rebuilt |
| `App.Tui.ToggleKeyword` | internal/tui/app.go:269-290 | the keyword filter toggled, the list rebuilt |
| `App.Tui.ViewKey` | internal/tui/app.go:291-312 | the result of `ViewEffect` |
| `App.TransitionKeepsValid` | internal/tui/app.go:182-313 | every key keeps the state well-formed: the viewport exists exactly in the detail view, and going back never lands in it |
| `App.AffectsStep` | internal/tui/app.go:264-265 | `x` moves one step along the cycle, wrapping from the last to the first |
| `App.UnknownAffects` | internal/tui/app.go:257-265 | a value outside the cycle moves to "Providers" |
| `App.PressX` | internal/tui/app.go:254-268 | in the requirements view `x` changes only the affects filter and rebuilds the list |
| `App.CycleFive` | internal/tui/app.go:264 | five steps of the cycle return to the start |
| `App.PressesX` | internal/tui/app.go:254-268 | repeated `x` presses change only the affects filter, by that many steps |
| `App.FivePressesOfX` | internal/tui/app.go:254-268 | five presses of `x` restore the state |
| `App.KeywordKeys` | internal/tui/app.go:269-290 | `m` sets MUST, from SHOULD too, and clears MUST; `s` does the same with SHOULD; nothing else changes |
| `App.KeywordToggleExample` | internal/tui/app_test.go:221-259 | `m`, `m`, `s` give MUST, nothing, SHOULD |
| `App.ClearKey` | internal/tui/app.go:245-253 | `f` clears all filters when any is set, and otherwise passes the key to the list |
| `App.EnterOnDocument` | internal/tui/app.go:193-209 | Enter on a document's detail: FRD opens the definitions, KSI the indicators, both unfiltered; other codes open the requirements filtered to the code |
| `App.BackKeys` | internal/tui/app.go:186-191 | Esc, Backspace and `q` return to the view the detail was opened from, filters kept |
| `App.ViewKeys` | internal/tui/app.go:291-312 | `1` to `4` open the four lists; `1` clears the document and keyword filters, not the affects filter |
| `App.QuitKeys` | internal/tui/app.go:184-230 | outside the detail view ctrl+c and `q` quit; in the detail view ctrl+c scrolls and `q` goes back |
| `App.FilterPromptTakesKeys` | internal/tui/app.go:219-224 | while the filter prompt is open, keys change nothing and go to the list |
| `App.DetailRoundTrip` | internal/tui/app.go:186-244 | Enter on a row opens its detail, and Esc from there returns to the same view and filters |
| `App.NoDetailWhileLoading` | internal/tui/app.go:231-244 | while loading, Enter opens no detail |
| `Views.EffectiveWidth` | internal/tui/views.go:343-345 | a positive width is kept; zero or negative becomes 80 |
| `Views.Pack` | internal/tui/views.go:351-366 | the lines are non-empty, and there are none exactly when there are no words |
| `Views.PackConcat` | internal/tui/views.go:351-366 | the lines hold the words, in order |
| `Views.PackFits` | internal/tui/views.go:354 | every line fits in the width unless it is a single word |
| `Views.PackGreedy` | internal/tui/views.go:354 | the first word of each next line would not have fitted on the line before |
| `Views.WrappedSnoc` | internal/tui/views.go:354-365 | each further word adds one separator (a newline when it breaks, a space otherwise) and the word |
| `Views.WrappedFields` | internal/tui/views.go:348-368 | splitting the wrapped text gives back the words, in order |
| `Views.WrappedLength` | internal/tui/views.go:351-366 | the output length is the words' lengths plus one separator between each two |
| `Views.WrappedEmpty` | internal/tui/views.go:347-368 | no words give the empty string |
| `Views.BlankText` | internal/tui/views.go:347-368 | blank text wraps to the empty string |
| `Views.WrapStep` | internal/tui/views.go:352-365 | one loop step: the new output and current line length are the wrapped text of one more word |
| `Views.AddWord` | internal/tui/views.go:352-365 | the loop body: newline when the word does not fit on a non-empty line, space between words on a line, then the word |
| `Views.WrapWords` | internal/tui/views.go:348-366 | the loop returns `Wrapped` of the words |
| `Views.WrapText` | internal/tui/views.go:342-369 | `wrapText` returns the words of the text wrapped greedily to the effective width |
| `Delegate.NewItemDelegate` | internal/tui/delegate.go:19-21 | rows show their description |
| `Delegate.Height` | internal/tui/delegate.go:23-28 | two lines exactly with a description, one line without |
| `Delegate.DefaultHeight` | internal/tui/delegate.go:19-28 | rows of the default delegate are two lines high |
| `Delegate.OneLine` | internal/tui/delegate.go:112-113 | no newline is left and no white space at either end |
| `Delegate.OneLineFixed` | internal/tui/delegate.go:112-113 | text that is already one trimmed line is unchanged |
| `Delegate.Truncate` | internal/tui/delegate.go:111-118 | at most `max` bytes and no newline; the one-line text when it fits, else its first `max - 3` bytes and "..." |
| `Delegate.TruncateIdempotent` | internal/tui/delegate.go:111-118 | truncating twice is truncating once |
| `Delegate.TruncateLongExample` | internal/tui/delegate.go:114-116 | "abcdefgh" cut to 5 is "ab..." |
| `Delegate.TruncateShortExample` | internal/tui/delegate.go:112-117 | "a\nb" within 80 is "a b" |
| `Delegate.RowTitle` | internal/tui/delegate.go:49-52 | a requirement row's title is its name, or its id when the name is empty |

## Left out

- Concurrency: `FetchAllDocuments` fetches in goroutines joined by a `WaitGroup`, a mutex and a channel. The model fetches the codes one after another, in an arbitrary order. Each code touches only its own cache entry (`Fetch.CatalogUrlsDistinct`), so every interleaving gives the same results, cache and error entries. Only the order of the entries varies, and `Fetch.FailuresOrderIndependent` covers it.
- Networking and the disk cache: the HTTP client, its 60-second timeout and the `internal/cache` package are an input function and a map. `internal/cache` is not part of this model.
- Fetch.Client.FetchDocument: the 1024-byte read loop of a response body is not modelled. The response carries its whole body. The source ends that loop on any read error and returns the partial body as a success, and the model does not capture that.
- JSON text: `encoding/json`'s byte-level parsing is the `parse` parameter. The decoders start from a parsed value tree. Go matches object keys case-insensitively when no key matches exactly, and the decoders match keys exactly.
- Duplicate keys in a struct: the struct decoders read only the last member with a field's key. Go decodes each occurrence into the field in turn. It ignores a later `null`, still reports a type error in an earlier occurrence, and merges repeated struct or slice values. For maps and `json.RawMessage` the last occurrence wins in both.
- Error text: errors are structured values (`SyntaxError`, `TypeError`, `HttpStatus`, `Fetching`, `FetchingDocuments`, `ParsingRawDocument`, …). The strings `fmt.Errorf` would print are not produced.
- nil and empty: a nil slice or map and an empty one are the same value here. `ParseDocumentInfo`'s result pointer and the `info == nil` case of `EnrichDocument` become an `Option`.
- Strings are ASCII: one `char` per byte. `len`, slicing and `strings.ToLower` on multi-byte UTF-8 are not modelled.
- Rendering: `View`, `renderHeader`, `renderDetailContent`, `renderDetailView` and every `render*` function of `views.go` except `wrapText` are left out, as are the list titles set by `updateListForView` and `ItemDelegate.Render` beyond the row title. They produce styled terminal text with `lipgloss`.
- Bubble Tea components: the list, spinner and viewport models are outside the model.
  - The list's filter state and highlighted row are inputs to each key.
  - A key for the list or the viewport becomes a `ToList` or `ToViewport` command.
  - `tea.WindowSizeMsg`, `spinner.TickMsg`, `Init` and `initList`'s styling are left out; its `Filter` closure is `Filters.ListFilter`.
- App.Tui.UpdateKey: `ResetSelected`, `ResetFilter` and the title text are not modelled, because they belong to the list component. Rebuilding the list is modelled as its rows.
- `keys.go`, `styles.go` and `main.go` hold key bindings that `Update` does not consult, styles, and the command-line entry point.
- Catalog: each entry keeps the slug of its file name, and `Catalog.Filename` spells out `FRMR.<code>.<slug>.json`. This spells the same twelve names as the source's literal strings.
- Loader.FetchData: the Go code is one closure. The model splits it into `ParseAll`, `CountRequirements`, `BuildDocuments`, `CountAndEnrich` and `OverrideCounts` along its loops.
- Delegate.Truncate: it requires `max >= 3` whenever the text is longer than `max`. For a smaller `max` the source's slice `s[:max-3]` panics. Every caller passes 60 or 80.
