# Toornament API client: request building, verified

A Dafny model of the request-building core of the Python Toornament API
client (the `toornament` package), with proofs about it. The model covers:

- **Pagination windows** (`RangeWindow`, range.dfy). A `Range` is a mutable
  object with a start, an end and a unit.
  - The setters reject negative bounds.
  - `set_range` checks the order of the two bounds and stores both or neither.
  - `get_header_value` checks the order again and renders `unit=start-end`.
  - The constructor does not compare the bounds.
- **Converters and placement codes** (`Converters`, converters.dfy). These
  are the five value converters named in the registry and the four codes
  HEADER, PATH, QUERY and JSON. The codes index the request's four buckets.
  The module also models Python's `str` and `repr` on the values a caller
  can pass.
- **The endpoint registry** `FUNCTIONS` (`ApiFunctionsDoc`, registry.dfy).
  It has 25 viewer endpoints. Each endpoint has a method, a parsed path
  template and a pagination unit, and each of its parameters has a
  placement, an optional flag, a list flag and a converter. The model
  proves the well-formedness facts that `prepare_request` silently relies on.
- **Request preparation** (`RequestPreparer`, request_preparer.dfy).
  `prepare_request` is modelled twice:
  - by `Fill`, a specification over the argument sequence;
  - by `PrepareRequest`, a method whose loop updates an array of four maps
    in place and is proved equal to that specification.
  The lemmas cover:
  - how errors arise;
  - where each argument lands and the value it holds there;
  - how optional `None` arguments are dropped;
  - the `Range` header, which takes its unit from the registry;
  - the `json` key;
  - what `prepare_request` prepares for the arguments of the two test calls
    in tests/full_test.py.
- **Path substitution** (`PathTemplate`, path_template.dfy). This is the
  substitution `path.format(**path_parameters)` from
  toornament/toornament_connection.py:22, together with a parser for
  Python's format strings. The parser is proved to invert rendering.
- **Outgoing-object flattening** (`SchemaElement`, schema_element.dfy, and
  `Schema`, schema.py's older copy, in schema.dfy). Both work over a tree
  datatype defined in objects.dfy.
- **Organizer custom-field records** (`OrganizerSchema`,
  organizer_schema.dfy), whose keyword-only constructors build request
  bodies.

`Exceptions` and `Wrappers` (wrappers.dfy) hold the Python exceptions the
code raises and the `Result`/`Outcome` types that carry them. `Text`
(text.dfy) is ASCII `str(int)`, `int(str)`, `strip`, `lower` and
`capitalize`.

Four points of the code that the model keeps as written:

- toornament/range.py: `Range(5, 2)` succeeds, since `__init__` calls only
  the setters. Only `set_range` and `get_header_value` compare the bounds.
- toornament/request_preparer.py, lines 20-21: a parameter goes to the
  headers because its type is HEADER, whatever its name, and its header key
  is `name.capitalize()`.
- toornament/request_preparer.py, line 21: the `Range` header's unit is
  always the registry entry's `range` value. The unit stored in the `Range`
  object is never read.
- toornament/request_preparer.py: `prepare_request` neither joins list
  query values with commas nor flattens schema objects in the body. Lists
  reach the query bucket as lists.

## Model

| member | source | states |
|---|---|---|
| RangeWindow.CheckForRange | toornament/range.py:4-6 | fails exactly when `a > b`, and then with BadRange |
| RangeWindow.NormalizeUnitIdempotent | toornament/range.py:37-38 | storing a unit that `set_unit` already normalized stores the same unit |
| RangeWindow.HeaderTextRoundTrip | toornament/range.py:49 | the header text `unit=start-end` determines the unit and both bounds, whatever characters the unit contains |
| RangeWindow.Range.Empty | toornament/range.py:16-18 | a fresh window has start, end and unit unset |
| RangeWindow.Range.New | toornament/range.py:11-25 | construction fails with ValueError exactly when a given bound is negative. Otherwise each given argument is stored (the unit normalized) and each absent one stays unset. The bounds are not compared |
| RangeWindow.Range.SetStart | toornament/range.py:27-30 | a negative start raises ValueError and leaves `start` unchanged; otherwise `start` becomes the value. Nothing else changes |
| RangeWindow.Range.SetEnd | toornament/range.py:32-35 | likewise for `end` |
| RangeWindow.Range.SetUnit | toornament/range.py:37-38 | the unit becomes the trimmed, lower-cased argument |
| RangeWindow.Range.SetRange | toornament/range.py:40-45 | the possible outcomes are: ValueError for a list whose length is not 2; BadRange when the first entry exceeds the second; ValueError for a negative first entry; otherwise success. On success both bounds are stored; on any failure neither changes |
| RangeWindow.Range.GetHeaderValue | toornament/range.py:47-49 | fails exactly when a bound is unset (TypeError) or `start > end` (BadRange). Otherwise it returns `unit=start-end`, which reads back to the stored unit and bounds. Nothing changes |
| RangeWindow.Range.ConvertedSpan | toornament/functions_dictionary_helper.py:11-14 | `Converter.range` of a window object whose bounds are both set yields the text `start-end` of the object's current bounds, which reads back to them, whatever its unit |
| Converters.PlacementsAreDistinctBucketIndices | toornament/functions_dictionary_helper.py:25-29 | HEADER, PATH, QUERY, JSON are 0, 1, 2, 3, all valid indices of the four buckets |
| Converters.Apply | toornament/functions_dictionary_helper.py:1-22 | `none`, `to_date` and `to_datetime` return their input; `to_str` always yields a string; `range` succeeds exactly on Range values and otherwise raises AttributeError |
| Converters.ToStrOfInt | toornament/functions_dictionary_helper.py:7-9 | `to_str` of an integer is its decimal numeral, which `int()` reads back to the integer |
| Converters.ToStrOfStr | toornament/functions_dictionary_helper.py:7-9 | `to_str` of a string is the string |
| Converters.RangeFormatSpan | toornament/functions_dictionary_helper.py:11-14 | `range` of a window with bounds a, b is `a-b`, with no unit, and it reads back to (a, b) |
| Converters.RangeFormatDoesNotCheckOrder | toornament/functions_dictionary_helper.py:11-14 | a reversed window (5, 2) passes through as `5-2` |
| Text.IntToString | toornament/functions_dictionary_helper.py:9 | `str(i)` starts with a minus sign exactly when `i < 0`; the rest is decimal digits |
| Text.ParseIntOfIntToString | toornament/organizer_schema.py:47 | `int(str(i)) == i` |
| Text.ParseInt | toornament/organizer_schema.py:47 | `int()` of a string fails only with ValueError |
| Text.Capitalize | toornament/request_preparer.py:21 | `capitalize()` upper-cases the first character and lower-cases the rest |
| PathTemplate.Format | toornament/toornament_connection.py:22 | for a well-formed template, `format` succeeds exactly when every field has an argument, and a failure is a KeyError naming a field that has no argument. For any template, a positional field (`{}` or `{0}`) raises IndexError, as only keyword arguments are passed |
| PathTemplate.KeywordNotPositional | toornament/toornament_connection.py:22 | a field that is not empty and does not start with a digit is a keyword field |
| PathTemplate.FormatTwoFields | toornament/toornament_connection.py:22 | a two-field template is filled in place with `str` of the two arguments |
| PathTemplate.Parse | toornament/toornament_connection.py:22 | parsing a format string fails only with ValueError |
| PathTemplate.ParseBraceFree | toornament/toornament_connection.py:22 | brace-free text parses to a template with no fields |
| PathTemplate.ParseRejectsStrayClose | toornament/toornament_connection.py:22 | a `}` before any `{` raises ValueError |
| PathTemplate.ParseRejectsUnclosed | toornament/toornament_connection.py:22 | a `{` with no `}` after it raises ValueError |
| PathTemplate.ParseRejectsNestedOpen | toornament/toornament_connection.py:22 | a `{` inside a field raises ValueError |
| PathTemplate.ParseThenRender | toornament/toornament_connection.py:22 | whatever parses renders back to the exact text it came from, so together with ParseRender, parsing and rendering are inverse |
| PathTemplate.ParseRender | toornament/api_functions_doc.py:64 | parsing the text of a well-formed template gives the template back, so holding the registry's paths parsed loses nothing |
| ApiFunctionsDoc.RegistryWellFormed | toornament/api_functions_doc.py:4-822 | every registry entry is well formed, with all the facts listed under the per-entry rows below |
| ApiFunctionsDoc.OnlyStandingsRequiresAQuery | toornament/api_functions_doc.py:559-564 | the only required query parameter in the whole registry is `tournament_ids` of `viewer_get_standings` |
| ApiFunctionsDoc.RegisteredNames | toornament/api_functions_doc.py:4-822 | a name has an entry exactly when it is one of the 25 keys of `FUNCTIONS` |
| ApiFunctionsDoc.NoJsonParameters | toornament/api_functions_doc.py:4-822 | no parameter of any entry has type JSON |
| ApiFunctionsDoc.PathParamsAreTemplateFields | toornament/api_functions_doc.py:13-24 | in a well-formed entry, the path parameters are exactly the replacement fields of the path |
| RequestPreparer.EmptyBuckets | toornament/request_preparer.py:8 | the four buckets start empty |
| RequestPreparer.Elements | toornament/request_preparer.py:16 | iterating a list yields its items and iterating a string yields its characters; any other value raises TypeError |
| RequestPreparer.ConvertEach | toornament/request_preparer.py:16 | the comprehension succeeds exactly when every element converts, and keeps length and order. Otherwise it raises the error of the first element that fails |
| RequestPreparer.Convert | toornament/request_preparer.py:15-18 | a list parameter is converted element by element, keeping length and order; a single parameter gets its converter applied once |
| RequestPreparer.PrepareRequest | toornament/request_preparer.py:5-37 | the loop that fills the four buckets in place returns exactly the request `Prepared` specifies, or the same exception |
| RequestPreparer.FillErrorPersists | toornament/request_preparer.py:10-23 | once an argument has raised, the remaining arguments do not change the outcome |
| RequestPreparer.StepFailsOnArgError | toornament/request_preparer.py:11-23 | one iteration raises exactly when its argument has an error of its own, and raises that error |
| RequestPreparer.FillFailsAtFirstBadArgument | toornament/request_preparer.py:10-23 | the loop succeeds exactly when no argument has an error, and otherwise raises the error of the first argument that has one |
| RequestPreparer.BucketKeysAreArguments | toornament/request_preparer.py:22-23 | every key of the path, query and JSON buckets names an argument that was processed (not an optional None) and whose type is that bucket; so no argument lands in another bucket |
| RequestPreparer.ProcessedArgumentsConvert | toornament/request_preparer.py:13-23 | after a successful loop, every processed argument outside the headers has a type below four and converts |
| RequestPreparer.FillPlacesArguments | toornament/request_preparer.py:22-23 | every processed argument outside the headers is a key of the bucket of its type; a required argument is processed even when it is None |
| RequestPreparer.FillStoresConvertedValues | toornament/request_preparer.py:13-23 | with distinct names, that key holds the argument's converted value |
| RequestPreparer.OptionalNoneIsDropped | toornament/request_preparer.py:13 | an optional argument given None can be removed from any position in the call without changing the outcome |
| RequestPreparer.JsonBucketHoldsJsonArguments | toornament/request_preparer.py:34-35 | the JSON bucket is non-empty exactly when some processed argument has type JSON |
| RequestPreparer.NonEmptyBucketHasArgument | toornament/request_preparer.py:22-23 | a non-empty path, query or JSON bucket holds some processed argument of that type |
| RequestPreparer.EmittedArgumentIsPlaced | toornament/request_preparer.py:22-23 | a processed argument not typed HEADER is a key of the bucket of its type, and that type is a valid bucket index |
| RequestPreparer.PathBucketFillsTemplate | toornament/request_preparer.py:30 | for a well-formed entry, the path bucket fills the template exactly when every field was passed as an argument; a missing field is one that no argument names |
| RequestPreparer.PreparedFromRegistry | toornament/request_preparer.py:5-37 | an unknown endpoint raises KeyError. A known one succeeds exactly when no argument has an error, and otherwise raises some argument's error. A success passes the request arguments through and carries method GET, the entry's unfilled path and no `json` |
| RequestPreparer.PreparedPathFormats | toornament/request_preparer.py:28-30 | for a prepared request, `path.format(**path_parameters)` succeeds exactly when every field was an argument, and otherwise raises KeyError for a field that no argument names |
| RequestPreparer.CapitalizeRange | toornament/request_preparer.py:21 | the header key for `range` is `Range` |
| RequestPreparer.HeaderBucketIsRange | toornament/request_preparer.py:20-21 | where `range` is the only header parameter, the headers hold at most `Range`. They are empty when no `range` is given, and otherwise hold the registry unit followed by the converted window |
| RequestPreparer.RangeHeaderUsesRegistryUnit | toornament/request_preparer.py:21 | the `Range` header is the registry's unit, `=`, then the unchecked bounds; the window's own unit is ignored. For two set, non-negative bounds it equals `get_header_value`'s text for the registry unit |
| RequestPreparer.MatchesFromTournamentEntry | toornament/api_functions_doc.py:161-251 | `viewer_get_matches_from_tournament` is registered |
| RequestPreparer.MatchesFromTournamentParameters | toornament/api_functions_doc.py:161-251 | its `tournament_id` is a required single path parameter converted by `to_str`, it has a `range` with unit `matches`, and it uses GET |
| RequestPreparer.MatchesFromTournamentHeaderIsRange | toornament/api_functions_doc.py:163-168 | its only header parameter is `range` |
| RequestPreparer.PathArgumentThenRange | toornament/request_preparer.py:10-23 | a call with one `to_str` path argument and a complete window yields exactly the `Range` header and that one path parameter |
| RequestPreparer.PreparedPathArgumentThenRange | toornament/request_preparer.py:5-37 | the request that call prepares, with no query parameters and no `json` |
| RequestPreparer.MatchesWindowText | toornament/api_functions_doc.py:249 | the window 0-9 in unit `matches` renders as `matches=0-9` |
| RequestPreparer.MatchesFromTournamentExample | tests/full_test.py:7 | `prepare_request('viewer_get_matches_from_tournament', {}, tournament_id=3045919883406483456, range=<window 0-9>)`, with the arguments of that call, prepares the header `Range: matches=0-9` whatever unit the window holds, the tournament id as a decimal path parameter, no query and no `json` |
| RequestPreparer.PrepareMatchesWithWindow | tests/full_test.py:7 | the same request when the window is built by `Range(0, 9)` and passed as the object's value |
| RequestPreparer.TwoPathArguments | toornament/request_preparer.py:10-23 | two `to_str` path arguments fill only the path bucket, each with its text |
| RequestPreparer.MatchEntry | toornament/api_functions_doc.py:252-270 | `viewer_get_match` is registered, takes two `to_str` path parameters, uses GET and has the path `/tournaments/{tournament_id}/matches/{id}` |
| RequestPreparer.MatchExample | tests/full_test.py:10 | `prepare_request('viewer_get_match', {}, tournament_id=a, id=b)`, for the arguments of that call or any other integer ids, prepares no header and no query, and its path fills to `/tournaments/a/matches/b` |
| SchemaElement.ConvertToDict | toornament/schema_element.py:1-14 | a schema instance becomes the conversion of its attribute dictionary. A dict keeps its key set with converted values. A list or tuple becomes a list of the same length, converted element-wise. Anything else, including an instance of schema.py's class, is returned unchanged. The result holds no tuple and no instance of this class |
| SchemaElement.ConvertToDictRemoveNone | toornament/schema_element.py:17-30 | as above, but every dict keeps exactly its keys whose value is not None. None elements of lists are kept. No dict in the result holds None |
| SchemaElement.ToDict | toornament/schema_element.py:35-36 | `to_dict` of an instance equals the conversion of its attribute dictionary |
| SchemaElement.ToDictRemoveNone | toornament/schema_element.py:38-39 | `to_dict_remove_none` likewise |
| SchemaElement.ConvertPlain | toornament/schema_element.py:1-14 | a plain dict/list tree converts to itself |
| SchemaElement.ConvertToDictIdempotent | toornament/schema_element.py:1-14 | converting twice equals converting once |
| SchemaElement.RemoveNonePlain | toornament/schema_element.py:17-30 | a plain tree without None entries converts to itself |
| SchemaElement.ConvertToDictRemoveNoneIdempotent | toornament/schema_element.py:17-30 | converting with None removal twice equals doing it once |
| SchemaElement.RemoveNoneWithoutNulls | toornament/schema_element.py:7-24 | where no dict holds None, both converters agree |
| SchemaElement.SingleLiveEntry | toornament/schema_element.py:23-24 | a dict whose only non-None entry is `k` flattens to that single entry |
| Schema.ConvertToDict | toornament/schema.py:1-14 | as `SchemaElement.ConvertToDict`, for the class of schema.py: instances of schema_element.py's class come back unchanged |
| Schema.ToDict | toornament/schema.py:17-20 | `to_dict` equals the conversion of the attribute dictionary |
| Schema.CopiesAgreeWithoutElements | toornament/schema.py:1-14 | on trees without schema instances, the two copies of `convert_to_dict` agree |
| Schema.CopiesDifferOnCurrentElements | toornament/schema.py:17-20 | an organizer record is returned unchanged by schema.py's copy but flattened to a dict by schema_element.py's, so the two differ |
| OrganizerSchema.IntOf | toornament/organizer_schema.py:47 | `int()` of an int is that int, of a bool is 1 or 0, of a string is the string's parse, and of anything else is TypeError. So it fails with ValueError exactly on unparseable strings, and with TypeError on anything that is neither a number nor a string |
| OrganizerSchema.IntOfDecimalText | toornament/organizer_schema.py:47 | `int(str(i)) == i` for the id |
| OrganizerSchema.NewCustomFieldBase | toornament/organizer_schema.py:6-21 | succeeds exactly when every keyword is one of the five base fields, otherwise TypeError. The attribute dictionary holds the five fields, each set to its argument or None |
| OrganizerSchema.NewCustomFieldCreate | toornament/organizer_schema.py:23-36 | succeeds exactly when `machine_name` and `type` are given and every keyword is known, otherwise TypeError. The attributes are the eight fields, `target_type` defaulting to None |
| OrganizerSchema.NewCustomField | toornament/organizer_schema.py:38-47 | succeeds exactly when `id`, `machine_name` and `type` are given, no keyword is unknown and `int(id)` parses. A ValueError comes only from the id, after the rest was accepted. The stored id is `int(id)`, and the attributes are the nine fields |
| OrganizerSchema.BaseDefaultsAreNone | toornament/organizer_schema.py:8-21 | with no arguments all five base fields are None |
| OrganizerSchema.LabelOnlyFlattens | toornament/organizer_schema.py:17-21 | a base record built from `label` alone flattens with `to_dict_remove_none` to the single entry `{label: value}` |
| OrganizerSchema.IdOfRequiredKeywords | toornament/organizer_schema.py:38-47 | a record built from `id`, `machine_name` and `type` alone succeeds when `int(id)` does, and stores `int(id)` |
| OrganizerSchema.IdIsParsed | toornament/organizer_schema.py:40-47 | `CustomField(id="123", machine_name=m, type=t)` stores the id 123 |
| ApiFunctionsDoc.ViewerGetBracketNodesWellFormed | toornament/api_functions_doc.py:5-65 | the entry `viewer_get_bracket_nodes` uses GET, has the pagination unit `nodes` and a `range` parameter, which is its only header parameter (required, single, `Converter.range`), places every parameter in the headers, the path or the query, and its path parameters are required single values that are exactly the replacement fields of its path, whose literal segments are brace-free and whose fields are non-empty keyword names |
| ApiFunctionsDoc.ViewerGetCustomFieldsWellFormed | toornament/api_functions_doc.py:66-84 | the entry `viewer_get_custom_fields` uses GET, has no pagination unit, no `range` parameter and therefore no header parameter, places every parameter in the headers, the path or the query, and its path parameters are required single values that are exactly the replacement fields of its path, whose literal segments are brace-free and whose fields are non-empty keyword names |
| ApiFunctionsDoc.ViewerGetDisciplinesWellFormed | toornament/api_functions_doc.py:85-97 | the entry `viewer_get_disciplines` uses GET, has the pagination unit `disciplines` and a `range` parameter, which is its only header parameter (required, single, `Converter.range`), places every parameter in the headers, the path or the query, and its path parameters are required single values that are exactly the replacement fields of its path, whose literal segments are brace-free and whose fields are non-empty keyword names |
| ApiFunctionsDoc.ViewerGetDisciplineWellFormed | toornament/api_functions_doc.py:98-110 | the entry `viewer_get_discipline` uses GET, has no pagination unit, no `range` parameter and therefore no header parameter, places every parameter in the headers, the path or the query, and its path parameters are required single values that are exactly the replacement fields of its path, whose literal segments are brace-free and whose fields are non-empty keyword names |
| ApiFunctionsDoc.ViewerGetGroupsWellFormed | toornament/api_functions_doc.py:111-141 | the entry `viewer_get_groups` uses GET, has the pagination unit `groups` and a `range` parameter, which is its only header parameter (required, single, `Converter.range`), places every parameter in the headers, the path or the query, and its path parameters are required single values that are exactly the replacement fields of its path, whose literal segments are brace-free and whose fields are non-empty keyword names |
| ApiFunctionsDoc.ViewerGetGroupWellFormed | toornament/api_functions_doc.py:142-160 | the entry `viewer_get_group` uses GET, has no pagination unit, no `range` parameter and therefore no header parameter, places every parameter in the headers, the path or the query, and its path parameters are required single values that are exactly the replacement fields of its path, whose literal segments are brace-free and whose fields are non-empty keyword names |
| ApiFunctionsDoc.ViewerGetMatchesFromTournamentWellFormed | toornament/api_functions_doc.py:161-251 | the entry `viewer_get_matches_from_tournament` uses GET, has the pagination unit `matches` and a `range` parameter, which is its only header parameter (required, single, `Converter.range`), places every parameter in the headers, the path or the query, and its path parameters are required single values that are exactly the replacement fields of its path, whose literal segments are brace-free and whose fields are non-empty keyword names |
| ApiFunctionsDoc.ViewerGetMatchWellFormed | toornament/api_functions_doc.py:252-270 | the entry `viewer_get_match` uses GET, has no pagination unit, no `range` parameter and therefore no header parameter, places every parameter in the headers, the path or the query, and its path parameters are required single values that are exactly the replacement fields of its path, whose literal segments are brace-free and whose fields are non-empty keyword names |
| ApiFunctionsDoc.ViewerGetMatchesFromDisciplineWellFormed | toornament/api_functions_doc.py:271-331 | the entry `viewer_get_matches_from_discipline` uses GET, has the pagination unit `matches` and a `range` parameter, which is its only header parameter (required, single, `Converter.range`), places every parameter in the headers, the path or the query, and its path parameters are required single values that are exactly the replacement fields of its path, whose literal segments are brace-free and whose fields are non-empty keyword names |
| ApiFunctionsDoc.ViewerGetGameWellFormed | toornament/api_functions_doc.py:332-356 | the entry `viewer_get_game` uses GET, has no pagination unit, no `range` parameter and therefore no header parameter, places every parameter in the headers, the path or the query, and its path parameters are required single values that are exactly the replacement fields of its path, whose literal segments are brace-free and whose fields are non-empty keyword names |
| ApiFunctionsDoc.ViewerGetParticipantsWellFormed | toornament/api_functions_doc.py:357-387 | the entry `viewer_get_participants` uses GET, has the pagination unit `participants` and a `range` parameter, which is its only header parameter (required, single, `Converter.range`), places every parameter in the headers, the path or the query, and its path parameters are required single values that are exactly the replacement fields of its path, whose literal segments are brace-free and whose fields are non-empty keyword names |
| ApiFunctionsDoc.ViewerGetParticipantWellFormed | toornament/api_functions_doc.py:388-406 | the entry `viewer_get_participant` uses GET, has no pagination unit, no `range` parameter and therefore no header parameter, places every parameter in the headers, the path or the query, and its path parameters are required single values that are exactly the replacement fields of its path, whose literal segments are brace-free and whose fields are non-empty keyword names |
| ApiFunctionsDoc.ViewerGetPlaylistWellFormed | toornament/api_functions_doc.py:407-419 | the entry `viewer_get_playlist` uses GET, has no pagination unit, no `range` parameter and therefore no header parameter, places every parameter in the headers, the path or the query, and its path parameters are required single values that are exactly the replacement fields of its path, whose literal segments are brace-free and whose fields are non-empty keyword names |
| ApiFunctionsDoc.ViewerGetRankingItemsWellFormed | toornament/api_functions_doc.py:420-456 | the entry `viewer_get_ranking_items` uses GET, has the pagination unit `items` and a `range` parameter, which is its only header parameter (required, single, `Converter.range`), places every parameter in the headers, the path or the query, and its path parameters are required single values that are exactly the replacement fields of its path, whose literal segments are brace-free and whose fields are non-empty keyword names |
| ApiFunctionsDoc.ViewerGetRoundsWellFormed | toornament/api_functions_doc.py:457-499 | the entry `viewer_get_rounds` uses GET, has the pagination unit `rounds` and a `range` parameter, which is its only header parameter (required, single, `Converter.range`), places every parameter in the headers, the path or the query, and its path parameters are required single values that are exactly the replacement fields of its path, whose literal segments are brace-free and whose fields are non-empty keyword names |
| ApiFunctionsDoc.ViewerGetRoundWellFormed | toornament/api_functions_doc.py:500-518 | the entry `viewer_get_round` uses GET, has no pagination unit, no `range` parameter and therefore no header parameter, places every parameter in the headers, the path or the query, and its path parameters are required single values that are exactly the replacement fields of its path, whose literal segments are brace-free and whose fields are non-empty keyword names |
| ApiFunctionsDoc.ViewerGetStagesWellFormed | toornament/api_functions_doc.py:519-531 | the entry `viewer_get_stages` uses GET, has no pagination unit, no `range` parameter and therefore no header parameter, places every parameter in the headers, the path or the query, and its path parameters are required single values that are exactly the replacement fields of its path, whose literal segments are brace-free and whose fields are non-empty keyword names |
| ApiFunctionsDoc.ViewerGetStageWellFormed | toornament/api_functions_doc.py:532-550 | the entry `viewer_get_stage` uses GET, has no pagination unit, no `range` parameter and therefore no header parameter, places every parameter in the headers, the path or the query, and its path parameters are required single values that are exactly the replacement fields of its path, whose literal segments are brace-free and whose fields are non-empty keyword names |
| ApiFunctionsDoc.ViewerGetStandingsWellFormed | toornament/api_functions_doc.py:551-575 | the entry `viewer_get_standings` uses GET, has the pagination unit `items` and a `range` parameter, which is its only header parameter (required, single, `Converter.range`), places every parameter in the headers, the path or the query, and its path parameters are required single values that are exactly the replacement fields of its path, whose literal segments are brace-free and whose fields are non-empty keyword names |
| ApiFunctionsDoc.ViewerGetStreamsWellFormed | toornament/api_functions_doc.py:576-600 | the entry `viewer_get_streams` uses GET, has the pagination unit `streams` and a `range` parameter, which is its only header parameter (required, single, `Converter.range`), places every parameter in the headers, the path or the query, and its path parameters are required single values that are exactly the replacement fields of its path, whose literal segments are brace-free and whose fields are non-empty keyword names |
| ApiFunctionsDoc.ViewerGetTournamentsFeaturedWellFormed | toornament/api_functions_doc.py:601-667 | the entry `viewer_get_tournaments_featured` uses GET, has the pagination unit `tournaments` and a `range` parameter, which is its only header parameter (required, single, `Converter.range`), places every parameter in the headers, the path or the query, and its path parameters are required single values that are exactly the replacement fields of its path, whose literal segments are brace-free and whose fields are non-empty keyword names |
| ApiFunctionsDoc.ViewerGetTournamentWellFormed | toornament/api_functions_doc.py:668-680 | the entry `viewer_get_tournament` uses GET, has no pagination unit, no `range` parameter and therefore no header parameter, places every parameter in the headers, the path or the query, and its path parameters are required single values that are exactly the replacement fields of its path, whose literal segments are brace-free and whose fields are non-empty keyword names |
| ApiFunctionsDoc.ViewerGetTournamentsByPlaylistWellFormed | toornament/api_functions_doc.py:681-753 | the entry `viewer_get_tournaments_by_playlist` uses GET, has the pagination unit `tournaments` and a `range` parameter, which is its only header parameter (required, single, `Converter.range`), places every parameter in the headers, the path or the query, and its path parameters are required single values that are exactly the replacement fields of its path, whose literal segments are brace-free and whose fields are non-empty keyword names |
| ApiFunctionsDoc.ViewerGetVideosWellFormed | toornament/api_functions_doc.py:754-790 | the entry `viewer_get_videos` uses GET, has the pagination unit `videos` and a `range` parameter, which is its only header parameter (required, single, `Converter.range`), places every parameter in the headers, the path or the query, and its path parameters are required single values that are exactly the replacement fields of its path, whose literal segments are brace-free and whose fields are non-empty keyword names |
| ApiFunctionsDoc.ViewerGetVideosByMatchWellFormed | toornament/api_functions_doc.py:791-821 | the entry `viewer_get_videos_by_match` uses GET, has no pagination unit, no `range` parameter and therefore no header parameter, places every parameter in the headers, the path or the query, and its path parameters are required single values that are exactly the replacement fields of its path, whose literal segments are brace-free and whose fields are non-empty keyword names |
| ApiFunctionsDoc.ViewerGetBracketNodesRequiredQuery | toornament/api_functions_doc.py:5-65 | no query parameter of `viewer_get_bracket_nodes` is required |
| ApiFunctionsDoc.ViewerGetCustomFieldsRequiredQuery | toornament/api_functions_doc.py:66-84 | no query parameter of `viewer_get_custom_fields` is required |
| ApiFunctionsDoc.ViewerGetDisciplinesRequiredQuery | toornament/api_functions_doc.py:85-97 | no query parameter of `viewer_get_disciplines` is required |
| ApiFunctionsDoc.ViewerGetDisciplineRequiredQuery | toornament/api_functions_doc.py:98-110 | no query parameter of `viewer_get_discipline` is required |
| ApiFunctionsDoc.ViewerGetGroupsRequiredQuery | toornament/api_functions_doc.py:111-141 | no query parameter of `viewer_get_groups` is required |
| ApiFunctionsDoc.ViewerGetGroupRequiredQuery | toornament/api_functions_doc.py:142-160 | no query parameter of `viewer_get_group` is required |
| ApiFunctionsDoc.ViewerGetMatchesFromTournamentRequiredQuery | toornament/api_functions_doc.py:161-251 | no query parameter of `viewer_get_matches_from_tournament` is required |
| ApiFunctionsDoc.ViewerGetMatchRequiredQuery | toornament/api_functions_doc.py:252-270 | no query parameter of `viewer_get_match` is required |
| ApiFunctionsDoc.ViewerGetMatchesFromDisciplineRequiredQuery | toornament/api_functions_doc.py:271-331 | no query parameter of `viewer_get_matches_from_discipline` is required |
| ApiFunctionsDoc.ViewerGetGameRequiredQuery | toornament/api_functions_doc.py:332-356 | no query parameter of `viewer_get_game` is required |
| ApiFunctionsDoc.ViewerGetParticipantsRequiredQuery | toornament/api_functions_doc.py:357-387 | no query parameter of `viewer_get_participants` is required |
| ApiFunctionsDoc.ViewerGetParticipantRequiredQuery | toornament/api_functions_doc.py:388-406 | no query parameter of `viewer_get_participant` is required |
| ApiFunctionsDoc.ViewerGetPlaylistRequiredQuery | toornament/api_functions_doc.py:407-419 | no query parameter of `viewer_get_playlist` is required |
| ApiFunctionsDoc.ViewerGetRankingItemsRequiredQuery | toornament/api_functions_doc.py:420-456 | no query parameter of `viewer_get_ranking_items` is required |
| ApiFunctionsDoc.ViewerGetRoundsRequiredQuery | toornament/api_functions_doc.py:457-499 | no query parameter of `viewer_get_rounds` is required |
| ApiFunctionsDoc.ViewerGetRoundRequiredQuery | toornament/api_functions_doc.py:500-518 | no query parameter of `viewer_get_round` is required |
| ApiFunctionsDoc.ViewerGetStagesRequiredQuery | toornament/api_functions_doc.py:519-531 | no query parameter of `viewer_get_stages` is required |
| ApiFunctionsDoc.ViewerGetStageRequiredQuery | toornament/api_functions_doc.py:532-550 | no query parameter of `viewer_get_stage` is required |
| ApiFunctionsDoc.ViewerGetStandingsRequiredQuery | toornament/api_functions_doc.py:551-575 | the only required query parameter of `viewer_get_standings` is `tournament_ids`, and it is a list |
| ApiFunctionsDoc.ViewerGetStreamsRequiredQuery | toornament/api_functions_doc.py:576-600 | no query parameter of `viewer_get_streams` is required |
| ApiFunctionsDoc.ViewerGetTournamentsFeaturedRequiredQuery | toornament/api_functions_doc.py:601-667 | no query parameter of `viewer_get_tournaments_featured` is required |
| ApiFunctionsDoc.ViewerGetTournamentRequiredQuery | toornament/api_functions_doc.py:668-680 | no query parameter of `viewer_get_tournament` is required |
| ApiFunctionsDoc.ViewerGetTournamentsByPlaylistRequiredQuery | toornament/api_functions_doc.py:681-753 | no query parameter of `viewer_get_tournaments_by_playlist` is required |
| ApiFunctionsDoc.ViewerGetVideosRequiredQuery | toornament/api_functions_doc.py:754-790 | no query parameter of `viewer_get_videos` is required |
| ApiFunctionsDoc.ViewerGetVideosByMatchRequiredQuery | toornament/api_functions_doc.py:791-821 | no query parameter of `viewer_get_videos_by_match` is required |

## Left out

- The HTTP layer (toornament/toornament_connection.py, toornament/viewer_api.py, toornament/information.py). It sends requests, checks status codes, and decodes JSON responses, all of which is network I/O. Only the path substitution `path.format(**path_parameters)` is modelled, as `PathTemplate.Format`.
- toornament/organizer_api.py. It wraps an `_access` method that is not part of this model, and its endpoint names are not keys of `FUNCTIONS`.
- toornament/viewer_schemas.py. It depends on a `.converter` module that is not part of this model. The `.converter` import of toornament/organizer_schema.py is not used by the modelled constructors.
- The client methods `get_matches_from_tournament` and `get_match` that tests/full_test.py calls are not among the files modelled here, and none of the files shown calls `prepare_request`; toornament/viewer_api.py shows only `fetch_match`, which builds its path mapping itself. The examples state what `prepare_request` prepares for the arguments of those test calls.
- Converters.ToStrOfInt: Python's default limit of 4300 digits on integer/string conversion (a ValueError from `str(i)` and `int(s)` beyond it, since CPython 3.11 and in the 3.7.14, 3.8.14, 3.9.14 and 3.10.7 releases) is not modelled; `str` and `int` are total on integers here. The ids the client passes have 19 digits.
- Converters.Apply: `to_str` of an integer past that limit would raise ValueError in those Python versions; the model has no such error path.
- Text.ParseInt: text of more than 4300 digits is read like any other, where those Python versions raise ValueError.
- Behaviour that no modelled file implements: response materialization, participant and ranking-item variant selection, scopes, token issuance and the asynchronous client.
- Joining list query values with commas. `prepare_request` passes lists through unchanged, and so does the model.
- Python's full string semantics:
  - `strip`, `lower` and `capitalize` are ASCII;
  - `int()` accepts decimal ASCII text with an optional sign and surrounding whitespace;
  - `int()` of floats, of text with underscores and of non-ASCII digits is not modelled.
- Converters.Str:
  - `repr` of a string inside a list is quoted with `'` and does not escape quotes or backslashes;
  - `str` of a `Range` object is a fixed placeholder, since Python prints a memory address;
  - dates and datetimes are not among the modelled values, so `to_date` and `to_datetime` are identities on what is modelled.
- ApiFunctionsDoc.Functions: the registry is a lookup function by `match` on the 25 names rather than a constant map. `RegisteredNames` states that its domain is exactly the dictionary's keys.
- ApiFunctionsDoc.Parameter: every placement code in the registry is one of 0..3, so it is a `nat`. `prepare_request`'s negative-index behaviour for other codes is not modelled; a code of 4 or more raises IndexError, as list indexing does.
- Path templates are held parsed, as literal-and-field segments. `PathTemplate.ParseRender` shows that parsing their text gives the same segments back. No registry path uses any of the following, and none is modelled:
  - format specs (`{x:>4}`) and conversions (`{x!r}`);
  - attribute and index access inside `{}`.
- PathTemplate.Parse: the escapes `{{` and `}}` are rejected with ValueError, whereas Python reads them as literal braces. So the model's literal text never holds a brace; no registry path contains one.
- Dictionary order. Maps are unordered, so the order of keys in the request's dictionaries is not modelled. The order of keyword arguments is kept, as a sequence of pairs.
- Keyword arguments given twice cannot occur in Python. Lemmas that need distinct names say so with `DistinctNames`.
- Positional arguments to the keyword-only record constructors are not modelled; Python rejects them.
- Dictionary keys in the object trees are strings. Dicts keyed by other types are not modelled.
- The `SchemaElement` instances are held as their class and their attribute dictionary. Attributes set on an instance after construction are not modelled.
- `Range` bounds are kept as integers. `int(start)` in the setters is the identity on the integer arguments the model takes, so float arguments are not modelled.
- The `BadRange` message text and the other exception messages are not modelled; only the exception type is.
