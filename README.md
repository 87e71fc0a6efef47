# SAP OData query routing — a Dafny model

The repository routes a user's question to an SAP OData service. Its helper scripts and test drivers carry these
small pieces of logic:

- **entity registry.** A static table maps an entity alias to its service and entity set. A second table holds the
  parameter-based services and their mandatory parameters.
- **validator.** It checks that a request for a parameter-based service supplies every mandatory parameter.
- **path builder.** It builds the SAP "function import" path `/sap/opu/odata/sap/<service>/<entity>(P='v',...)/Results`
  for CDS views with parameters. For ordinary entity sets it builds `/sap/opu/odata/sap/<service>/<entity>` with a
  conjunctive `$filter`.
- **metadata explorer.** It normalises the two response envelopes, OData 4 `value` and OData 2 `d.results`. It lists
  the fields of the first record with a preview of each value, and derives a field-mapping template.
- **API access check.** It turns the outcome of a `$metadata` request and of an entity request into a result record.
  It decides from the SAP Gateway error what authorisation or activation is missing, and counts the results.
- **slide parser.** It turns a Markdown presentation into titled slides of headers, bold lines, bullets and text.
- **smoke-test tally.** It counts passed, failed and warned tests and derives the process exit code.

Each source file is one module:

| file | module | source |
|---|---|---|
| `wrappers.dfy` | `Wrappers` | `Option` and `Result` |
| `odata_paths.dfy` | `ODataPaths` | the entity-set path shared by the scripts |
| `entity_registry.dfy` | `EntityRegistry` | `quick-test.js`, with the `SalesAnalytics` alias that `test-customer-fix.js` expects |
| `param_api.dfy` | `ParamApi` | `test-param-api-logic.js` |
| `metadata_explorer.dfy` | `MetadataExplorer` | `scripts/explore-api-metadata.js` |
| `api_access.dfy` | `ApiAccess` | `scripts/test-all-apis.js` |
| `slide_parser.dfy` | `SlideParser` | `scripts/convert-to-ppt.py` |
| `test_tally.dfy` | `TestTally` | `test-app.js` |

The form of each module follows its source:

- **Value functions.** The registry, the policy, the path builder, the normaliser and the formatters are pure
  expressions in the source, so they are functions here.
- **`testAPI`.** It fills a mutable record step by step. It is modelled by methods that assign that record field by
  field. Each method is proved equal to a specification function (`TestResultOf`). The lemmas are stated about that
  function.
- **The slide parser.** Its `while` loop is a method. The method is proved equal to a left fold (`Run`) of a per-line
  transition (`Apply` of `Classify`).
- **The smoke-test runner.** It increments shared counters in place, so it is a class with three counter fields.

JavaScript semantics are written out where the result depends on them:

- truthiness (`""`, `0`, `null`, `undefined` and `false` are falsy; every array and object is truthy);
- `||` returning its operand;
- optional chaining;
- `typeof null === 'object'`;
- `hasOwnProperty` applied to `undefined`.

The lookup `KNOWN_ENTITIES[name]` is also modelled as JavaScript evaluates it, up the prototype chain (see Findings).

Python's `str.strip()` removes exactly the characters for which `str.isspace()` holds, at both ends. This is modelled
by `IsSpace`, `LeadingSpace` and `TrailingSpace`.

## Model

| member | source | states |
|---|---|---|
| `ODataPaths.EntityPath` | scripts/explore-api-metadata.js:28 | The path is the OData root `/sap/opu/odata/sap/`, then the service, then `/`, then the entity, each at its stated position and length. |
| `ODataPaths.EntityPathInjective` | scripts/test-all-apis.js:58 | Two service/entity pairs give the same entity path only when they are equal, provided the service names contain no `/`. |
| `EntityRegistry.FindServiceForKnownEntity` | quick-test.js:16-31 | The lookup is exact-key. It returns the registered target exactly when the alias is a key of the registry, and nothing for every other string. |
| `EntityRegistry.AliasEquivalence` | quick-test.js:16-26 | `Customer` and `A_Customer` both resolve to `API_BUSINESS_PARTNER/A_Customer`. `BusinessPartner` and `A_BusinessPartner` both resolve to `API_BUSINESS_PARTNER/A_BusinessPartner`. `SalesAnalytics` resolves to the same target as `C_SALESANALYTICSQRY_1Results`. |
| `EntityRegistry.OnlySalesAnalyticsRequiresParams` | quick-test.js:21-26 | For a registered alias, `requiresParams \|\| false` holds exactly for the two sales-analytics aliases. Every other entry has no flag at all. |
| `EntityRegistry.RequiresParams` | quick-test.js:42 | `requiresParams \|\| false`: true exactly when the flag is present and true, so an absent flag reads as false. |
| `EntityRegistry.IsParameterBasedApi` | quick-test.js:48-59 | `hasOwnProperty` is true exactly for `C_SALESANALYTICSQRY_1_CDS`. It is false for every other name and for `undefined`. |
| `EntityRegistry.GetMandatoryFilters` | test-param-api-logic.js:17-20 | The parameter-based service has the mandatory filters `[P_ExchangeRateType, P_DisplayCurrency]` in that order. Every other service has none. |
| `EntityRegistry.ConfiguredTablesConsistent` | quick-test.js:21-26 | Every registry entry that requires parameters names a service that has a policy. The entry carries the policy's mandatory-filter list, identical and in the same order. Each policy is keyed by its own service name. |
| `EntityRegistry.UnknownEntityIsSafe` | quick-test.js:29-31 | An unregistered alias yields no target. The parameter check on its missing (`undefined`) service is false. |
| `EntityRegistry.LookupFlow` | quick-test.js:34-68 | The flow over the corrected own-key lookup `FindServiceForKnownEntity` (the lookup as written is the Findings row) reports the lookup's result. The printed `requiresParams \|\| false` is true exactly when an entry was found and its flag is true. The flow is parameter-based exactly when an entry was found whose service is the sales-analytics service, and `requiresParams` implies parameter-based. The URL pattern `function_import` is reported exactly when the flow is parameter-based. |
| `EntityRegistry.CustomerIsNotParameterBased` | quick-test.js:62-74 | The `Customer` alias resolves to its target, requires no parameters, is not parameter-based and has no URL pattern. |
| `EntityRegistry.FindServiceAsWritten` | quick-test.js:29-31 | The bracket lookup as JavaScript evaluates it. It finds a registered target exactly for the own keys. For unregistered names of `Object.prototype` members it finds an inherited member, and otherwise null. |
| `EntityRegistry.InheritedMemberIsFound` | quick-test.js:29-31 | `"toString"` is not registered, yet the lookup as written returns the inherited member. The own-key lookup returns nothing for it. |
| `EntityRegistry.AsWrittenAgreesOffPrototype` | quick-test.js:29-31 | For names that are not `Object.prototype` members, the lookup as written agrees with the own-key lookup. |
| `ParamApi.MissingFilters` | test-param-api-logic.js:32-39 | A mandatory name is reported missing exactly when no filter supplies that field. The missing names keep the mandatory list's order. |
| `ParamApi.ValidateMandatoryFilters` | test-param-api-logic.js:22-39 | A service that is not parameter-based is always valid with nothing missing. Otherwise the result is valid exactly when the missing list is empty, which happens exactly when every mandatory filter is supplied. The missing list holds exactly the unsupplied mandatory names, in policy order. |
| `ParamApi.ValidationScenarios` | test-param-api-logic.js:19-39 | Both parameters supplied give valid with `[]`. Only `P_ExchangeRateType` supplied gives invalid with `[P_DisplayCurrency]`. The mandatory list is `[P_ExchangeRateType, P_DisplayCurrency]`. |
| `ParamApi.FunctionImportPath` | test-param-api-logic.js:48-50 | A path exists exactly when the policy's URL pattern is `function_import`. It is the policy's entity path (root, service, `/`, policy entity), then `(`, then the rendered pairs, then `)/Results`, each at its stated position. |
| `ParamApi.RenderPair` | test-param-api-logic.js:49 | Specification of one `${field}='${value}'` pair. Its shape is stated by `RenderPairShape`, and its decoding by `DecodeListHead`. |
| `ParamApi.RenderPairShape` | test-param-api-logic.js:49 | A pair is the field, then `='`, then the value verbatim, then a closing quote, each at its stated position. The operator does not appear. |
| `ParamApi.ParamPairs` | test-param-api-logic.js:49 | Specification of the `,`-joined pairs. `DecodeParamPairs` states that it can be read back, and `OperatorIgnored` that only fields and values matter. |
| `ParamApi.FunctionUrlMatchesExpected` | test-param-api-logic.js:49-56 | For `P_ExchangeRateType='M'` and then `P_DisplayCurrency='USD'`, the path equals the expected literal URL. That URL uses the policy's entity `C_SALESANALYTICSQRY_1`. |
| `ParamApi.OperatorIgnored` | test-param-api-logic.js:49 | The rendered pairs depend only on the fields and values, in order. The operator plays no part. |
| `ParamApi.UnescapedQuoteCollides` | test-param-api-logic.js:49 | Values are inserted without quote escaping. So one filter whose value contains `',B='` renders exactly like two different filters. |
| `ParamApi.IndexOf` | test-param-api-logic.js:49 | The index found is the first occurrence of the character, or the character does not occur. |
| `ParamApi.DecodeListHead` | test-param-api-logic.js:49 | Decoding a rendered `field='value'` pair followed by a separator gives that pair and then the decoding of the rest. |
| `ParamApi.DecodeListRendered` | test-param-api-logic.js:49 | Decoding the comma-joined rendering of a non-empty filter list gives back the field/value pairs, when no field contains `=` and no value contains `'`. |
| `ParamApi.DecodeParamPairs` | test-param-api-logic.js:49 | The same round trip for every filter list, the empty one included. |
| `ParamApi.FunctionImportPathDeterminesParams` | test-param-api-logic.js:48-50 | Under these conditions, two filter lists that give the same function-import path supply the same field/value pairs in the same order. |
| `ParamApi.FirstWithField` | test-param-api-logic.js:49 | A filter is found for a name exactly when one is supplied. The one found carries that field and is the first such filter: no filter before it has that field. |
| `ParamApi.CanonicalOrder` | test-param-api-logic.js:49 | Reordering keeps only supplied filters on mandatory fields. When every mandatory field is supplied, the fields come out exactly in policy order. |
| `ParamApi.CanonicalOrderSkipsHead` | test-param-api-logic.js:49 | A leading filter on a field outside the mandatory list does not affect the canonical order. |
| `ParamApi.CanonicalOrderOfPolicyOrderInput` | test-param-api-logic.js:49 | Filters that already arrive in policy order, one per mandatory field, come out unchanged. |
| `ParamApi.RenderClause` | scripts/test-gl-entity-direct.js:46 | Specification of one `$filter` clause `Field op 'value'`. Its shape is stated by `RenderClauseShape`, and the conjunction by `FilterExpressionAppend`. |
| `ParamApi.RenderClauseShape` | scripts/test-gl-entity-direct.js:46 | A clause is the field, a space, the operator, ` '`, the value and a closing quote, each at its stated position. |
| `ParamApi.FilterExpression` | scripts/test-gl-entity-direct.js:46 | The expression is empty exactly when there are no filters. |
| `ParamApi.FilterExpressionAppend` | scripts/test-gl-entity-direct.js:46 | Appending a filter appends ` and ` and its clause. So the expression is the conjunction of the clauses in input order. |
| `ParamApi.GeneralLedgerFilter` | scripts/test-gl-entity-direct.js:46 | The four general-ledger clauses render as the literal conjunctive `$filter` `GLAccount eq '41000000' and FiscalYear eq '2026' and CompanyCode eq '1710' and Ledger eq '0L'`. |
| `ParamApi.BuildRequest` | test-param-api-logic.js:22-56 | For a standard target the result is its entity path, plus a `$filter` exactly when filters are given. For a parameter-based target it fails exactly when validation fails. The failure names the validator's missing list, which is non-empty. A successful parameter-based request has no `$filter`. Its path is the function-import path of the filters in policy order, whose fields are exactly the policy's mandatory list. |
| `ParamApi.BuildAgreesWithInputOrder` | test-param-api-logic.js:49-50 | When the filters arrive in policy order, the builder's path, with its pairs in policy order, equals the path the script builds from the input order. |
| `ParamApi.CustomerRequest` | scripts/test-all-apis.js:58 | The `Customer` alias with no filters gives `/sap/opu/odata/sap/API_BUSINESS_PARTNER/A_Customer` and no `$filter`. |
| `ParamApi.SalesAnalyticsWithoutFilters` | test-param-api-logic.js:32-39 | `SalesAnalytics` with no filters fails, naming both parameters in policy order. |
| `ParamApi.SalesAnalyticsWithFilters` | test-param-api-logic.js:48-56 | `SalesAnalytics` with the complete filters gives the expected function-import URL. |
| `MetadataExplorer.Lookup` | scripts/explore-api-metadata.js:58 | `sample[field]`: a value other than `undefined` is the value of a property with that name, and a name no property has yields `undefined`. |
| `MetadataExplorer.LookupFirst` | scripts/explore-api-metadata.js:58 | The first property with a given name supplies the value read for that name. |
| `MetadataExplorer.Member` | scripts/explore-api-metadata.js:49 | `v.key` for the envelope keys `value`, `d` and `results` throws exactly on null and undefined. On an object it reads the own property. On a string, number, boolean or array it gives `undefined`, since none of them has a property of those names. |
| `MetadataExplorer.OptionalMember` | scripts/explore-api-metadata.js:49 | `v?.key` for the same keys reads the property of an object, and gives `undefined` for every other value, null and undefined included. |
| `MetadataExplorer.Normalize` | scripts/explore-api-metadata.js:49 | It throws exactly when the body is null or undefined. Otherwise the result is always truthy. It is `data.value` when that is truthy, else `data.d.results` when that is truthy, else `[]`. |
| `MetadataExplorer.EnvelopeEquivalence` | scripts/explore-api-metadata.js:49 | The OData 4 `value` envelope and the OData 2 `d.results` envelope around the same record normalise alike. An unknown shape gives `[]` without an exception. |
| `MetadataExplorer.ValueTakesPrecedence` | scripts/explore-api-metadata.js:49 | A present `value` array wins over `d.results`, even when it is empty. A `null` `value` falls through to `d.results`. |
| `MetadataExplorer.Preview` | scripts/explore-api-metadata.js:60-62 | The preview is `'null'` for null and undefined. Otherwise it is the prefix of `String(value)` whose length is 30 or the whole length, whichever is smaller. |
| `MetadataExplorer.ShortStringPreview` | scripts/explore-api-metadata.js:60-62 | A string of at most 30 characters previews as itself. |
| `MetadataExplorer.ToJsString` | scripts/explore-api-metadata.js:61 | Specification of `String(value)` for JSON values: arrays join their elements with `,`, null and undefined elements print as nothing, and objects print as `[object Object]`. `Preview` is stated in terms of it. |
| `MetadataExplorer.TypeOf` | scripts/explore-api-metadata.js:59 | `typeof value` is `object` exactly for null, arrays and objects, and `undefined` exactly for undefined. |
| `MetadataExplorer.Names` | scripts/explore-api-metadata.js:53 | `Object.keys(sample)`: the property names, one per property, in order. |
| `MetadataExplorer.DescribeFields` | scripts/explore-api-metadata.js:57-64 | One line per field, in key order. Each line has the 1-based position, the name, and the `typeof` and preview of `sample[field]`. |
| `MetadataExplorer.SampleFields` | scripts/explore-api-metadata.js:67 | The sample shows a prefix of the field list, of length 5 or the whole length, whichever is smaller. |
| `MetadataExplorer.MappingTemplate` | scripts/explore-api-metadata.js:81-87 | The template covers the first 10 fields, or all of them when there are fewer, in order. Each entry maps the field to itself in `userFriendly`, `apiFieldName` and `description`. |
| `MetadataExplorer.ReportSample` | scripts/explore-api-metadata.js:49-94 | It throws exactly when the body is nullish or the first record is nullish. It reports "no records" exactly when the normalised list is not a non-empty array. Otherwise it describes the first normalised record: one listing line per property of that record, in order; the sample fields and the template of its property names; at most 5 sample fields and at most 10 template entries. |
| `MetadataExplorer.FirstRecord` | scripts/explore-api-metadata.js:49-52 | Specification of `records[0]`: the first element when the normalised record list is a non-empty array, and nothing otherwise. `ReportSample` is stated in terms of it. |
| `MetadataExplorer.SingleRecordIsFirstRecord` | scripts/explore-api-metadata.js:49-53 | A single object record in either envelope is the first record and supplies its properties. So, by the contract of `ReportSample`, the report lists every one of its fields. |
| `MetadataExplorer.EntityRequest` | scripts/explore-api-metadata.js:28-45 | The request is the entity path `/sap/opu/odata/sap/<service>/<entity>`, then `?`, then the query (`$metadata` or `$top=1`), each at its stated position. |
| `MetadataExplorer.EntityRequestInjective` | scripts/explore-api-metadata.js:28-45 | Two requests are equal only for the same service, entity and query, when service names contain no `/` and entity names no `?`. |
| `MetadataExplorer.RequestsShareEntityPath` | scripts/explore-api-metadata.js:28-45 | The metadata and the sample request address the same entity path and are different requests. |
| `MetadataExplorer.CheckArguments` | scripts/explore-api-metadata.js:110-118 | The usage message with exit code 1 is shown exactly when the service or the entity argument is missing or empty. Otherwise exploration starts on exactly those two arguments. |
| `ApiAccess.StatusOf` | scripts/test-all-apis.js:51 | `error.response?.status \|\| 'ERROR'`: the status is numeric exactly when a response exists and its status is non-zero, and it is then that response's status. |
| `ApiAccess.GatewayName` | scripts/test-all-apis.js:80-83 | A name is derived exactly when `service_id` is truthy. It is `Z`, then the service id, then `_`, then the version, or `0001` when the version is falsy. |
| `ApiAccess.AccessNeeded` | scripts/test-all-apis.js:85-98 | Something is needed exactly for status 403 or 404. There are three entries for 403 with `/IWFND/CM_CONSUMER/101`, two for 403 with any other code, and two for 404. |
| `ApiAccess.AccessNeededTable` | scripts/test-all-apis.js:86-97 | The exact entries of each row: `Gateway Service Authorization`, `Service: <gateway name or service>`, `Authorization Object: /IWFND/CM_CONSUMER`; `SAP Authorization`, `Error: <code>`; `Service Activation in Gateway`, `Check transaction /IWFND/MAINT_SERVICE`. |
| `ApiAccess.TestApi` | scripts/test-all-apis.js:26-105 | The record filled in step by step equals the specification `TestResultOf` of the two request outcomes. |
| `ApiAccess.RecordMetadata` | scripts/test-all-apis.js:40-54 | From the initial record, the metadata step gives the specification's record: the status, or `'ERROR'`, and the message and code of a failure. |
| `ApiAccess.RecordEntity` | scripts/test-all-apis.js:56-102 | The entity step gives the specification's record. Success sets the status and `accessible`. Failure sets the status, the SAP code and message, the gateway name and the needed access, or, without an SAP payload, only the message. |
| `ApiAccess.RecordAccessNeeded` | scripts/test-all-apis.js:85-98 | The pushes append exactly the decision table's row for the recorded status and code, and change nothing else. |
| `ApiAccess.AfterMetadata` | scripts/test-all-apis.js:28-54 | Specification of the record after the metadata request: the initial record with the metadata status, or with `'ERROR'`, the SAP message or the exception message, and the SAP code. `RecordMetadata` is proved equal to it. |
| `ApiAccess.AfterEntity` | scripts/test-all-apis.js:56-102 | Specification of the entity step. `RecordEntity` is proved equal to it, and `AccessibleIffEntityFetched` and `GatewayNameSource` state its properties. |
| `ApiAccess.TestResultOf` | scripts/test-all-apis.js:26-105 | Specification of `testAPI`: the entity step applied after the metadata step. `TestApi` is proved equal to it. |
| `ApiAccess.AccessibleIffEntityFetched` | scripts/test-all-apis.js:36-37 | `accessible` holds exactly when the entity request succeeded, and then nothing is needed. An error without an SAP payload needs nothing. An error with one needs the decision table's row. Anything needed implies status 403 or 404. |
| `ApiAccess.GatewayNameSource` | scripts/test-all-apis.js:74-83 | The gateway name is set only from an entity error whose SAP payload has `innererror.application`. It is then the derived name. |
| `ApiAccess.RunAllTests` | scripts/test-all-apis.js:115-120 | There is one result per configured pair, in order. Each is the specification record of that pair's outcomes. |
| `ApiAccess.CountAccessible` | scripts/test-all-apis.js:158 | Specification of `results.filter(r => r.accessible).length`. It is related to the other counts by `SummaryCounts`. |
| `ApiAccess.CountNotAccessible` | scripts/test-all-apis.js:159 | Specification of the count of inaccessible results, related by `SummaryCounts`. |
| `ApiAccess.CountMetadataOnly` | scripts/test-all-apis.js:160 | Specification of the count of results with metadata status 200 that are not accessible, related by `SummaryCounts`. |
| `ApiAccess.NeedsAccess` | scripts/test-all-apis.js:175 | Specification of the `needsAccess` filter. `NeedsAccessMembers` gives its exact members. |
| `ApiAccess.SummaryCounts` | scripts/test-all-apis.js:158-175 | Accessible plus not accessible equals the total. Metadata-only is at most not accessible. The needs-access list is at most not accessible. |
| `ApiAccess.NeedsAccessMembers` | scripts/test-all-apis.js:175 | The needs-access list holds exactly the inaccessible results with a non-empty `accessNeeded`. |
| `ApiAccess.NeedsAccessOfProducedResults` | scripts/test-all-apis.js:26-105 | For results the check produced, the needs-access list holds exactly those with a non-empty `accessNeeded`. For them, inaccessibility is implied. |
| `ApiAccess.ServiceMetadataPath` | scripts/test-all-apis.js:42 | The metadata request is the OData root, then the service, then `/$metadata`. |
| `SlideParser.LeadingSpaceSpec` | scripts/convert-to-ppt.py:22 | `strip()` removes leading whitespace: every leading character counted is whitespace, and the next one is not. |
| `SlideParser.TrailingSpaceSpec` | scripts/convert-to-ppt.py:22 | The same for trailing whitespace. |
| `SlideParser.Strip` | scripts/convert-to-ppt.py:22 | Specification of `str.strip()`: the line without its leading and trailing whitespace. The lemmas below state its properties. |
| `SlideParser.StripIsSlice` | scripts/convert-to-ppt.py:22 | The stripped line is a contiguous slice of the line. |
| `SlideParser.StripDropsOnlySpace` | scripts/convert-to-ppt.py:22 | Only whitespace lies outside that slice. |
| `SlideParser.StripEnds` | scripts/convert-to-ppt.py:22 | A non-empty stripped line begins and ends with a character that is not whitespace. |
| `SlideParser.StripIdempotent` | scripts/convert-to-ppt.py:22 | Stripping twice is stripping once. |
| `SlideParser.FirstCharRulesOut` | scripts/convert-to-ppt.py:25-42 | A line whose first character differs from that of a prefix does not start with it. |
| `SlideParser.RemoveDoubleStars` | scripts/convert-to-ppt.py:46 | Specification of `replace('**', '')`, removing occurrences left to right without overlap. The lemmas below state its properties. |
| `SlideParser.RemoveDoubleStarsKeepsHead` | scripts/convert-to-ppt.py:46 | `replace('**', '')` keeps a first character that is not `*`. |
| `SlideParser.RemoveDoubleStarsLeavesNone` | scripts/convert-to-ppt.py:46 | No `**` remains after the replacement. |
| `SlideParser.RemoveDoubleStarsKeepsOthers` | scripts/convert-to-ppt.py:46 | Every character other than `*` occurs as often as before. |
| `SlideParser.RemoveDoubleStarsKeepsOrder` | scripts/convert-to-ppt.py:46 | Only stars are removed, and the characters other than `*` keep their order. |
| `SlideParser.RemoveDoubleStarsWithoutMarkers` | scripts/convert-to-ppt.py:45-46 | A text without `**` is unchanged. |
| `SlideParser.InnerOfDelimited` | scripts/convert-to-ppt.py:40 | `line[2:-2]` has four characters fewer than the line, or none for a line shorter than four. A line of at least four characters is its first two characters, then the result, then its last two. |
| `SlideParser.AfterFirstColonSpec` | scripts/convert-to-ppt.py:30-31 | `split(':', 1)[1]` is the text after the first `:`. |
| `SlideParser.SplitLines` | scripts/convert-to-ppt.py:19 | `split('\n')` always yields at least one line. |
| `SlideParser.SplitLinesHaveNoNewline` | scripts/convert-to-ppt.py:19 | No line contains a newline. |
| `SlideParser.SplitJoin` | scripts/convert-to-ppt.py:19 | Joining the lines with newlines gives back the content. |
| `SlideParser.Classify` | scripts/convert-to-ppt.py:24-54 | A line opens a new slide exactly when it starts with `## Slide`. It sets the title only before the first slide is appended and only for `# ` lines. A text item is the whole line, which is non-empty, does not start with `---` and is not an excluded literal. The rules for the other branches are the lemmas below, `MarkLineIsBullet` and `TextLineRule` among them. |
| `SlideParser.CloseSlide` | scripts/convert-to-ppt.py:26-27 | The current block is appended exactly when its title is non-empty, and is otherwise dropped with its content. |
| `SlideParser.Apply` | scripts/convert-to-ppt.py:25-54 | Specification of one branch's effect: a new slide closes the current block, a title is set, or an item is appended to the current block. `ProcessLine` is proved equal to it. |
| `SlideParser.Run` | scripts/convert-to-ppt.py:19-56 | Specification of the loop: the per-line step folded over the lines in order. `ParseMarkdownPresentation`'s loop invariant is stated in terms of it. |
| `SlideParser.Parse` | scripts/convert-to-ppt.py:11-62 | Specification of the function on the file's text: split into lines, run the loop, then append the last block if it is titled. `ParseShape` and `SlidesGrowInOrder` state its properties. |
| `SlideParser.ParseMarkdownPresentation` | scripts/convert-to-ppt.py:11-62 | The `while` loop over the lines returns exactly the specification `Parse` of the content, the fold of the per-line rule followed by the final append. |
| `SlideParser.ProcessLine` | scripts/convert-to-ppt.py:22-54 | One pass of the `elif` chain changes the slides and the current block exactly as the per-line rule does for the stripped line. |
| `SlideParser.RunInvariant` | scripts/convert-to-ppt.py:19-56 | After any prefix of the lines, every appended slide has a non-empty title. There are no more of them than `## Slide` lines. |
| `SlideParser.ApplyKeepsTitledSlides` | scripts/convert-to-ppt.py:25-28 | One step keeps every appended slide titled and appends at most one slide, and only on a `## Slide` line. |
| `SlideParser.ParseShape` | scripts/convert-to-ppt.py:58-62 | Every returned slide has a non-empty title. There are at most as many slides as `## Slide` lines plus one. |
| `SlideParser.CloseSlideKeepsTitles` | scripts/convert-to-ppt.py:58-60 | The final append keeps every slide titled. |
| `SlideParser.RunTextWellFormed` | scripts/convert-to-ppt.py:52-54 | Every text item of every slide is a non-empty line that does not start with `---` and is not an excluded literal. |
| `SlideParser.ApplyKeepsTextWellFormed` | scripts/convert-to-ppt.py:52-54 | One step preserves that property of the text items. |
| `SlideParser.SlidesGrowInOrder` | scripts/convert-to-ppt.py:19-62 | The slides appended after a prefix of the lines are a prefix of the slides appended after all of them. So slide order follows line order. |
| `SlideParser.SlideHeaderLine` | scripts/convert-to-ppt.py:25-31 | A `## Slide` line closes the current block. It opens an empty block titled with the stripped text after the first `:`, or untitled when the line has no `:`. |
| `SlideParser.SectionHeaderLine` | scripts/convert-to-ppt.py:36-37 | A `### ` line, at any point, becomes a header item with the stripped rest of the line. |
| `SlideParser.BlankAndRuleLinesIgnored` | scripts/convert-to-ppt.py:52 | An empty line, or a `---` line without a check or cross mark, produces nothing. |
| `SlideParser.PlainStartSkipsMarkup` | scripts/convert-to-ppt.py:25-52 | A non-empty line that starts with none of `#`, `*` and `-` matches none of the markup branches. |
| `SlideParser.MarkLineIsBullet` | scripts/convert-to-ppt.py:48-50 | A line holding a check or cross mark that none of the slide, title, section, bold and `- ` branches takes becomes a bullet of the stripped line, whatever it opens with. |
| `SlideParser.CheckMarkLineIsBullet` | scripts/convert-to-ppt.py:49-50 | A line that opens with none of `#`, `*` and `-` and holds a check or cross mark becomes a bullet of the stripped line. |
| `SlideParser.RuleLineWithMarkIsBullet` | scripts/convert-to-ppt.py:48-52 | A `---` line holding a mark becomes a bullet, not an ignored rule, because the mark branch comes before the rule test. |
| `SlideParser.PlainLineIsText` | scripts/convert-to-ppt.py:52-54 | Such a line without marks becomes a text item of the whole line, unless it is an excluded literal, which produces nothing. |
| `SlideParser.TextLineRule` | scripts/convert-to-ppt.py:25-54 | A line becomes a text item of itself exactly when no earlier branch applies, it holds no mark, it is non-empty, does not start with `---` and is not excluded. |
| `SlideParser.MainTitleBeforeFirstSlide` | scripts/convert-to-ppt.py:33-34 | Before the first slide is appended, a `# ` line sets the current title to the stripped rest of the line. |
| `SlideParser.BulletHasNoMarkers` | scripts/convert-to-ppt.py:42-47 | A `- ` line becomes a bullet of its stripped rest, and that bullet contains no `**`. |
| `SlideParser.MainTitleLineAfterFirstSlide` | scripts/convert-to-ppt.py:33 | Once a slide has been appended, a `# ` line neither opens a slide nor sets a title. |
| `SlideParser.MainTitleOnlyBeforeFirstSlide` | scripts/convert-to-ppt.py:33-34 | Once a slide has been appended, a `# ` line leaves the slides and the current title unchanged. |
| `SlideParser.DelimitedLineIsBold` | scripts/convert-to-ppt.py:39-40 | A line that starts and ends with `**` becomes a bold item of its stripped inner text. |
| `SlideParser.ClosingLineShape` | scripts/convert-to-ppt.py:53 | The closing literal is delimited by `**`, has no surrounding whitespace, and its inner text is the closing sentence. |
| `SlideParser.ClosingLineIsBold` | scripts/convert-to-ppt.py:39-53 | The closing literal is in the exclusion list. Yet it becomes a bold item, because the bold rule is checked first in the branch order. |
| `TestTally.Record` | test-app.js:45-73 | Each counter grows by 0 or 1. `passed + failed` grows by at most 1. `warnings` grows exactly for a warned test. |
| `TestTally.CountedOnce` | test-app.js:45-73 | No outcome counts as both passed and failed. Every outcome except an unrecognised return, or an object whose `passed` is undefined, is counted exactly once. |
| `TestTally.Verdict` | test-app.js:45-73 | The runner returns true exactly for a passing outcome and false exactly for a failing one. |
| `TestTally.RecordAllCounts` | test-app.js:45-73 | After any sequence of tests, `passed` and `failed` have grown by the number of passing and failing tests, and `warnings` has not decreased. |
| `TestTally.NoFailureCounted` | test-app.js:45-73 | No failure is counted exactly when no test fails. |
| `TestTally.ExitCodeOf` | test-app.js:400-406 | The exit code is 0 or 1, and 0 exactly when nothing failed. |
| `TestTally.ExitCodeZeroIffNoFailure` | test-app.js:400-406 | From zero counters, the exit code is 0 exactly when no test in the sequence fails. |
| `TestTally.TestResults.constructor` | test-app.js:39-43 | The counters start at zero. |
| `TestTally.TestResults.RunTest` | test-app.js:45-73 | The counters change exactly as `Record` says for the test's outcome, and the returned verdict is `Verdict` of it. |
| `TestTally.TestResults.RunAllTests` | test-app.js:371-406 | After running the tests in order the counters are the fold of `Record` over the outcomes. The exit code is derived from the final `failed` counter. |

## Left out

- HTTP traffic is not modelled. The outcome of each request is a parameter of the model. This covers the axios and
  https clients, basic authentication, the `sap-client` parameter, timeouts, the destination lookup and the pacing
  delay.
- The base URL in front of the path is left out of `ApiAccess.ServiceMetadataPath` and of the entity path. It is a
  configuration constant, not logic.
- `src/clients/sap-client.ts` and `src/constants.ts` are not part of this model. They define `validateMandatoryFilters`
  and `getMandatoryFilters`:
  - `ParamApi.ValidateMandatoryFilters` is modelled from the expectations printed by `test-param-api-logic.js`: policy
    order, exact field-name equality, and any operator.
  - `ParamApi.BuildRequest` is a model of how the engine combines the validator with the two path styles, built from
    the script's path construction. It is not a port of unseen code.
- `ParamApi.CanonicalOrder` is proved to agree with the input-order pairs of the script only when the filters already
  arrive in policy order. No claim is made that the order of the input does not matter.
- JavaScript numbers are modelled as integers. Floating point values, `NaN` and a number's `String` form with a
  fraction or an exponent are not modelled.
- The success-rate percentage in `test-app.js` is left out, because it is floating point with `toFixed`.
- `MetadataExplorer.Preview`: lengths and `substring` count code points here, while JavaScript counts UTF-16 code
  units. Strings outside the Basic Multilingual Plane get a different cut.
- `MetadataExplorer.Member` and `MetadataExplorer.OptionalMember` model only the envelope keys `value`, `d` and `results`,
  the only keys the scripts read this way. Built-in properties such as `length` of a string or an array, and
  properties inherited from `Object.prototype` such as `toString`, are not modelled: for any key the model gives
  `undefined` on a non-object and reads only own properties of an object.
- `ApiAccess.RecordEntity`: the SAP error code is either present or absent. A JSON `"code": null` is modelled as
  absent, so the `Error: ${code}` entry reads `Error: undefined` where scripts/test-all-apis.js:93 prints `Error: null`.
- `MetadataExplorer.Lookup`: duplicate keys in a parsed body are looked up by their first occurrence. `JSON.parse` keeps
  the last one. `MetadataExplorer.Names` lists a duplicated key twice, where `Object.keys` lists it once. Parsed bodies
  with duplicate keys are therefore outside the model's agreement with JavaScript.
- `ApiAccess.RunAllTests` takes the configured service and entity pairs (scripts/test-all-apis.js:9-24) as a parameter.
  The fourteen literal pairs are not restated as a constant, and no property of that particular list is proved.
- `Object.keys` puts integer-like keys first. The model keeps insertion order.
- `MetadataExplorer.ReportSample`:
  - a record list that is not an array counts as having no records in the model. In JavaScript such a list could have
    a `length` property;
  - a first record that is not an object is listed as having no fields. A string record would list its character
    indices.
- Property getters that throw are not modelled: reading a property of a parsed JSON value cannot run code.
- `TestTally.TestResults.RunTest` models only the truthiness of `result.passed`. It returns that truthiness, where the
  source returns the raw value, and it leaves out the `logTest` and `log` output.
- Console output and the table formatting of the access check are left out: `padEnd`, the `substring` truncation for
  display, and the summary printout. The counts themselves are modelled.
- `create_presentation` in the slide converter is left out. It is python-pptx library calls.
- File reading is left out: the parser takes the file content as a string. Python's universal-newline translation of
  `\r\n` at reading time is not modelled; `split('\n')` is applied to the content as given.
- The filesystem and JSON checks of the individual smoke tests are left out. Each test is represented only by its
  outcome.
- The remaining request scripts are request and print plumbing, so they are not modelled. This covers the access
  scripts, the delivery, material-document and general-ledger scripts, and `test-parameter-api.js`. Their only logic
  repeats the envelope normaliser and the path rules modelled here. The literal general-ledger `$filter` they show is
  covered by `ParamApi.GeneralLedgerFilter`.
- The regex extraction of XML error messages and the `.env` regex check are left out: they rely on a regular-expression
  engine.

## Findings

| source | as written | input that shows it | evidently intended | confidence | as-written member | corrected member |
|---|---|---|---|---|---|---|
| quick-test.js:29-31 | `KNOWN_ENTITIES[entityName] \|\| null` reads the property through the prototype chain. Names of `Object.prototype` members yield an inherited, truthy member (a function, or `Object.prototype` itself for `__proto__`) for an alias that is not registered. | `"toString"` (also `"constructor"`, `"valueOf"`, `"__proto__"`) | only the registry's own keys match, as `hasOwnProperty` does for the policy table; every other name yields null | not executed | `EntityRegistry.FindServiceAsWritten` (shown by `EntityRegistry.InheritedMemberIsFound`) | `EntityRegistry.FindServiceForKnownEntity` |

The `**Thank you for your consideration!**` entry of the exclusion list at scripts/convert-to-ppt.py:53 is never
reached, because the bold rule at :39 matches that line first (`SlideParser.ClosingLineIsBold`). The line becomes a
bold item. This is not listed as a finding: nothing in the source says whether the closing line should appear.
