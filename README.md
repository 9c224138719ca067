# Swagger 2.0 operation normaliser

A Dafny model of the part of `swagger-vue-doc-generator` that turns the `paths`
of a Swagger 2.0 document into the flat operation records the documentation
and client templates are rendered from. There are three parsers:

- **`ParametersParser`** classifies one operation's parameter list. It drops
  the parameters excluded from bindings (`x-exclude-from-bindings: true`, or
  any `x-proxy-header`). It then decorates each remaining parameter: the
  `$ref` name, the singleton or enum record, the `is<In>Parameter` flag, the
  name pattern, the cardinality and the camel-cased name. Each one is filed
  in the flat list and in its location bucket (`paths`, `querys`, `headers`,
  `formDatas`, `bodys`). When it declares an `enum` that is not a singleton,
  an enum record is added as well.
- **`SecuritySchemesParser`** keeps two tables, `headers` and `parameters`.
  For each named Security Scheme Object they hold the records `_parseParameters`
  files under the scheme's key. It answers an operation's security requirement
  by gathering the records filed under each key of that requirement.
- **`MethodsParser`** walks every path and every key of its path item in
  order. For each one it builds an operation record:
  - the upper-cased verb and the nine `is<VERB>` flags;
  - a method name taken from `operationId`, or else derived from the verb
    and the path;
  - the copied Operation Object properties;
  - the classified parameter lists;
  - the security headers and parameters merged in;
  - the parser-wide settings.

  The record is appended to `parseMethods` and filed under each of its tags
  in `methodsGroup`.

Files and modules:

| file | module | what |
|---|---|---|
| `js.dfy` | `Js` | JSON-shaped values, JavaScript truthiness, `_.each` key orders, the exceptions, generic sequence facts |
| `text.dfy` | `Text` | ASCII case mapping, `_.upperFirst`, `split`/`join`/`substring`/`replace` on strings |
| `parameters.dfy` | `Parameters` | the classifier: the record functions, `ClassifyFrom` and its filter definition `Expected`; class `ParametersParser` |
| `security_schemes.dfy` | `SecuritySchemes` | the scheme tables (`FileAll`, `Matching`) and the requirement lookup (`Requested`); class `SecuritySchemesParser` |
| `method_names.dfy` | `MethodNames` | `_normalizeMethodName` and `_getPathToMethodName` |
| `methods.dfy` | `Methods` | the operation record `BuildOperation`, the tag groups, the run `Run`; class `MethodsParser` |

Each class keeps the source's fields. Its methods have loops over those
fields, and are proved against a pure function of the old state:
- `ParametersParser.Parse` against `ClassifyFrom`;
- `SecuritySchemesParser.ParseParameters` against `FileAll`;
- `GetHeadersOrParams` against `Requested`;
- `MethodsParser.Parse` against `Run`.

Each of those functions is in turn tied by lemmas to an independent
definition of the result:
- the classifier to filters over the input (`Expected`);
- the tables to the per-key `Matching`;
- the groups to `TaggedWith`.

Modelling choices:
- lodash `_.camelCase` is not modelled. It is a parameter `camelCase: string -> string`,
  and facts that need a particular value of it take that value as a precondition.
- Objects are modelled as insertion-ordered lists of key/value pairs, because
  `_.each` visits them in that order. The security tables are maps, since only
  lookups read them.
- Exceptions the source throws are `Failure` values of `Js.Error`:
  - `UnknownLocation`: pushing into the missing bucket `_self[in + 's']`;
  - `ResponseParserWithoutParse`: `new ResponseParser(...)` throws, because that
    class has no `parse` method and the `ParserInterface` constructor requires one;
  - `EmptyMethodName`: `result[0].toUpperCase()` on an empty camel-case result.
- The flat operation record is grouped into `Details`, `VerbFlags` and `Lists`.
  The property names and values are the source's.

Where the documented behaviour and the code disagree, the model follows the code:
- The singleton test in `_parseEnum` reads the parameter's own `length`
  property, not the enum's. So every parameter with an `enum` array,
  including a one-value array, gets an enum record unless the parameter
  object itself has `length === 1`.
- A kept parameter whose truthy `in` names no bucket makes `parse` throw. It
  is not silently kept in the flat list only.
- `new SecuritySchemesParser(schemes)` and its `parse()` never call
  `_parseParameters`, so the tables stay empty until that method is called.
  The scheme tests expect filled tables after `parse()`. `ApiKeyExample`
  states those expectations about `_parseParameters`.
- A Swagger 2.0 `security` value is an array of requirement objects.
  `_.each` visits its indices `"0"`, `"1"`, …, so such a value finds only
  schemes named by a decimal string (`ArrayRequirementFindsNothing`).
- `addEnumDescription` is `options.addEnumDescription || true`, which is always true.

## Model

| member | source | states |
|---|---|---|
| `Js.DecimalString` | src/2.0/SecuritySchemesParser.js:102 | an array index key is the decimal numeral of the index: its digits have the value of the index, it has no leading zero, and it is one digit long exactly below 10 |
| `Js.DecimalStringInjective` | src/2.0/SecuritySchemesParser.js:102 | distinct indices have distinct keys |
| `Js.IndexKeys` | src/2.0/SecuritySchemesParser.js:102 | `_.each` over an array of length n visits the keys "0" … "n-1" in order |
| `Js.Keys` | src/2.0/SecuritySchemesParser.js:102 | `_.each` over an object visits its own keys in insertion order |
| `Text.Upper` | src/2.0/MethodsParser.js:50 | upper-casing keeps the length and maps each character through the ASCII upper-case |
| `Text.Lower` | src/2.0/MethodsParser.js:161 | lower-casing keeps the length and maps each character through the ASCII lower-case |
| `Text.UpperFirst` | src/2.0/ParametersParser.js:95 | only the first character is upper-cased, the rest is kept |
| `Text.Split` | src/2.0/MethodsParser.js:153 | a one-character split gives at least one piece, and no piece holds the separator |
| `Text.JoinSplit` | src/2.0/MethodsParser.js:153 | joining the pieces of a split with the same separator gives the string back |
| `Text.ReplaceChars` | src/2.0/MethodsParser.js:133 | a global character-class replace keeps the length, replaces every matched character and keeps all others |
| `Text.SplitJoinReplaces` | src/2.0/MethodsParser.js:133 | `split(c).join(d)` replaces each occurrence of `c` by `d` |
| `Text.LastSegmentIsSuffix` | src/2.0/ParametersParser.js:77-78 | the last piece of a split is the suffix after the last separator, or the whole string when there is none, and holds no separator |
| `Text.LastSegmentAfterSep` | src/2.0/ParametersParser.js:77-78 | whatever precedes a separator, a separator-free tail after it is the last piece, and there are at least two pieces |
| `Text.Substring` | src/2.0/MethodsParser.js:156 | for bounds inside the string `substring` is the slice between them, in either order, and never longer than the string |
| `Text.SubstringSwapClamp` | src/2.0/MethodsParser.js:156 | swapped bounds give the same piece, a negative bound acts as 0, and a bound past the end acts as the length |
| `Parameters.LocationOf` | src/2.0/ParametersParser.js:151-153 | a bucket is found only for an `in` equal to that location's value |
| `Parameters.LocationOfBucketName` | src/2.0/ParametersParser.js:152 | `in + 's'` names one of the five buckets exactly when `in` is that bucket's location value |
| `Parameters.LoadReference` | src/2.0/ParametersParser.js:75-80 | a `ref` is set exactly for a string `$ref`; it is the suffix after the last `/`, holds no `/`, and is preceded by `/` unless it is the whole string |
| `Parameters.IsExcluded` | src/2.0/ParametersParser.js:65-68 | any `x-proxy-header`, whatever its value, excludes a parameter; without one, only `x-exclude-from-bindings` strictly equal to `true` does. `KeptCount`, `KeptSkip` and `ExcludedAppearNowhere` state what exclusion does to `parse` |
| `Parameters.IsSingletonParam` | src/2.0/ParametersParser.js:89-90 | the singleton test; `SingletonIgnoresEnum`, `RecordFacts` and `EnumsOfQualifying` characterise it |
| `Parameters.SingletonIgnoresEnum` | src/2.0/ParametersParser.js:90 | whatever the `enum` holds, and however many values, does not change the singleton test, which reads the parameter's own `length` |
| `Parameters.EnumRecordOf` | src/2.0/ParametersParser.js:88-107 | an enum record is made exactly for a parameter with an `enum` that is not a singleton. Its name is the upper-first camel-cased name plus " Enum", it has the camel-cased name and the enum values, and the description when `addEnumDescription` holds and none otherwise |
| `Parameters.TypeFlag` | src/2.0/ParametersParser.js:116-118 | the `is<In>Parameter` flag is set exactly when `in` is truthy |
| `Parameters.FlagName` | src/2.0/ParametersParser.js:117 | the key `'is' + _.upperFirst(in) + 'Parameter'`; `FlagNameOfLocation`, `FlagNameQuery` and `FlagNameMiddle` characterise it |
| `Parameters.HasPattern` | src/2.0/ParametersParser.js:120-125 | the pattern test; `PatternOnlyOnQuery` states it holds exactly for a query parameter with a truthy `x-name-pattern` |
| `Parameters.RecordOf` | src/2.0/ParametersParser.js:145-149 | the record of a kept parameter carries the parameter itself |
| `Parameters.RecordFacts` | src/2.0/ParametersParser.js:75-128 | the record has the loaded `ref`. Cardinality is "" iff `required` is truthy and "?" iff not. `camelCaseName` is the camel-cased name. The singleton flag and value are `_parseEnum`'s, the pattern flag and value `_parseParameterType`'s, and the location flag `TypeFlag`'s |
| `Parameters.Push` | src/2.0/ParametersParser.js:151-153 | a push appends to the named bucket only; every other bucket, the flat list and the enums are unchanged |
| `Parameters.KeptSnoc` | src/2.0/ParametersParser.js:141-143 | appending a parameter extends the kept list, the kept list of each location and the excluded count by that parameter's share |
| `Parameters.RecordsAppend` | src/2.0/ParametersParser.js:137-156 | the records of two lists are the records of each, appended |
| `Parameters.Step` | src/2.0/ParametersParser.js:138-155 | one iteration of `parse`; `StepAt`, `StepNoLocation` and `ClassifyNext` characterise it |
| `Parameters.ClassifyFrom` | src/2.0/ParametersParser.js:135-161 | `parse` as a fold; `ClassifyMatchesFilters`, `ClassifySucceeds`, `ClassifyFails` and `ClassifyFirstBad` tie it to the filter definition `Expected` |
| `Parameters.ClassifySucceeds` | src/2.0/ParametersParser.js:135-161 | when no kept parameter has an unknown truthy `in`, `parse` succeeds and appends the filtered collections of `Expected` to each list |
| `Parameters.ClassifyFails` | src/2.0/ParametersParser.js:151-153 | when some kept parameter has an unknown truthy `in`, `parse` throws |
| `Parameters.ClassifyMatchesFilters` | src/2.0/ParametersParser.js:135-161 | `parse` succeeds if and only if no kept parameter has an unknown truthy `in`, and then its collections are the filters of `Expected` |
| `Parameters.ClassifyFirstBad` | src/2.0/ParametersParser.js:151-153 | the exception names the `in` of the first kept parameter with an unknown location |
| `Parameters.ClassifyPrefixFails` | src/2.0/ParametersParser.js:137-156 | once a parameter throws, the rest of the list does not change the outcome |
| `Parameters.KeptCount` | src/2.0/ParametersParser.js:141-155 | the flat list has one entry per input parameter minus the excluded ones |
| `Parameters.ExcludedChangeNothing` | src/2.0/ParametersParser.js:65-68 | removing the excluded parameters first changes no collection |
| `Parameters.KeptKept` | src/2.0/ParametersParser.js:141-143 | exclusion is idempotent |
| `Parameters.KeptAtKept` | src/2.0/ParametersParser.js:141-153 | a location bucket is the same whether or not the excluded parameters are removed first |
| `Parameters.ExcludedAppearNowhere` | src/2.0/ParametersParser.js:141-143 | an excluded parameter, wherever it stands, contributes to no collection |
| `Parameters.KeptSkip` | src/2.0/ParametersParser.js:141-143 | an excluded parameter anywhere in the list is absent from the kept list |
| `Parameters.BucketIsSublist` | src/2.0/ParametersParser.js:151-155 | each location bucket is exactly the sub-list of the flat list whose `in` is that location, in the same order |
| `Parameters.EnumsOfQualifying` | src/2.0/ParametersParser.js:88-107 | the enum list has one record per parameter with a non-singleton `enum`, in input order, each that parameter's enum record |
| `Parameters.FlagNameQuery` | src/2.0/ParametersParser.js:117 | only `in` "query" (or "Query") produces the `isQueryParameter` key |
| `Parameters.PatternOnlyOnQuery` | src/2.0/ParametersParser.js:120-125 | a kept parameter is pattern-marked only when `in` is "query", and every "query" parameter with a truthy `x-name-pattern` is |
| `Parameters.FlagNameOfLocation` | src/2.0/ParametersParser.js:117 | the five `in` values give `isPathParameter`, `isQueryParameter`, `isHeaderParameter`, `isFormDataParameter`, `isBodyParameter` |
| `Parameters.ClassifyNext` | src/2.0/ParametersParser.js:137-156 | one more parameter is one more step of `parse` |
| `Parameters.StepAt` | src/2.0/ParametersParser.js:145-155 | a kept parameter at a known location is pushed into its bucket and the flat list, after its enum record |
| `Parameters.StepNoLocation` | src/2.0/ParametersParser.js:151-155 | a kept parameter without a truthy `in` goes to the flat list only |
| `Parameters.QueryClassifiedAlone` | src/2.0/ParametersParser.js:145-155 | a kept `query` parameter classified on its own gives exactly one flat entry, one `querys` entry marked `isQueryParameter`, and its enum records |
| `Parameters.ParametersParser.constructor` | src/2.0/ParametersParser.js:29-44 | all collections start empty, the input list is kept, and `addEnumDescription` is true |
| `Parameters.ParametersParser.ParseEnum` | src/2.0/ParametersParser.js:88-107 | marks the singleton exactly as `IsSingletonParam` says, with `enum[0]`, and otherwise appends the enum record |
| `Parameters.ParametersParser.PushTo` | src/2.0/ParametersParser.js:151-153 | `_self[in + 's'].push` changes the collections exactly as `Push` |
| `Parameters.ParametersParser.ParseParameter` | src/2.0/ParametersParser.js:137-156 | one loop body leaves the collections as `Step` says; it reports failure exactly when `Step` throws `UnknownLocation` |
| `Parameters.ParametersParser.Parse` | src/2.0/ParametersParser.js:135-161 | `parse` succeeds exactly when `ClassifyFrom` does, leaves the collections `ClassifyFrom` computes and returns the flat list, or reports the same exception |
| `Parameters.UserReference` | tests/tests/ParametersTest.js:60-61 | `#/definitions/User` loads as `User` |
| `Parameters.QueryTestExample` | tests/tests/ParametersTest.js:40-55 | the query parameter is filed once in `querys` and once in the flat list, marked `isQueryParameter`, with its camel-cased name |
| `Parameters.EnumTestRecord` | tests/tests/ParametersTest.js:57-77 | the enum test's parameter has the reference `User` and the enum record `AccessToken Enum` with values 1, 2, 3 |
| `Parameters.EnumTestExample` | tests/tests/ParametersTest.js:57-77 | classifying it gives one flat entry and one `querys` entry with `ref` `User`, and one enum record `AccessToken Enum` with the three values |
| `Parameters.SkippedTestExample` | tests/tests/ParametersTest.js:79-89 | with `x-exclude-from-bindings: true` or an `x-proxy-header`, nothing is filed |
| `SecuritySchemes.SchemeRecord` | src/2.0/SecuritySchemesParser.js:41-53 | the record's title and description agree. It carries the scheme key, the scheme's `name`, the camel-cased name and the `is<In>Parameter` flag |
| `SecuritySchemes.TitleShape` | src/2.0/SecuritySchemesParser.js:41 | the title is "Header  for authorization by " or "Parameter  for authorization by " followed by the key |
| `SecuritySchemes.RecordDefaults` | src/2.0/SecuritySchemesParser.js:49-50 | `required` is the scheme's when truthy, else false. `value` is a one-element list holding the default, or "" |
| `SecuritySchemes.AddTo` | src/2.0/SecuritySchemesParser.js:56-66 | creating the list when absent and pushing appends the record under that key and changes no other key |
| `SecuritySchemes.FileScheme` | src/2.0/SecuritySchemesParser.js:35-67 | one iteration of `_parseParameters`; `SchemeFiledOnce` and the method `FileOne` characterise it |
| `SecuritySchemes.FileAll` | src/2.0/SecuritySchemesParser.js:33-68 | `_parseParameters` as a fold; `FileAllMatches` ties it to the per-key `Matching` |
| `SecuritySchemes.FileAllMatches` | src/2.0/SecuritySchemesParser.js:33-69 | after `_parseParameters`, each table holds under each key what it held before followed by exactly the matching records in scheme order. A key is present exactly when it was or something matched |
| `SecuritySchemes.MatchingOwnKey` | src/2.0/SecuritySchemesParser.js:35-68 | with distinct scheme keys, only a scheme's own record is filed under its key |
| `SecuritySchemes.MatchingAbsent` | src/2.0/SecuritySchemesParser.js:35-68 | a key no scheme has gets no record |
| `SecuritySchemes.SchemeFiledOnce` | src/2.0/SecuritySchemesParser.js:37-67 | from empty tables, a header scheme has exactly its record under `headers[key]` and none under `parameters`, any other `in` the reverse. A non-object scheme, or one without `in`, is in neither |
| `SecuritySchemes.RequirementKeys` | src/2.0/SecuritySchemesParser.js:102 | a requirement array is visited by index keys, an object by its own keys |
| `SecuritySchemes.Gather` | src/2.0/SecuritySchemesParser.js:102-110 | the lookup loop; `GatherAppend`, `GatherUnknown`, `GatherMembership` and `GatherSingleKey` characterise it |
| `SecuritySchemes.Requested` | src/2.0/SecuritySchemesParser.js:90-113 | a non-object requirement finds nothing, and an object one gathers by `RequirementKeys`; `OneKeyRequirement` and `ArrayRequirementFindsNothing` characterise it |
| `SecuritySchemes.GatherEntries` | src/2.0/SecuritySchemesParser.js:102-110 | the nested loops collect exactly `Gather`: every entry filed under each requested key, key by key and in filing order, and nothing for an unknown key |
| `SecuritySchemes.GatherAppend` | src/2.0/SecuritySchemesParser.js:102-110 | looking up two key lists is looking up each, appended |
| `SecuritySchemes.GatherUnknown` | src/2.0/SecuritySchemesParser.js:103-105 | keys absent from the table contribute nothing |
| `SecuritySchemes.GatherMembership` | src/2.0/SecuritySchemesParser.js:102-110 | a record is returned if and only if it is filed under one of the requirement's keys |
| `SecuritySchemes.GatherSingleKey` | src/2.0/SecuritySchemesParser.js:107-109 | one key returns exactly its own entries |
| `SecuritySchemes.ArrayRequirementFindsNothing` | src/2.0/SecuritySchemesParser.js:102 | when no scheme key is a decimal string, an array requirement returns nothing |
| `SecuritySchemes.OneKeyRequirement` | src/2.0/SecuritySchemesParser.js:102-110 | a one-key requirement object returns exactly the entries under that key |
| `SecuritySchemes.ApiKeyExample` | tests/tests/SecuritySchemesTest.js:51-89 | the two API-key schemes are filed as one header and one query record. The unknown scheme `test` returns nothing, each known one its single record |
| `SecuritySchemes.SecuritySchemesParser.constructor` | src/2.0/SecuritySchemesParser.js:20-26 | the schemes are kept and both tables start empty |
| `SecuritySchemes.SecuritySchemesParser.FileOne` | src/2.0/SecuritySchemesParser.js:37-67 | one iteration changes the tables exactly as `FileScheme` |
| `SecuritySchemes.SecuritySchemesParser.ParseParameters` | src/2.0/SecuritySchemesParser.js:33-69 | the tables become `FileAll` of the old tables over all schemes in order |
| `SecuritySchemes.SecuritySchemesParser.Parse` | src/2.0/SecuritySchemesParser.js:71-73 | `parse` returns the scheme map and changes nothing |
| `SecuritySchemes.SecuritySchemesParser.GetHeadersOrParams` | src/2.0/SecuritySchemesParser.js:90-113 | returns the parameter table's answer when `isHeader` is false, the header table's when it is true or undefined. A non-object requirement returns nothing |
| `SecuritySchemes.SecuritySchemesParser.GetHeadersForRequest` | src/2.0/SecuritySchemesParser.js:121-123 | returns the header table's answer for the requirement |
| `SecuritySchemes.SecuritySchemesParser.GetParametersForRequest` | src/2.0/SecuritySchemesParser.js:80-82 | returns the parameter table's answer for the requirement |
| `MethodNames.NormalizeMethodName` | src/2.0/MethodsParser.js:131-135 | `_normalizeMethodName`; `NormalizeMethodNamePointwise`, `NormalizeMethodNameClean` and `NormalizeMethodNameIdempotent` characterise it |
| `MethodNames.NormalizeMethodNamePointwise` | src/2.0/MethodsParser.js:131-135 | the name has the id's length. `.`, `-`, `{`, `}` and space become `_`, and every other character is kept |
| `MethodNames.NormalizeMethodNameClean` | src/2.0/MethodsParser.js:131-135 | the name contains none of the five replaced characters |
| `MethodNames.NormalizeMethodNameIdempotent` | src/2.0/MethodsParser.js:131-135 | normalising twice is normalising once |
| `MethodNames.StripTrailingSlash` | src/2.0/MethodsParser.js:151 | exactly one trailing `/` is removed, and a path without one is kept |
| `MethodNames.RewriteSegment` | src/2.0/MethodsParser.js:154-159 | the template rewrite of one segment; `RewriteTemplate` and `RewriteEmptyTemplate` characterise it |
| `MethodNames.RewriteTemplate` | src/2.0/MethodsParser.js:155-157 | a segment `{x…}` becomes `by`, the upper-cased `x` and the rest without the closing brace |
| `MethodNames.RewriteEmptyTemplate` | src/2.0/MethodsParser.js:155-157 | the segment `{}` becomes `by}}` (its second character is the closing brace, and `substring(2, 1)` swaps its bounds) |
| `MethodNames.RewriteAll` | src/2.0/MethodsParser.js:154-159 | every segment is rewritten, in order, and no segment is added or lost |
| `MethodNames.PathToMethodName` | src/2.0/MethodsParser.js:145-148 | the path "/" or "" gives the verb itself |
| `MethodNames.PathToMethodNameShape` | src/2.0/MethodsParser.js:160-161 | otherwise the name is the lower-cased verb followed by the upper-first camel-cased path text. The rule throws exactly when that text camel-cases to "" |
| `MethodNames.TrailingSlashIgnored` | src/2.0/MethodsParser.js:150-151 | a path and the same path with one trailing `/` get the same name |
| `MethodNames.SegmentsReassemble` | src/2.0/MethodsParser.js:151-153 | the pieces of the cleaned path join back to it, and the segments are all pieces after the first |
| `MethodNames.SplitAfterHead` | src/2.0/MethodsParser.js:153 | splitting a separator-free head, the separator and a tail gives the head followed by the tail's pieces |
| `MethodNames.SplitJoin` | src/2.0/MethodsParser.js:153 | joining separator-free pieces and splitting again gives the pieces back |
| `MethodNames.JoinLast` | src/2.0/MethodsParser.js:160 | a join ends with the last character of its last non-empty piece |
| `MethodNames.PathOfSegments` | src/2.0/MethodsParser.js:151-153 | the path `/s1/…/sn`, with `/`-free segments and a non-empty last one, has exactly the segments s1 … sn |
| `MethodNames.CamelSourceOfSegments` | src/2.0/MethodsParser.js:153-160 | for such a path, `_.camelCase` receives the rewritten segments joined with `-` |
| `Methods.MethodName` | src/2.0/MethodsParser.js:54 | a truthy `operationId` gives its normalised form, and otherwise the path rule decides |
| `Methods.Size` | src/2.0/MethodsParser.js:84 | lodash `_.size`: a non-zero size means a truthy value, and `null`, booleans and numbers have size 0 |
| `Methods.FlagsOf` | src/2.0/MethodsParser.js:66-74 | the nine verb flags; `VerbFlagsExclusive` states that exactly one holds for a verb and none otherwise |
| `Methods.Classified` | src/2.0/MethodsParser.js:84-93 | the classification step; `BuildOperationOutcome` and `BuildOperationLists` characterise it |
| `Methods.Secured` | src/2.0/MethodsParser.js:172-202 | `_addSecurityParameters`; `SecuredWithoutTables`, `AsInjected` and `BuildOperationLists` characterise it, and the method `AddSecurityParameters` is proved equal to it |
| `Methods.AsDeclared` | src/2.0/MethodsParser.js:86-87 | the classifier's records enter the operation's lists one for one, in order |
| `Methods.AsInjected` | src/2.0/MethodsParser.js:178-191 | the security records enter the operation's lists one for one, in order |
| `Methods.DetailsOf` | src/2.0/MethodsParser.js:55-65 | `tags`, `operationId` and `security` are copied. `isDeprecated` is truthy exactly when `deprecated` is, and false when it is absent. `isSecure` holds exactly when `security` is defined |
| `Methods.BuildOperation` | src/2.0/MethodsParser.js:49-106 | a built record has the path, the upper-cased key as verb, the name the name rule gives, the copied details, the verb's flags, and the parser's settings and definitions |
| `Methods.BuildOperationOutcome` | src/2.0/MethodsParser.js:54-98 | a record is built if and only if the name rule succeeds, no kept parameter has an unknown location and there are no responses. Otherwise the first of these to fail gives the exception |
| `Methods.BuildOperationLists` | src/2.0/MethodsParser.js:75-93 | each location list holds the kept parameters declared there and `enums` their enum records. `headers` and `parameters` hold the declared ones followed by the security records the tables answer for the operation's `security` |
| `Methods.VerbFlagsExclusive` | src/2.0/MethodsParser.js:66-74 | exactly one `is<VERB>` flag is set for each of the nine verbs, none for any other |
| `Methods.SecuredWithoutTables` | src/2.0/MethodsParser.js:172-202 | with empty scheme tables the security merge leaves the record unchanged |
| `Methods.IndexOf` | src/2.0/MethodsParser.js:111 | the index found holds the tag, and when none is found no group has it |
| `Methods.IndexOfSnoc` | src/2.0/MethodsParser.js:111-113 | a group added at the end is found under its key, and other keys are found where they were |
| `Methods.IndexOfSameKeys` | src/2.0/MethodsParser.js:111-115 | groups with the same keys at the same positions find every tag at the same index, so a push never moves a key |
| `Methods.AddToGroupGroup` | src/2.0/MethodsParser.js:111-115 | one push appends the record to the group of its tag and changes no other group |
| `Methods.AddToGroupKeys` | src/2.0/MethodsParser.js:111-115 | one push adds the tag as a key if it is absent and no other key, and keeps keys distinct and groups non-empty |
| `Methods.AddToGroups` | src/2.0/MethodsParser.js:108-117 | the tag loop; `AddToGroupsGroup` and `AddToGroupsKeys` characterise it |
| `Methods.AddToGroupsGroup` | src/2.0/MethodsParser.js:108-117 | the tag loop appends the record to each group once per occurrence of its key among the tags |
| `Methods.AddToGroupsKeys` | src/2.0/MethodsParser.js:108-117 | the tag loop adds exactly the tags as keys, keeping keys distinct and groups non-empty |
| `Methods.CountPositive` | src/2.0/MethodsParser.js:110 | a tag occurs a positive number of times exactly when it is among the tags |
| `Methods.Repeat` | src/2.0/MethodsParser.js:110-116 | n pushes of the same record give n entries |
| `Methods.RecordGroup` | src/2.0/MethodsParser.js:108-119 | recording an operation appends it to `parseMethods` and to each group once per occurrence of that tag |
| `Methods.RecordKeys` | src/2.0/MethodsParser.js:108-119 | recording an operation adds exactly its tags as keys, keeping keys distinct and groups non-empty |
| `Methods.RepeatMembers` | src/2.0/MethodsParser.js:110-116 | repeated pushes hold only that record, and hold it when there is at least one |
| `Methods.TaggedWithMembers` | src/2.0/MethodsParser.js:108-117 | an operation is in the group of a tag if and only if it was recorded and carries that tag |
| `Methods.ItemsOf` | src/2.0/MethodsParser.js:49 | the keys of one path item are visited in order, each with the item's path |
| `Methods.Built` | src/2.0/MethodsParser.js:47-122 | the records of a run; `BuiltSucceeds`, `BuiltAt` and `BuiltFirstFailure` characterise it |
| `Methods.Run` | src/2.0/MethodsParser.js:209-217 | `parse` as a fold over every path's items; `RunBuilt`, `RunGroup` and `RunKeys` characterise it |
| `Methods.BuiltSucceeds` | src/2.0/MethodsParser.js:209-217 | every record is built exactly when each item builds |
| `Methods.BuiltAt` | src/2.0/MethodsParser.js:209-217 | the built records are one per item, in item order, each the one its item builds |
| `Methods.BuiltFirstFailure` | src/2.0/MethodsParser.js:209-217 | a failing run reports the exception of the first item that fails, all earlier items having been built |
| `Methods.RunBuilt` | src/2.0/MethodsParser.js:209-217 | `parse` succeeds exactly when every record builds, reports the same exception otherwise, and appends the records in order to `parseMethods` |
| `Methods.RunGroup` | src/2.0/MethodsParser.js:108-117 | after a successful run each group has gained exactly the built records carrying its tag |
| `Methods.RunKeys` | src/2.0/MethodsParser.js:108-117 | a successful run adds exactly the tags of the built records as keys, keeping keys distinct and groups non-empty |
| `Methods.RunNext` | src/2.0/MethodsParser.js:49-121 | one more item is one more build and record step |
| `Methods.RunPrefixFails` | src/2.0/MethodsParser.js:49-121 | once an item throws, the rest does not change the outcome |
| `Methods.RunAppend` | src/2.0/MethodsParser.js:212-214 | running the items of two path lists is running the first and then the second from its state |
| `Methods.AllItemsNext` | src/2.0/MethodsParser.js:212-214 | one more path adds its path item's entries after the earlier paths' |
| `Methods.AllItemsPrefixFails` | src/2.0/MethodsParser.js:212-214 | once a path throws, later paths do not change the outcome |
| `Methods.ParseFromStart` | src/2.0/MethodsParser.js:209-217 | from the constructor's state `parse` succeeds exactly when each operation builds; `parseMethods` then has one record per operation, in path and key order |
| `Methods.ParseFromStartGroups` | src/2.0/MethodsParser.js:108-117 | after such a `parse`, each group holds the records carrying its tag, once per occurrence, in order. The keys are exactly the tags that occur, each once, and no group is empty |
| `Methods.UpperPost` | tests/tests/MethodsParserTest.js:56 | the key `post` upper-cases to `POST` |
| `Methods.FacebookCamelSource` | src/2.0/MethodsParser.js:151-160 | for the test path `/user/auth/facebook`, `_.camelCase` receives `user-auth-facebook` |
| `Methods.EmptyMethodExample` | tests/tests/MethodsParserTest.js:47-61 | the test operation builds as a `POST` with `isPOST` set and `isGET` not, `isDeprecated` false, the summary, and no parameters |
| `Methods.TestQueryClassified` | tests/tests/MethodsParserTest.js:30-38 | the test's query parameter is kept and filed once in the flat list and once in the query bucket |
| `Methods.QueryParameterExample` | tests/tests/MethodsParserTest.js:63-80 | with that one query parameter the built record's `parameters` has one entry, as the test expects; that `queryParams` also has one entry is a further fact of the model, which the test does not check. The lemma is about `BuildOperation`, and `ParseFromStart` links it to `parse` |
| `Methods.MethodsParser.constructor` | src/2.0/MethodsParser.js:26-45 | the inputs are kept, each setting is the option's or undefined when no options are given, and both `parseMethods` and `methodsGroup` start empty |
| `Methods.MethodsParser.AddSecurityParameters` | src/2.0/MethodsParser.js:172-202 | the record gains the header table's answer after its headers and the parameter table's answer after its parameters, nothing else |
| `Methods.MethodsParser.BuildOne` | src/2.0/MethodsParser.js:49-106 | one loop body yields exactly `BuildOperation` for the parser's tables and settings |
| `Methods.MethodsParser.FileUnderTags` | src/2.0/MethodsParser.js:108-117 | the tag loop changes `methodsGroup` exactly as `AddToGroups` |
| `Methods.MethodsParser.IterateMethod` | src/2.0/MethodsParser.js:47-122 | the state becomes what `Run` gives for the path item, or the exception `Run` gives is reported |
| `Methods.MethodsParser.Parse` | src/2.0/MethodsParser.js:209-217 | `parse` succeeds exactly when `Run` of all paths does; the state is then `Run`'s and `parseMethods` is returned, and otherwise the same exception is reported |
| `Methods.PushAfterCreate` | src/2.0/MethodsParser.js:111-115 | creating an empty group and pushing onto it is adding a one-element group |

## Left out

- Parameter objects are values here. The source writes `ref`, `isSingleton`, `cardinality` and the other decorations onto the caller's own parameter objects. The operation's lists alias the classifier's arrays. `_addSecurityParameters` pushes into those same arrays. None of this aliasing is modelled.
- State after an exception: once a parser throws, the model says nothing about its fields. In the source they keep whatever the interrupted loop had written.
- `_destroyParam`, `_currentParam` and `_currentOriginalParam`, and the `paramParser` and `respParser` fields `MethodsParser` stores, are not modelled. They are scratch state no caller reads.
- A parameter object that already has an `isQueryParameter` property before classification is not modelled. The pattern test reads only the flag the classifier sets.
- `Parameters.Step`: an `in` of "parameter" or "enum" is treated as an unknown location and makes the model fail. In the source, `_self[in + 's']` then names the flat `parameters` list or the `enums` list and the push succeeds.
- A `null` value in the scheme map is not modelled. It passes `typeof config !== 'object'`, and then reading `config.in` throws a `TypeError` (src/2.0/SecuritySchemesParser.js:37). `SecuritySchemes.SchemeValue` has no `null` case, so `FileAll` never fails.
- JSON numbers are integers in `Js.Json`. Fractional `enum`, `default` and `required` values cannot be written. The normaliser only copies them or tests their truthiness.
- Non-string `in`, `name`, `operationId` and tags, `null` entries in the parameter list, and non-array `enum` values are not modelled.
- Path-item keys and tags that are inherited object properties (such as `constructor`), integer-like keys that JavaScript orders first, and array-like objects with a `length` are not modelled.
- `SecuritySchemes.AddTo`: a scheme key that names an inherited `Object.prototype` property (such as `constructor` or `toString`) is filed like any other key. In the source, `typeof _self.headers[name]` is then not `'undefined'`, so no array is created, and the `push` throws a `TypeError` (src/2.0/SecuritySchemesParser.js:56-66). `FileScheme`, `FileAll`, `FileOne` and `ParseParameters` inherit this. Requirement lookups with such keys agree with the source, since `_.each` visits no own keys of those values.
- Text functions: lodash `_.camelCase` is a parameter, not a definition. `_.upperCase` is modelled as ASCII upper-casing of a single word, without lodash's splitting into words. Case mapping covers ASCII letters only.
- Path-item keys that are not operations (`parameters`, `$ref`) are treated as verbs, as the source treats them.
- `ResponseParser`, `Parser.js`, `DocGenerator.js`, the templates and the command-line entry points are not part of this model. Only the fact that `new ResponseParser(...)` throws is used.
- `Methods.MethodsParser.AddSecurityParameters`: the `paramConfig.in` branch (`<in>Params` push and its throw) is not modelled. Security records have no `in` property, so that branch never runs. The skip of `undefined` entries is not modelled either, because the table lookups never yield `undefined`.
- `Methods.EmptyMethodExample`, `Methods.QueryParameterExample`: they assume that `_.camelCase("user-auth-facebook")` is not empty. The concrete camel-cased name is not stated.
- `Parameters.EnumTestExample`, `Parameters.EnumTestRecord`: they assume `_.camelCase("access_token")` is `accessToken`.
- `SecuritySchemes.ApiKeyExample`: it states the camel-cased names as `camelCase("Authorization")` and `camelCase("access_token")`, not as the test's literal `authorization` and `accessToken`.
