# CV data pipeline: validator and loader

This project models the data pipeline behind the personal CV site. A CV is
kept as one JSON data file. Two pieces of code work on it:

- **The validator** (`CVValidator`, `validateCV`) walks the loosely typed
  value tree against a fixed schema. It collects errors and warnings, and
  the document is valid exactly when there is no error. A failure inside
  the walk never escapes: it becomes one more error.
- **The loader** (`CVDataLoader`) imports the data file and runs the
  validator on it, for diagnostics only. It then normalises the file into
  a `CV` document: legacy layout names are mapped, placeholders are filled
  in, and non-array fields become empty sequences. A successful load is
  cached. If importing or normalising fails, a fixed fallback document is
  returned instead.

Files:

- `json.dfy`: the value tree (`Json`), JavaScript truthiness, and property
  reads. Reading a property of `null`/`undefined` is a failure. Reading one
  of a string, number, boolean or array gives `undefined`.
- `cv_types.dfy`: the normalised document (`CV`, `Basics`, `PageLayout`)
  and its encoding back into a value tree.
- `validator.dfy`: diagnostics, given by kind, field and index. Each private
  check is specified by a function returning an `Outcome`: what the check
  pushes and whether it throws. The class `CVValidator` keeps the two
  lists as fields, and its methods, loops included, are proved to push
  exactly what the functions say.
- `validator_properties.dfy`: the validator's rules, stated on the whole
  result of `Validation`. `Select` picks out the diagnostics of one
  concern, such as the layout or one array's entries.
- `validator_aborts.dfy`: when a validation aborts. The walk is laid out
  as seventeen checks run in a row until the first throw, with one check
  per array whose entries are inspected. This shows which documents abort
  and what a null entry leaves in the result.
- `loader.dfy`: the normalisation functions, the fallback document, the
  data file as an importable object (`CvJsonModule`), and the class
  `CVDataLoader` with its cache.
- `loader_properties.dfy`: fixed points and idempotence of the
  normalisation, and the guarantee that loading never fails. It also has
  cache scenarios and links between the loader and the validator.

Where the two disagree, the model follows the code:

- `normalizeData` coerces eleven sequence fields. `volunteer`, `awards`,
  `publications`, `interests` and `references` are among them, and there
  is no separate handling of other fields.
- The validator accepts only `"single"` and `"two"` as layouts. So a
  legacy name such as `"two-column"` makes the document invalid, even
  though the loader maps it to a canonical layout
  (`LegacyLayoutFlaggedButNormalised`). This does no harm, because
  validation never stops the normalisation.

## Model

| member | source | states |
|---|---|---|
| CvValidator.Validation | src/utils/cvValidator.ts:14-35 | the document is valid exactly when the error list is empty; warnings never affect validity; a walk that throws adds exactly one error and is then invalid |
| CvValidator.CVValidator.constructor | src/utils/cvValidator.ts:7-9 | a new validator starts with empty error and warning lists |
| CvValidator.CVValidator.Validate | src/utils/cvValidator.ts:14-35 | resets both lists, runs the checks in source order, stops at the first throw and records it as one error; the result and the instance's lists equal the specification `Validation(data)`, so they depend on `data` alone |
| CvValidator.CVValidator.ValidateBasicStructure | src/utils/cvValidator.ts:40-48 | a falsy or non-object root throws; otherwise a falsy `basics` adds the missing-basics error and nothing else |
| CvValidator.CVValidator.ValidatePageLayout | src/utils/cvValidator.ts:53-66 | appends exactly the layout diagnostics of `PageLayoutCheck`; a layout other than `"single"` and `"two"` whose string conversion throws (an object with an own `toString` key, or an array holding one at any depth) pushes nothing and throws, since its error message cannot be built |
| CvValidator.CVValidator.ValidateBasics | src/utils/cvValidator.ts:71-110 | a falsy `basics` pushes nothing; otherwise field errors, then profile warnings, then the about checks, stopping at the first null profile entry |
| CvValidator.CVValidator.ValidateBasicsFields | src/utils/cvValidator.ts:74-93 | appends the name/label/email/url/theme errors in source order |
| CvValidator.CVValidator.ValidateAbout | src/utils/cvValidator.ts:115-197 | a non-object `about` gives one error; otherwise personal info, traits, highlights, quote and legacy tags are checked in that order, and a null entry throws |
| CvValidator.CVValidator.ValidateQuote | src/utils/cvValidator.ts:166-185 | a truthy quote whose text is not a non-empty string gives one error; its values are then checked entry by entry |
| CvValidator.CVValidator.ValidateOptionalArrays | src/utils/cvValidator.ts:202-259 | first one error per checked field that is truthy and not an array, then the entries of work, education, skills and projects |
| CvValidator.CVValidator.ValidateImages | src/utils/cvValidator.ts:264-274 | falsy images push nothing; otherwise the entries of `images.list` are checked |
| CvValidator.CVValidator.ListLoop | src/utils/cvValidator.ts:96-104 | an array field is walked entry by entry; a non-array field is skipped |
| CvValidator.CVValidator.ScanEntriesLoop | src/utils/cvValidator.ts:219-227 | the `forEach` over the entries pushes what `ScanEntries` says, in index order, and stops at the first null entry |
| CvValidator.CVValidator.EntryCallback | src/utils/cvValidator.ts:219-226 | one call of the `forEach` callback: a null entry throws; otherwise the entry's incomplete-entry report is pushed onto the errors or the warnings as its array decides, and the new state is what `EntryStep` prescribes |
| CvValidator.CVValidator.RunChecks | src/utils/cvValidator.ts:18-24 | the body of the `try`: the checks run in order, each appending what the `Walk` specification says, and the first throw ends the run |
| CvValidator.CVValidator.ValidateArrayTypes | src/utils/cvValidator.ts:203-216 | the loop over the six inspected fields appends one type error per field that is truthy and not an array, in field order, and no warning |
| CvValidator.CVValidator.CheckRequiredString | src/utils/cvValidator.ts:74-80 | a required basics field that is not a non-empty string appends exactly one error, otherwise nothing |
| CvValidator.CVValidator.CheckOptionalString | src/utils/cvValidator.ts:83-93 | an optional basics field that is truthy and not a string appends exactly one error, otherwise nothing |
| CvValidator.ValidateCV | src/utils/cvValidator.ts:280-283 | a fresh validator run once returns exactly `Validation(data)` |
| CvValidatorProperties.ValidateTwice | src/utils/cvValidator.ts:15-16 | after validating another document, one instance gives the same result twice on the same data, equal to that of a fresh one |
| CvValidatorProperties.NonObjectRoot | src/utils/cvValidator.ts:41-43 | a falsy or non-object root gives exactly one (generic) error and no warning |
| CvValidatorProperties.StructureRules | src/utils/cvValidator.ts:45-47 | the missing-basics error is reported exactly when `basics` is falsy; it is then the first error and the document is invalid |
| CvValidatorProperties.MissingBasicsStillChecks | src/utils/cvValidator.ts:18-28 | with `basics` missing, the document is invalid with the missing-basics error first, the layout rules and the array-type rule still hold (the array-type rule unless the layout cannot be printed), and, unless the walk aborted, the entries of the four top-level arrays and of `images.list` are still checked exactly as when `basics` is present |
| CvValidatorProperties.PageLayoutRules | src/utils/cvValidator.ts:53-66 | a falsy layout gives exactly one warning and no error; `"single"` and `"two"` give nothing; any other value gives exactly one error carrying the value, unless converting it to a string for that error's message throws: then the walk aborts there, and the whole result is the missing-basics error if `basics` is missing, then one abort error, and no warning |
| CvValidatorProperties.UnprintableLayoutExample | src/utils/cvValidator.ts:62-64 | a document whose layout is an object with an own `toString` key and whose `work` is a string is invalid with the abort as its only error: the not-an-array check never runs |
| CvValidatorProperties.BasicsFieldErrorsMeaning | src/utils/cvValidator.ts:74-93 | `name` and `label` give an error exactly when they are not non-empty strings; `email`, `url` and `theme` give one exactly when they are truthy and not strings; at most five errors |
| CvValidatorProperties.BasicsFieldRules | src/utils/cvValidator.ts:71-93 | in the whole result, the basics field errors are exactly those of the field checks when `basics` is present and the walk got past the layout, none otherwise, and never warnings |
| CvValidatorProperties.ArrayTypeErrorsMeaning | src/utils/cvValidator.ts:203-216 | a field gets a not-an-array error exactly when it is one of the listed fields and holds a truthy non-array value |
| CvValidatorProperties.ArrayTypeRules | src/utils/cvValidator.ts:202-216 | in the whole result, the not-an-array errors are exactly those of the six fields, in order, unless an unprintable layout or a null entry inside `basics` stopped the walk first; never warnings |
| CvValidatorProperties.ScanCompletion | src/utils/cvValidator.ts:219-227 | a walk over entries reaches the end exactly when no entry is null or undefined, and otherwise throws at the first such entry |
| CvValidatorProperties.ScanReportsIncomplete | src/utils/cvValidator.ts:219-227 | for an array whose incomplete entries are errors, each entry lacking a required field gives exactly one error carrying its index, in index order |
| CvValidatorProperties.ScanWarnsIncomplete | src/utils/cvValidator.ts:96-104 | for profiles and legacy tags, no entry gives an error, and each incomplete entry gives exactly one warning carrying its index, in strictly increasing index order |
| CvValidatorProperties.TopEntryRules | src/utils/cvValidator.ts:218-258 | for work, education, skills and projects in a validation that did not abort, entry `i` gets an incomplete-entry error exactly when the field is an array and that entry lacks a required field; the errors follow index order |
| CvValidatorProperties.AboutRules | src/utils/cvValidator.ts:115-185 | in a validation that did not abort, the `about` errors are exactly: one not-an-object error when `basics.about` is truthy and not an object, else one quote-text error when the quote is truthy and its text is not a non-empty string, else none; both as if-and-only-if statements on the whole error list, and never warnings |
| CvValidatorProperties.AboutEntryRules | src/utils/cvValidator.ts:122-184 | for personal info, traits, highlights and the quote values in a validation that did not abort, entry `i` gets an incomplete-entry error exactly when the array is present in `about` (or its quote) and that entry lacks a required field; the errors follow index order |
| CvValidatorProperties.ImagesRules | src/utils/cvValidator.ts:264-274 | in a validation that did not abort, entry `i` of `images.list` gets an incomplete-entry error exactly when `images` is truthy, its list is an array and that entry has no truthy `image`; the errors follow index order |
| CvValidatorProperties.WarningRules | src/utils/cvValidator.ts:96-197 | for `profiles`, the four `about` arrays and the quote's values in a validation that did not abort: the warnings on that array's entries are exactly its walk's warnings; entry `i` gets a non-string-color warning exactly when the array is present, the list checks `color`, and the entry's `color` is truthy and not a string; it gets an incomplete-entry warning exactly when the list is `profiles` or legacy `tags` and the entry lacks a required field |
| CvValidatorProperties.ValidationSeverity | src/utils/cvValidator.ts:96-104 | a missing layout, an incomplete profile or legacy tag, and a non-string color are only ever warnings; every other diagnostic is only ever an error |
| CvValidatorProperties.UncheckedFieldsIgnored | src/utils/cvValidator.ts:202-216 | two object documents that agree on the layout, `basics`, `images` and the six checked arrays validate alike, so `volunteer`, `awards` and other fields are never checked |
| CvValidatorProperties.MinimalDocumentValid | src/utils/cvValidator.ts:40-110 | a document with either canonical layout (`"single"` or `"two"`) and a `basics` holding only a non-empty name and label is valid, with no warning |
| CvValidatorProperties.StructurallySound | src/utils/cvValidator.ts:40-66 | a document with `basics`, a canonical layout and arrays or nothing in the six checked fields draws no missing-basics, layout or not-an-array diagnostic |
| CvValidatorAborts.ListNormalIff | src/utils/cvValidator.ts:219-227 | the walk over an inspected field runs to its end exactly when the field is not an array or no entry of it is null or undefined |
| CvValidatorAborts.ListAtNull | src/utils/cvValidator.ts:219-227 | at the first null or undefined entry `i`, the walk over the field throws for entry `i` after reporting exactly what the entries before `i` give |
| CvValidatorAborts.AbortFreeExactly | src/utils/cvValidator.ts:18-28 | an object document's validation records no abort error exactly when its layout can be converted to a string and none of the eleven inspected arrays (profiles, the four `about` arrays, the quote's values, work, education, skills, projects, `images.list`) holds a null or undefined entry |
| CvValidatorAborts.NullEntryAborts | src/utils/cvValidator.ts:18-28 | when the first null or undefined entry of the earliest affected inspected array is entry `i`, and the layout can be printed: the document is invalid, the abort for that entry is the last error and the only abort; that array's diagnostics are exactly those of its entries before `i`; the arrays walked later report nothing, nor does the not-an-array check when the array is inside `basics` |
| CvValidatorAborts.NullProfileExample | src/utils/cvValidator.ts:96-104 | a document with layout `"two"` and a `basics` holding a name, a label and a profiles array whose only entry is `null` is invalid with exactly one error, the abort for profile 0, and no warning |
| CvLoader.NormalizePageLayout | src/utils/cvLoader.ts:99-115 | the result is `single` exactly for `"single"`, `"single-column"` and `"single_column"`; everything else, absent included, becomes `two` |
| CvLoaderProperties.LayoutRoundTrip | src/utils/cvLoader.ts:109-111 | a canonical layout is kept as it is |
| CvLoaderProperties.LayoutIdempotent | src/utils/cvLoader.ts:99-115 | normalising a layout twice is normalising it once |
| CvLoader.NormalizeBasics | src/utils/cvLoader.ts:120-139 | fails exactly when `basics` is falsy or not an object; on success the name and label are truthy |
| CvLoaderProperties.NormalizeBasicsKeeps | src/utils/cvLoader.ts:125-138 | the copied fields are unchanged; a truthy name or label is kept and a falsy one becomes its placeholder; `profiles` is kept when it is an array and becomes `[]` otherwise |
| CvLoaderProperties.BasicsFixedPoint | src/utils/cvLoader.ts:120-139 | normalising the basics gives back a `Basics` value exactly when its name and label are truthy |
| CvLoader.NormalizeData | src/utils/cvLoader.ts:74-94 | fails exactly when the raw value is null or undefined, or its `basics` cannot be normalised |
| CvLoaderProperties.NormalizeDataFields | src/utils/cvLoader.ts:76-90 | each of the eleven sequence fields is passed through when it is an array and becomes `[]` otherwise; a falsy analytics code becomes `""`; falsy images become absent |
| CvLoaderProperties.NormalizedIsNormal | src/utils/cvLoader.ts:74-94 | every normalised document has a truthy name and label, an analytics code that is truthy or `""`, and images that are truthy or absent |
| CvLoaderProperties.NormalizeFixedPoint | src/utils/cvLoader.ts:74-94 | normalisation gives a document back unchanged exactly when the document is normal |
| CvLoaderProperties.NormalizeIdempotent | src/utils/cvLoader.ts:74-94 | normalising an already normalised document yields an equal document |
| CvLoader.DefaultCV | src/utils/cvLoader.ts:144-165 | the fallback document has the fallback name and label, layout `two`, no profiles, every sequence empty, an empty analytics code, no images, and no other basics field |
| CvLoaderProperties.DefaultIsNormal | src/utils/cvLoader.ts:144-165 | the fallback document is normal and a fixed point of the normalisation |
| CvLoaderProperties.DefaultCVValid | src/utils/cvLoader.ts:144-165 | the fallback document is valid and draws no warning |
| CvLoaderProperties.LoadFromIsNormal | src/utils/cvLoader.ts:28-55 | whatever the import gives, the loader returns a normal document, and it is the fallback exactly when importing or normalising failed |
| CvLoaderProperties.FalsyDefaultFallsBack | src/utils/cvLoader.ts:65 | a falsy default export yields the module object, which has no `basics`, so the loader falls back |
| CvLoaderProperties.NormalizedPassesStructure | src/utils/cvLoader.ts:74-94 | any document the loader returns, read back as a value tree, draws no missing-basics, invalid-layout or not-an-array error and no missing-layout warning |
| CvLoaderProperties.LegacyLayoutFlaggedButNormalised | src/utils/cvLoader.ts:101-106 | a legacy layout name is an invalid-layout error to the validator, while the loader maps it to a canonical layout |
| CvLoader.CvJsonModule.Import | src/utils/cvLoader.ts:64 | importing returns the file's content, leaves it unchanged, and counts one import |
| CvLoader.CVDataLoader.constructor | src/utils/cvLoader.ts:10-11 | a new loader has no cached document and is not loaded |
| CvLoader.CVDataLoader.LoadRawData | src/utils/cvLoader.ts:61-69 | imports once; a failed import is an error, otherwise the default export or, when it is falsy, the module object |
| CvLoader.CVDataLoader.LoadCV | src/utils/cvLoader.ts:23-56 | a cached document is returned with no import and no state change; otherwise one import, the result is the normalised document or the fallback, and only a normalised document is cached; the cache flag and the cache stay consistent |
| CvLoader.CVDataLoader.ClearCache | src/utils/cvLoader.ts:170-173 | the cache is emptied and the loader is marked not loaded |
| CvLoader.LoadCV | src/utils/cvLoader.ts:182-184 | returns the cached document without importing if there is one; otherwise imports once and returns the normalised document or the fallback, caching only a normalised one; the loader's consistency is kept |
| CvLoader.GetBasics | src/utils/cvLoader.ts:189-192 | returns the basics of the document `loadCV` returns, with the same effect on the cache and the import count |
| CvLoaderProperties.CachedAfterSuccess | src/utils/cvLoader.ts:46-51 | after a successful load, the next load returns the same document without importing again |
| CvLoaderProperties.RetriedAfterFallback | src/utils/cvLoader.ts:52-55 | the fallback path does not cache: every load imports again and returns the fallback document |
| CvLoaderProperties.ReloadAfterClear | src/utils/cvLoader.ts:170-173 | after clearing the cache, the next load imports again and returns the same document |

## Left out

- Diagnostic message text: the Chinese messages are modelled by kind, field and entry index. The message of the caught exception is modelled by its cause (`Cause`, `LoadError`).
- Inherited properties: a property read on a non-object gives `undefined`. Two places reach inherited properties. An array-valued `quote` exposes `Array.prototype.values`, a function and not an array, so it is skipped just as `undefined` is. Building the invalid-layout message converts the layout to a string through `toString` and `valueOf`; that conversion is modelled (`StringConversionThrows`): an own `toString` key, never callable in JSON, makes it throw, and an array throws when an element does.
- Numbers: `NaN` is not modelled, because the data file is JSON and cannot hold it. A number is falsy exactly when it is zero.
- Console logging and the development-mode gate around the warnings in `loadCV`: output only, with no effect on the result.
- Reference identity and aliasing: documents are values compared by equality. A cached document is returned by reference in the source (src/utils/cvLoader.ts:24-25), and `normalizeData` passes the raw arrays through without copying them (src/utils/cvLoader.ts:79-89), so a caller that mutates what it received changes the cache or the imported data; the model cannot express that.
- Asynchrony and the `getInstance` singleton: the loader is one sequential object, and the convenience functions take it as a parameter.
- The dynamic import of the data file: it is the `CvJsonModule` object, whose content is either a default export or a failure. Named exports of the module namespace are not modelled. The model keeps only the `default` property that `module.default || module` can expose.
- The page templates that use the loaded document, the build configuration and the UI re-exports: not part of this model.
