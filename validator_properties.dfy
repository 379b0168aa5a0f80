/**
 * What the validator promises, proved about the functions that specify it.
 *
 * Each diagnostic belongs to the part of the schema that produces it (its
 * section). `Select` keeps the diagnostics of one section, so a statement
 * such as "the layout diagnostics of a validation are exactly these" can be
 * made about the whole result.
 *
 * The headline lemmas, in schema order:
 * - `NonObjectRoot`, `StructureRules`, `MissingBasicsStillChecks`: the root
 *   and `basics`;
 * - `PageLayoutRules`, `UnprintableLayoutExample`: the layout;
 * - `BasicsFieldRules`, `AboutRules`, `AboutEntryRules`, `WarningRules`:
 *   inside `basics`;
 * - `ArrayTypeRules`, `TopEntryRules`, `ImagesRules`: the top-level arrays
 *   and the images;
 * - `ValidationSeverity`, `UncheckedFieldsIgnored`, `MinimalDocumentValid`,
 *   `StructurallySound`, `ValidateTwice`: the result as a whole.
 * Which documents abort, and what a null entry leaves in the result, is in
 * module `CvValidatorAborts` (`AbortFreeExactly`, `NullEntryAborts`,
 * `NullProfileExample`).
 */
module CvValidatorProperties {
  import opened Json
  import opened CvValidator

  datatype Section =
    | StructureSection
    | LayoutSection
    | BasicsFieldSection
    | AboutSection
    | ArrayTypeSection
    | EntrySection(list: EntryList)
    | AbortSection

  function SectionOf(d: Diagnostic): Section {
    match d
    case MissingBasics => StructureSection
    case LayoutUnspecified => LayoutSection
    case InvalidLayout(_) => LayoutSection
    case RequiredString(_) => BasicsFieldSection
    case NotAString(_) => BasicsFieldSection
    case AboutNotObject => AboutSection
    case QuoteTextRequired => AboutSection
    case NotAnArray(_) => ArrayTypeSection
    case EntryIncomplete(list, _) => EntrySection(list)
    case ColorNotString(list, _) => EntrySection(list)
    case Aborted(_) => AbortSection
  }

  /** The diagnostics of `ds` that belong to section `s`, in order. */
  function Select(ds: seq<Diagnostic>, s: Section): seq<Diagnostic> {
    if ds == [] then []
    else (if SectionOf(ds[0]) == s then [ds[0]] else []) + Select(ds[1..], s)
  }

  /** `Select` keeps exactly the diagnostics of the section. */
  lemma {:induction false} SelectMembers(ds: seq<Diagnostic>, s: Section)
    ensures forall d :: d in Select(ds, s) <==> d in ds && SectionOf(d) == s
  {
    if ds != [] {
      SelectMembers(ds[1..], s);
      var head := if SectionOf(ds[0]) == s then [ds[0]] else [];
      assert Select(ds, s) == head + Select(ds[1..], s);
      forall d
        ensures d in Select(ds, s) <==> d in ds && SectionOf(d) == s
      {
        assert d in ds <==> d == ds[0] || d in ds[1..];
      }
    }
  }

  lemma {:induction false} SelectAppend(a: seq<Diagnostic>, b: seq<Diagnostic>, s: Section)
    ensures Select(a + b, s) == Select(a, s) + Select(b, s)
  {
    if a == [] {
      assert a + b == b;
    } else {
      var head := if SectionOf(a[0]) == s then [a[0]] else [];
      assert (a + b)[0] == a[0];
      assert (a + b)[1..] == a[1..] + b;
      SelectAppend(a[1..], b, s);
      calc {
        Select(a + b, s);
        head + Select(a[1..] + b, s);
        head + (Select(a[1..], s) + Select(b, s));
        (head + Select(a[1..], s)) + Select(b, s);
        Select(a, s) + Select(b, s);
      }
    }
  }

  lemma SelectOutside(ds: seq<Diagnostic>, s: Section)
    requires forall d | d in ds :: SectionOf(d) != s
    ensures Select(ds, s) == []
  {
  }

  // ---------------------------------------------------------------------
  // Entries of one array

  /** `d` is a report on an entry of `list`. */
  predicate OnEntryOf(d: Diagnostic, list: EntryList) {
    (d.EntryIncomplete? || d.ColorNotString?) && d.list == list
  }

  predicate OnEntries(o: Outcome, list: EntryList) {
    && (forall d | d in o.errors :: OnEntryOf(d, list))
    && (forall d | d in o.warnings :: OnEntryOf(d, list))
  }

  lemma EntryStepShape(list: EntryList, index: nat, entry: Json)
    ensures forall d | d in EntryStep(list, index, entry).errors :: d == EntryIncomplete(list, index)
    ensures forall d | d in EntryStep(list, index, entry).warnings ::
      d == EntryIncomplete(list, index) || d == ColorNotString(list, index)
  {
  }

  /** A `forEach` over `list` only reports on entries of `list`. */
  lemma {:induction false} ScanShape(list: EntryList, items: seq<Json>)
    ensures OnEntries(ScanEntries(list, items), list)
  {
    if items != [] {
      var n := |items| - 1;
      ScanShape(list, items[..n]);
      EntryStepShape(list, n, items[n]);
    }
  }

  /** The walk over the entries reaches the end exactly when none is null or
      undefined, and otherwise throws at the first such entry. */
  lemma ScanCompletion(list: EntryList, items: seq<Json>)
    ensures ScanEntries(list, items).completion.Normal? <==> forall i | 0 <= i < |items| :: !Nullish(items[i])
    ensures forall i: nat :: ScanEntries(list, items).completion == Throw(NullishEntry(list, i)) <==>
      i < |items| && Nullish(items[i]) && forall j | 0 <= j < i :: !Nullish(items[j])
    ensures ScanEntries(list, items).completion.Throw? ==> ScanEntries(list, items).completion.cause.NullishEntry?
  {
    ScanNormal(list, items);
    ScanThrows(list, items);
  }

  /** A walk over all but the last entry, then the last entry. */
  lemma ScanLast(list: EntryList, items: seq<Json>)
    requires items != []
    ensures var n := |items| - 1;
      ScanEntries(list, items) == Then(ScanEntries(list, items[..n]), EntryStep(list, n, items[n]))
      && forall j | 0 <= j < n :: items[..n][j] == items[j]
  {
  }

  /** What one entry contributes, when it is not null or undefined. */
  lemma StepOf(list: EntryList, index: nat, entry: Json)
    requires !Nullish(entry)
    ensures EntryStep(list, index, entry).completion == Normal
    ensures EntryStep(list, index, entry).errors ==
      if IncompleteIsWarning(list) || !Incomplete(list, entry) then [] else [EntryIncomplete(list, index)]
    ensures IncompleteIsWarning(list) ==>
      EntryStep(list, index, entry).warnings == if Incomplete(list, entry) then [EntryIncomplete(list, index)] else []
  {
  }

  lemma {:induction false} ScanNormal(list: EntryList, items: seq<Json>)
    ensures ScanEntries(list, items).completion.Normal? <==> forall i | 0 <= i < |items| :: !Nullish(items[i])
  {
    if items != [] {
      var n := |items| - 1;
      ScanLast(list, items);
      ScanNormal(list, items[..n]);
    }
  }

  lemma {:induction false} ScanThrows(list: EntryList, items: seq<Json>)
    ensures forall i: nat :: ScanEntries(list, items).completion == Throw(NullishEntry(list, i)) <==>
      i < |items| && Nullish(items[i]) && forall j | 0 <= j < i :: !Nullish(items[j])
    ensures ScanEntries(list, items).completion.Throw? ==> ScanEntries(list, items).completion.cause.NullishEntry?
  {
    if items != [] {
      var n := |items| - 1;
      ScanLast(list, items);
      ScanThrows(list, items[..n]);
      ScanNormal(list, items[..n]);
    }
  }

  /** Of an array whose incomplete entries are errors, walked to the end:
      each entry lacking a required field gives exactly one error, which
      carries its index, in index order, and nothing else is an error. */
  lemma ScanReportsIncomplete(list: EntryList, items: seq<Json>)
    requires !IncompleteIsWarning(list)
    requires forall i | 0 <= i < |items| :: !Nullish(items[i])
    ensures forall d | d in ScanEntries(list, items).errors :: d.EntryIncomplete? && d.list == list && d.index < |items|
    ensures forall i: nat :: EntryIncomplete(list, i) in ScanEntries(list, items).errors <==>
      i < |items| && Incomplete(list, items[i])
    ensures forall a, b | 0 <= a < b < |ScanEntries(list, items).errors| ::
      ScanEntries(list, items).errors[a].index < ScanEntries(list, items).errors[b].index
  {
    ScanErrorsShape(list, items);
    ScanErrorsIff(list, items);
    ScanErrorsOrdered(list, items);
  }

  /** The errors of a walk to the end, one entry at a time. */
  lemma ScanErrorsLast(list: EntryList, items: seq<Json>)
    requires items != []
    requires forall i | 0 <= i < |items| :: !Nullish(items[i])
    ensures var n := |items| - 1;
      && (forall i | 0 <= i < n :: !Nullish(items[..n][i]))
      && ScanEntries(list, items[..n]).completion.Normal?
      && ScanEntries(list, items).errors == ScanEntries(list, items[..n]).errors +
           (if IncompleteIsWarning(list) || !Incomplete(list, items[n]) then [] else [EntryIncomplete(list, n)])
      && ScanEntries(list, items).warnings == ScanEntries(list, items[..n]).warnings + EntryStep(list, n, items[n]).warnings
  {
    var n := |items| - 1;
    ScanLast(list, items);
    ScanNormal(list, items[..n]);
    StepOf(list, n, items[n]);
  }

  lemma {:induction false} ScanErrorsShape(list: EntryList, items: seq<Json>)
    requires forall i | 0 <= i < |items| :: !Nullish(items[i])
    ensures forall d | d in ScanEntries(list, items).errors :: d.EntryIncomplete? && d.list == list && d.index < |items|
  {
    if items != [] {
      var n := |items| - 1;
      ScanErrorsLast(list, items);
      ScanErrorsShape(list, items[..n]);
    }
  }

  lemma {:induction false} ScanErrorsIff(list: EntryList, items: seq<Json>)
    requires !IncompleteIsWarning(list)
    requires forall i | 0 <= i < |items| :: !Nullish(items[i])
    ensures forall i: nat :: EntryIncomplete(list, i) in ScanEntries(list, items).errors <==>
      i < |items| && Incomplete(list, items[i])
  {
    if items != [] {
      var n := |items| - 1;
      ScanErrorsLast(list, items);
      ScanErrorsIff(list, items[..n]);
      ScanErrorsShape(list, items[..n]);
    }
  }

  lemma {:induction false} ScanErrorsOrdered(list: EntryList, items: seq<Json>)
    requires forall i | 0 <= i < |items| :: !Nullish(items[i])
    ensures forall d | d in ScanEntries(list, items).errors :: d.EntryIncomplete?
    ensures forall a, b | 0 <= a < b < |ScanEntries(list, items).errors| ::
      ScanEntries(list, items).errors[a].index < ScanEntries(list, items).errors[b].index
  {
    ScanErrorsShape(list, items);
    if items != [] {
      var n := |items| - 1;
      ScanErrorsLast(list, items);
      ScanErrorsOrdered(list, items[..n]);
      ScanErrorsShape(list, items[..n]);
      AppendLater(ScanEntries(list, items[..n]).errors, n,
        if IncompleteIsWarning(list) || !Incomplete(list, items[n]) then [] else [EntryIncomplete(list, n)],
        ScanEntries(list, items).errors);
    }
  }

  /** Appending at most one report on index `n` after reports on smaller,
      increasing indices keeps the indices increasing. */
  lemma AppendLater(prefix: seq<Diagnostic>, n: nat, last: seq<Diagnostic>, whole: seq<Diagnostic>)
    requires whole == prefix + last
    requires forall d | d in prefix :: d.EntryIncomplete? && d.index < n
    requires forall a, b | 0 <= a < b < |prefix| :: prefix[a].index < prefix[b].index
    requires forall d | d in last :: d.EntryIncomplete? && d.index == n
    requires |last| <= 1
    ensures forall a, b | 0 <= a < b < |whole| :: whole[a].index < whole[b].index
  {
    IndicesBelow(prefix, n);
    Increasing(prefix, n, last);
  }

  lemma IndicesBelow(ds: seq<Diagnostic>, n: nat)
    requires forall d | d in ds :: d.EntryIncomplete? && d.index < n
    ensures forall a | 0 <= a < |ds| :: ds[a].EntryIncomplete? && ds[a].index < n
  {
  }

  /** Appending a report on a later index keeps the indices increasing. */
  lemma Increasing(prefix: seq<Diagnostic>, n: nat, last: seq<Diagnostic>)
    requires forall a | 0 <= a < |prefix| :: prefix[a].EntryIncomplete? && prefix[a].index < n
    requires forall a, b | 0 <= a < b < |prefix| :: prefix[a].index < prefix[b].index
    requires forall d | d in last :: d.EntryIncomplete? && d.index == n
    requires |last| <= 1
    ensures forall a | 0 <= a < |prefix + last| :: (prefix + last)[a].EntryIncomplete?
    ensures forall a, b | 0 <= a < b < |prefix + last| :: (prefix + last)[a].index < (prefix + last)[b].index
  {
    if |last| == 1 {
      assert last[0] in last;
    }
  }

  /** Of a warn-only array (profiles, legacy tags), walked to the end: no
      entry gives an error, and each incomplete entry gives exactly one
      warning, which carries its index. */
  lemma ScanWarnsIncomplete(list: EntryList, items: seq<Json>)
    requires IncompleteIsWarning(list)
    requires forall i | 0 <= i < |items| :: !Nullish(items[i])
    ensures ScanEntries(list, items).errors == []
    ensures forall i: nat :: EntryIncomplete(list, i) in ScanEntries(list, items).warnings <==>
      i < |items| && Incomplete(list, items[i])
    ensures forall d | d in ScanEntries(list, items).warnings :: d.EntryIncomplete? && d.list == list && d.index < |items|
    ensures forall a, b | 0 <= a < b < |ScanEntries(list, items).warnings| ::
      ScanEntries(list, items).warnings[a].index < ScanEntries(list, items).warnings[b].index
  {
    ScanNoErrors(list, items);
    ScanWarningsShape(list, items);
    ScanWarningsIff(list, items);
    ScanWarningsOrdered(list, items);
  }

  lemma {:induction false} ScanWarningsOrdered(list: EntryList, items: seq<Json>)
    requires IncompleteIsWarning(list)
    requires forall i | 0 <= i < |items| :: !Nullish(items[i])
    ensures forall d | d in ScanEntries(list, items).warnings :: d.EntryIncomplete?
    ensures forall a, b | 0 <= a < b < |ScanEntries(list, items).warnings| ::
      ScanEntries(list, items).warnings[a].index < ScanEntries(list, items).warnings[b].index
  {
    ScanWarningsShape(list, items);
    if items != [] {
      var n := |items| - 1;
      ScanWarningsLast(list, items);
      ScanWarningsOrdered(list, items[..n]);
      ScanWarningsShape(list, items[..n]);
      AppendLater(ScanEntries(list, items[..n]).warnings, n,
        if Incomplete(list, items[n]) then [EntryIncomplete(list, n)] else [],
        ScanEntries(list, items).warnings);
    }
  }

  lemma {:induction false} ScanNoErrors(list: EntryList, items: seq<Json>)
    requires IncompleteIsWarning(list)
    requires forall i | 0 <= i < |items| :: !Nullish(items[i])
    ensures ScanEntries(list, items).errors == []
  {
    if items != [] {
      var n := |items| - 1;
      ScanErrorsLast(list, items);
      ScanNoErrors(list, items[..n]);
    }
  }

  /** The warnings of a warn-only walk to the end, one entry at a time. */
  lemma ScanWarningsLast(list: EntryList, items: seq<Json>)
    requires IncompleteIsWarning(list)
    requires items != []
    requires forall i | 0 <= i < |items| :: !Nullish(items[i])
    ensures var n := |items| - 1;
      && (forall i | 0 <= i < n :: !Nullish(items[..n][i]))
      && ScanEntries(list, items).warnings == ScanEntries(list, items[..n]).warnings +
           (if Incomplete(list, items[n]) then [EntryIncomplete(list, n)] else [])
  {
    var n := |items| - 1;
    ScanErrorsLast(list, items);
    StepOf(list, n, items[n]);
  }

  lemma {:induction false} ScanWarningsShape(list: EntryList, items: seq<Json>)
    requires IncompleteIsWarning(list)
    requires forall i | 0 <= i < |items| :: !Nullish(items[i])
    ensures forall d | d in ScanEntries(list, items).warnings :: d.EntryIncomplete? && d.list == list && d.index < |items|
  {
    if items != [] {
      var n := |items| - 1;
      ScanWarningsLast(list, items);
      ScanWarningsShape(list, items[..n]);
    }
  }

  lemma {:induction false} ScanWarningsIff(list: EntryList, items: seq<Json>)
    requires IncompleteIsWarning(list)
    requires forall i | 0 <= i < |items| :: !Nullish(items[i])
    ensures forall i: nat :: EntryIncomplete(list, i) in ScanEntries(list, items).warnings <==>
      i < |items| && Incomplete(list, items[i])
  {
    if items != [] {
      var n := |items| - 1;
      ScanWarningsLast(list, items);
      ScanWarningsIff(list, items[..n]);
      ScanWarningsShape(list, items[..n]);
    }
  }

  // ---------------------------------------------------------------------
  // Which check reports what

  /** The arrays inside `basics.about`. */
  predicate AboutList(list: EntryList) {
    list == PersonalInfo || list == Traits || list == Highlights || list == QuoteValues || list == Tags
  }

  /** The arrays checked at the top level of the document. */
  predicate TopList(list: EntryList) {
    list == Work || list == Education || list == Skills || list == Projects
  }

  predicate OnAbout(d: Diagnostic) {
    || d.AboutNotObject?
    || d.QuoteTextRequired?
    || ((d.EntryIncomplete? || d.ColorNotString?) && AboutList(d.list))
  }

  /** What the profiles and `about` parts of the basics check report. */
  predicate OnBasicsArrays(d: Diagnostic) {
    OnAbout(d) || OnEntryOf(d, Profiles)
  }

  predicate OnArrays(d: Diagnostic) {
    d.NotAnArray? || ((d.EntryIncomplete? || d.ColorNotString?) && TopList(d.list))
  }

  lemma ListShape(list: EntryList, v: Json)
    ensures OnEntries(ListCheck(list, v), list)
  {
    if v.Arr? {
      ScanShape(list, v.items);
    }
  }

  predicate AllOnAbout(o: Outcome) {
    (forall d | d in o.errors :: OnAbout(d)) && (forall d | d in o.warnings :: OnAbout(d))
  }

  lemma AboutListShape(list: EntryList, v: Json)
    requires AboutList(list)
    ensures AllOnAbout(ListCheck(list, v))
  {
    ListShape(list, v);
  }

  lemma ThenOnAbout(a: Outcome, b: Outcome)
    requires AllOnAbout(a) && AllOnAbout(b)
    ensures AllOnAbout(Then(a, b))
  {
  }

  lemma AboutShape(about: Json)
    ensures AllOnAbout(AboutCheck(about))
  {
    if Truthy(about) && IsObjectType(about) {
      var personal := ListCheck(PersonalInfo, Get(about, "personalInfo"));
      var traits := ListCheck(Traits, Get(about, "traits"));
      var highlights := ListCheck(Highlights, Get(about, "highlights"));
      var quote := QuoteCheck(Get(about, "quote"));
      var tags := ListCheck(Tags, Get(about, "tags"));
      AboutListShape(PersonalInfo, Get(about, "personalInfo"));
      AboutListShape(Traits, Get(about, "traits"));
      AboutListShape(Highlights, Get(about, "highlights"));
      AboutListShape(Tags, Get(about, "tags"));
      var q := Get(about, "quote");
      if Truthy(q) {
        AboutListShape(QuoteValues, Get(q, "values"));
        ThenOnAbout(Errors(if IsNonEmptyString(Get(q, "text")) then [] else [QuoteTextRequired]),
                    ListCheck(QuoteValues, Get(q, "values")));
      }
      assert AllOnAbout(quote);
      ThenOnAbout(personal, traits);
      ThenOnAbout(Then(personal, traits), highlights);
      ThenOnAbout(Then(Then(personal, traits), highlights), quote);
      ThenOnAbout(Then(Then(Then(personal, traits), highlights), quote), tags);
    }
  }

  lemma BasicsFieldShape(basics: Json)
    requires !Nullish(basics)
    ensures forall d | d in BasicsFieldErrors(basics) :: d.RequiredString? || d.NotAString?
  {
  }

  /** The basics check: its scalar-field errors come first, and everything
      after them is about profiles or `about`. */
  lemma BasicsShape(basics: Json)
    ensures Truthy(basics) ==> BasicsFieldErrors(basics) <= BasicsCheck(basics).errors
    ensures var fields := if Truthy(basics) then |BasicsFieldErrors(basics)| else 0;
      forall d | d in BasicsCheck(basics).errors[fields..] :: OnBasicsArrays(d)
    ensures forall d | d in BasicsCheck(basics).warnings :: OnBasicsArrays(d)
    ensures forall d | d in BasicsCheck(basics).errors :: d.RequiredString? || d.NotAString? || OnBasicsArrays(d)
  {
    if Truthy(basics) {
      var fields := Errors(BasicsFieldErrors(basics));
      var profiles := ListCheck(Profiles, Get(basics, "profiles"));
      ListShape(Profiles, Get(basics, "profiles"));
      var about := Get(basics, "about");
      var aboutCheck := if Truthy(about) then AboutCheck(about) else Nothing;
      AboutShape(about);
      var after := Then(profiles, aboutCheck);
      ThenMembers(profiles, aboutCheck);
      assert forall d | d in after.errors :: OnBasicsArrays(d);
      assert forall d | d in after.warnings :: OnBasicsArrays(d);
      assert BasicsCheck(basics) == Then(Then(fields, profiles), aboutCheck);
      ThenAssociative(fields, profiles, aboutCheck);
      assert BasicsCheck(basics).errors == fields.errors + after.errors;
      assert BasicsCheck(basics).errors[|fields.errors|..] == after.errors;
      BasicsFieldShape(basics);
    }
  }

  lemma ArraysShape(data: Json)
    requires !Nullish(data)
    ensures forall d | d in OptionalArraysCheck(data).errors :: OnArrays(d)
    ensures forall d | d in OptionalArraysCheck(data).warnings :: OnArrays(d)
  {
    ArrayTypeErrorsMeaning(data, ArrayFields);
    ListShape(Work, Get(data, "work"));
    ListShape(Education, Get(data, "education"));
    ListShape(Skills, Get(data, "skills"));
    ListShape(Projects, Get(data, "projects"));
    ArraysShapeOf(ArrayTypeErrors(data, ArrayFields), ListCheck(Work, Get(data, "work")),
      ListCheck(Education, Get(data, "education")), ListCheck(Skills, Get(data, "skills")),
      ListCheck(Projects, Get(data, "projects")));
  }

  lemma ArraysShapeOf(types: seq<Diagnostic>, work: Outcome, education: Outcome, skills: Outcome, projects: Outcome)
    requires forall d | d in types :: d.NotAnArray?
    requires OnEntries(work, Work) && OnEntries(education, Education)
    requires OnEntries(skills, Skills) && OnEntries(projects, Projects)
    ensures var all := Then(Then(Then(Then(Errors(types), work), education), skills), projects);
      && (forall d | d in all.errors :: OnArrays(d))
      && (forall d | d in all.warnings :: OnArrays(d))
  {
    ThenMembers(Errors(types), work);
    ThenMembers(Then(Errors(types), work), education);
    ThenMembers(Then(Then(Errors(types), work), education), skills);
    ThenMembers(Then(Then(Then(Errors(types), work), education), skills), projects);
  }

  lemma ImagesShape(images: Json)
    ensures OnEntries(ImagesCheck(images), ImageList)
  {
    if Truthy(images) {
      ListShape(ImageList, Get(images, "list"));
    }
  }

  /** A present field among `fields` that is not an array gives an error
      naming it; nothing else is reported, and each field at most once. */
  lemma {:induction false} ArrayTypeErrorsMeaning(data: Json, fields: seq<string>)
    requires !Nullish(data)
    ensures forall d | d in ArrayTypeErrors(data, fields) :: d.NotAnArray? && d.field in fields
    ensures forall f :: NotAnArray(f) in ArrayTypeErrors(data, fields) <==>
      f in fields && Truthy(Get(data, f)) && !Get(data, f).Arr?
    ensures |ArrayTypeErrors(data, fields)| <= |fields|
  {
    if fields != [] {
      var n := |fields| - 1;
      ArrayTypeErrorsMeaning(data, fields[..n]);
      assert fields == fields[..n] + [fields[n]];
    }
  }

  // ---------------------------------------------------------------------
  // The whole walk

  /** Five checks in a row whose first two never throw. */
  lemma Chain(s: Outcome, l: Outcome, b: Outcome, a: Outcome, i: Outcome)
    requires s.completion.Normal? && l.completion.Normal?
    ensures var rest := if b.completion.Throw? then Nothing else Then(a, i);
      var all := Then(Then(Then(Then(s, l), b), a), i);
      && all.errors == s.errors + l.errors + b.errors + rest.errors
      && all.warnings == s.warnings + l.warnings + b.warnings + rest.warnings
      && all.completion == if b.completion.Throw? then b.completion else rest.completion
  {
  }

  /** On an object document whose layout can be printed, the structure and
      layout checks run and never throw; then the basics check runs, and the
      array and image checks run unless the basics check threw. */
  lemma WalkOfObject(data: Json)
    requires Truthy(data) && IsObjectType(data)
    requires !StringConversionThrows(Get(data, "pageLayout"))
    ensures var basics := BasicsCheck(Get(data, "basics"));
      var rest := if basics.completion.Throw? then Nothing
                  else Then(OptionalArraysCheck(data), ImagesCheck(Get(data, "images")));
      var structure := BasicStructureCheck(data);
      var layout := PageLayoutCheck(Get(data, "pageLayout"));
      && Walk(data).errors == structure.errors + layout.errors + basics.errors + rest.errors
      && Walk(data).warnings == structure.warnings + layout.warnings + basics.warnings + rest.warnings
      && Walk(data).completion == if basics.completion.Throw? then basics.completion else rest.completion
  {
    var structure := BasicStructureCheck(data);
    var layout := PageLayoutCheck(Get(data, "pageLayout"));
    var basics := BasicsCheck(Get(data, "basics"));
    var arrays := OptionalArraysCheck(data);
    var images := ImagesCheck(Get(data, "images"));
    assert structure.completion.Normal? && layout.completion.Normal?;
    assert Walk(data) == Then(Then(Then(Then(structure, layout), basics), arrays), images);
    Chain(structure, layout, basics, arrays, images);
  }

  /** A layout that cannot be converted to a string ends the walk right
      after the structure check: the result is the structure check's error,
      if any, and the abort, with no warning. */
  lemma LayoutThrowAborts(data: Json)
    requires Truthy(data) && IsObjectType(data)
    ensures StringConversionThrows(Get(data, "pageLayout")) ==>
      && Walk(data).completion == Throw(LayoutNotPrintable)
      && Validation(data).errors == BasicStructureCheck(data).errors + [Aborted(LayoutNotPrintable)]
      && Validation(data).warnings == []
  {
    var l := Get(data, "pageLayout");
    if StringConversionThrows(l) {
      assert l.Obj? || l.Arr?;
      var structure := BasicStructureCheck(data);
      var layout := PageLayoutCheck(l);
      assert layout == Outcome([], [], Throw(LayoutNotPrintable));
      assert Then(structure, layout) == Outcome(structure.errors, [], Throw(LayoutNotPrintable));
    }
  }

  /** When the layout cannot be printed, no section but the structure's and
      the abort's has anything in it. */
  lemma LayoutThrowSelect(data: Json, s: Section)
    requires Truthy(data) && IsObjectType(data)
    requires StringConversionThrows(Get(data, "pageLayout"))
    requires s != StructureSection && s != AbortSection
    ensures Select(Validation(data).errors, s) == [] && Select(Validation(data).warnings, s) == []
  {
    LayoutThrowAborts(data);
    SelectOutside(Validation(data).errors, s);
  }

  /** The page layout rules, on the whole result: a missing (falsy) layout
      gives exactly one warning and no error, `"single"` and `"two"` give no
      diagnostic, and any other value gives exactly one error carrying it,
      unless the value cannot be converted to a string for that error's
      message. Such a layout aborts the walk right there: the result is the
      structure check's error, if any, then the abort, and no warning. */
  lemma PageLayoutRules(data: Json)
    requires Truthy(data) && IsObjectType(data)
    ensures var layout := Get(data, "pageLayout");
      var r := Validation(data);
      && Select(r.warnings, LayoutSection) == (if !Truthy(layout) then [LayoutUnspecified] else [])
      && Select(r.errors, LayoutSection) ==
           (if Truthy(layout) && layout != Str("single") && layout != Str("two") && !StringConversionThrows(layout)
            then [InvalidLayout(layout)] else [])
    ensures StringConversionThrows(Get(data, "pageLayout")) ==>
      && Validation(data).errors == (if Truthy(Get(data, "basics")) then [] else [MissingBasics]) + [Aborted(LayoutNotPrintable)]
      && Validation(data).warnings == []
  {
    LayoutThrowAborts(data);
    if StringConversionThrows(Get(data, "pageLayout")) {
      assert Get(data, "pageLayout").Obj? || Get(data, "pageLayout").Arr?;
      LayoutThrowSelect(data, LayoutSection);
    } else {
      var structure := BasicStructureCheck(data);
      var layout := PageLayoutCheck(Get(data, "pageLayout"));
      HeadAndTail(data);
      AfterLayoutOutside(data, LayoutSection);
      HeadPieces(data);
      var basics := BasicsCheck(Get(data, "basics"));
      var rest := if basics.completion.Throw? then Nothing
                  else Then(OptionalArraysCheck(data), ImagesCheck(Get(data, "images")));
      var w := Walk(data);
      var tail := if w.completion.Throw? then [Aborted(w.completion.cause)] else [];
      OnlyHead(Validation(data), structure, layout, basics, rest, tail, LayoutSection,
               Select(structure.errors, LayoutSection) + Select(layout.errors, LayoutSection),
               Select(structure.warnings, LayoutSection) + Select(layout.warnings, LayoutSection));
    }
  }

  /** A layout object with an own `toString` key: its error message cannot
      be built, so the work field that is no array is never checked and the
      result is the abort alone. */
  lemma UnprintableLayoutExample()
    ensures var data := Obj(map[
      "basics" := Obj(map["name" := Str("A"), "label" := Str("B")]),
      "pageLayout" := Obj(map["toString" := Num(0.0)]),
      "work" := Str("x")]);
      && !Validation(data).isValid
      && Validation(data).errors == [Aborted(LayoutNotPrintable)]
      && Validation(data).warnings == []
  {
    var data := Obj(map[
      "basics" := Obj(map["name" := Str("A"), "label" := Str("B")]),
      "pageLayout" := Obj(map["toString" := Num(0.0)]),
      "work" := Str("x")]);
    assert Get(data, "pageLayout") == Obj(map["toString" := Num(0.0)]);
    assert Truthy(Get(data, "basics"));
    PageLayoutRules(data);
  }

  /** What the structure and layout checks report in their own sections. */
  lemma HeadPieces(data: Json)
    requires Truthy(data) && IsObjectType(data)
    ensures var structure := BasicStructureCheck(data);
      var layout := PageLayoutCheck(Get(data, "pageLayout"));
      var l := Get(data, "pageLayout");
      && Select(structure.errors, LayoutSection) + Select(layout.errors, LayoutSection) ==
           (if Truthy(l) && l != Str("single") && l != Str("two") && !StringConversionThrows(l)
            then [InvalidLayout(l)] else [])
      && Select(structure.warnings, LayoutSection) + Select(layout.warnings, LayoutSection) ==
           (if !Truthy(l) then [LayoutUnspecified] else [])
      && Select(structure.errors, StructureSection) + Select(layout.errors, StructureSection) ==
           (if !Truthy(Get(data, "basics")) then [MissingBasics] else [])
      && Select(structure.warnings, StructureSection) + Select(layout.warnings, StructureSection) == []
  {
    var structure := BasicStructureCheck(data);
    var layout := PageLayoutCheck(Get(data, "pageLayout"));
    assert structure.warnings == [] && Select(structure.errors, LayoutSection) == [];
    assert Select(layout.errors, StructureSection) == [] && Select(layout.warnings, StructureSection) == [];
  }

  /** In a result split as `HeadAndTail` splits it, a section nothing after
      the layout check reports in holds what the first two checks report. */
  lemma OnlyHead(r: ValidationResult, structure: Outcome, layout: Outcome, basics: Outcome, rest: Outcome,
                 tail: seq<Diagnostic>, s: Section, e: seq<Diagnostic>, w: seq<Diagnostic>)
    requires r.errors == (structure.errors + layout.errors) + (basics.errors + rest.errors + tail)
    requires r.warnings == (structure.warnings + layout.warnings) + (basics.warnings + rest.warnings)
    requires Select(basics.errors + rest.errors + tail, s) == [] && Select(basics.warnings + rest.warnings, s) == []
    requires Select(structure.errors, s) + Select(layout.errors, s) == e
    requires Select(structure.warnings, s) + Select(layout.warnings, s) == w
    ensures Select(r.errors, s) == e && Select(r.warnings, s) == w
  {
    SelectOfResult(r, structure, layout, basics, rest, tail, s);
    assert e + [] == e && w + [] == w;
  }

  /** The result of validating an object document, split after the layout check. */
  lemma HeadAndTail(data: Json)
    requires Truthy(data) && IsObjectType(data)
    requires !StringConversionThrows(Get(data, "pageLayout"))
    ensures var basics := BasicsCheck(Get(data, "basics"));
      var rest := if basics.completion.Throw? then Nothing
                  else Then(OptionalArraysCheck(data), ImagesCheck(Get(data, "images")));
      var structure := BasicStructureCheck(data);
      var layout := PageLayoutCheck(Get(data, "pageLayout"));
      var w := Walk(data);
      var tail := if w.completion.Throw? then [Aborted(w.completion.cause)] else [];
      var r := Validation(data);
      && r.errors == (structure.errors + layout.errors) + (basics.errors + rest.errors + tail)
      && r.warnings == (structure.warnings + layout.warnings) + (basics.warnings + rest.warnings)
  {
    WalkOfObject(data);
    ValidationOfWalk(data);
    var basics := BasicsCheck(Get(data, "basics"));
    var rest := if basics.completion.Throw? then Nothing
                else Then(OptionalArraysCheck(data), ImagesCheck(Get(data, "images")));
    var structure := BasicStructureCheck(data);
    var layout := PageLayoutCheck(Get(data, "pageLayout"));
    var w := Walk(data);
    Regroup(w, structure, layout, basics, rest, if w.completion.Throw? then [Aborted(w.completion.cause)] else []);
  }

  /** Validation records the walk's errors, then the abort if the walk threw. */
  lemma ValidationOfWalk(data: Json)
    ensures var w := Walk(data);
      Validation(data).errors == w.errors + (if w.completion.Throw? then [Aborted(w.completion.cause)] else [])
  {
  }

  lemma Regroup(w: Outcome, a: Outcome, b: Outcome, c: Outcome, d: Outcome, e: seq<Diagnostic>)
    requires w.errors == a.errors + b.errors + c.errors + d.errors
    requires w.warnings == a.warnings + b.warnings + c.warnings + d.warnings
    ensures w.errors + e == (a.errors + b.errors) + (c.errors + d.errors + e)
    ensures w.warnings == (a.warnings + b.warnings) + (c.warnings + d.warnings)
  {
  }

  // Bookkeeping: regrouping chained checks; no rule of the validator here.
  lemma ThenAssociative(a: Outcome, b: Outcome, c: Outcome)
    ensures Then(Then(a, b), c) == Then(a, Then(b, c))
  {
    if a.completion.Normal? && b.completion.Normal? {
      assert (a.errors + b.errors) + c.errors == a.errors + (b.errors + c.errors);
      assert (a.warnings + b.warnings) + c.warnings == a.warnings + (b.warnings + c.warnings);
    }
  }

  lemma ThenMembers(a: Outcome, b: Outcome)
    ensures forall d | d in Then(a, b).errors :: d in a.errors || d in b.errors
    ensures forall d | d in Then(a, b).warnings :: d in a.warnings || d in b.warnings
  {
  }

  /** What the checks after the layout check, and the final abort, report. */
  predicate AfterLayout(d: Diagnostic) {
    d.RequiredString? || d.NotAString? || OnBasicsArrays(d) || OnArrays(d) || OnEntryOf(d, ImageList) || d.Aborted?
  }

  lemma AfterLayoutSelect(ds: seq<Diagnostic>, s: Section)
    requires s == StructureSection || s == LayoutSection
    requires forall d | d in ds :: AfterLayout(d)
    ensures Select(ds, s) == []
  {
    SelectOutside(ds, s);
  }

  /** Nothing that runs after the layout check reports in the structure or
      layout sections. */
  lemma AfterLayoutOutside(data: Json, s: Section)
    requires Truthy(data) && IsObjectType(data)
    requires s == StructureSection || s == LayoutSection
    ensures var basics := BasicsCheck(Get(data, "basics"));
      var rest := if basics.completion.Throw? then Nothing
                  else Then(OptionalArraysCheck(data), ImagesCheck(Get(data, "images")));
      var w := Walk(data);
      var tail := if w.completion.Throw? then [Aborted(w.completion.cause)] else [];
      && Select(basics.errors + rest.errors + tail, s) == []
      && Select(basics.warnings + rest.warnings, s) == []
  {
    var basics := BasicsCheck(Get(data, "basics"));
    var arrays := OptionalArraysCheck(data);
    var images := ImagesCheck(Get(data, "images"));
    BasicsShape(Get(data, "basics"));
    ArraysShape(data);
    ImagesShape(Get(data, "images"));
    ThenMembers(arrays, images);
    var rest := if basics.completion.Throw? then Nothing else Then(arrays, images);
    var w := Walk(data);
    var tail := if w.completion.Throw? then [Aborted(w.completion.cause)] else [];
    assert forall d | d in basics.errors + rest.errors + tail :: AfterLayout(d);
    assert forall d | d in basics.warnings + rest.warnings :: AfterLayout(d);
    AfterLayoutSelect(basics.errors + rest.errors + tail, s);
    AfterLayoutSelect(basics.warnings + rest.warnings, s);
  }

  // ---------------------------------------------------------------------
  // The rules, stated on the whole validation result

  lemma SelectAll(ds: seq<Diagnostic>, s: Section)
    requires forall d | d in ds :: SectionOf(d) == s
    ensures Select(ds, s) == ds
  {
    if ds != [] {
      assert ds == [ds[0]] + ds[1..];
      SelectAll(ds[1..], s);
    }
  }

  /** A root that is falsy or not an object gives exactly one (generic)
      error and no warning. */
  lemma NonObjectRoot(data: Json)
    requires !Truthy(data) || !IsObjectType(data)
    ensures Validation(data) == ValidationResult(false, [Aborted(RootNotObject)], [])
  {
    assert Walk(data) == Outcome([], [], Throw(RootNotObject));
  }

  /** The diagnostics of one section in a result split as `HeadAndTail` splits it. */
  lemma SelectOfResult(r: ValidationResult, structure: Outcome, layout: Outcome, basics: Outcome, rest: Outcome,
                       tail: seq<Diagnostic>, s: Section)
    requires r.errors == (structure.errors + layout.errors) + (basics.errors + rest.errors + tail)
    requires r.warnings == (structure.warnings + layout.warnings) + (basics.warnings + rest.warnings)
    ensures Select(r.errors, s) == Select(structure.errors, s) + Select(layout.errors, s) + Select(basics.errors + rest.errors + tail, s)
    ensures Select(r.warnings, s) == Select(structure.warnings, s) + Select(layout.warnings, s) + Select(basics.warnings + rest.warnings, s)
  {
    SelectAppend(structure.errors + layout.errors, basics.errors + rest.errors + tail, s);
    SelectAppend(structure.errors, layout.errors, s);
    SelectAppend(structure.warnings + layout.warnings, basics.warnings + rest.warnings, s);
    SelectAppend(structure.warnings, layout.warnings, s);
  }

  /** The structure rule: an object document lacks a (truthy) `basics`
      exactly when the missing-basics error is reported, and then it is the
      first error. */
  lemma StructureRules(data: Json)
    requires Truthy(data) && IsObjectType(data)
    ensures var r := Validation(data);
      && Select(r.errors, StructureSection) == (if !Truthy(Get(data, "basics")) then [MissingBasics] else [])
      && Select(r.warnings, StructureSection) == []
      && (!Truthy(Get(data, "basics")) ==> !r.isValid && r.errors[0] == MissingBasics)
  {
    if StringConversionThrows(Get(data, "pageLayout")) {
      StructureRulesAborted(data);
    } else {
      StructureRulesWalked(data);
    }
  }

  /** The structure rule when the layout aborts the walk. */
  lemma StructureRulesAborted(data: Json)
    requires Truthy(data) && IsObjectType(data)
    requires StringConversionThrows(Get(data, "pageLayout"))
    ensures var r := Validation(data);
      && Select(r.errors, StructureSection) == (if !Truthy(Get(data, "basics")) then [MissingBasics] else [])
      && Select(r.warnings, StructureSection) == []
      && (!Truthy(Get(data, "basics")) ==> !r.isValid && r.errors[0] == MissingBasics)
  {
    LayoutThrowAborts(data);
    var structure := BasicStructureCheck(data);
    SelectAll(structure.errors, StructureSection);
    SelectAppend(structure.errors, [Aborted(LayoutNotPrintable)], StructureSection);
  }

  /** The structure rule when the walk gets past the layout. */
  lemma StructureRulesWalked(data: Json)
    requires Truthy(data) && IsObjectType(data)
    requires !StringConversionThrows(Get(data, "pageLayout"))
    ensures var r := Validation(data);
      && Select(r.errors, StructureSection) == (if !Truthy(Get(data, "basics")) then [MissingBasics] else [])
      && Select(r.warnings, StructureSection) == []
      && (!Truthy(Get(data, "basics")) ==> !r.isValid && r.errors[0] == MissingBasics)
  {
    var structure := BasicStructureCheck(data);
    var layout := PageLayoutCheck(Get(data, "pageLayout"));
    HeadAndTail(data);
    AfterLayoutOutside(data, StructureSection);
    HeadPieces(data);
    var basics := BasicsCheck(Get(data, "basics"));
    var rest := if basics.completion.Throw? then Nothing
                else Then(OptionalArraysCheck(data), ImagesCheck(Get(data, "images")));
    var w := Walk(data);
    var tail := if w.completion.Throw? then [Aborted(w.completion.cause)] else [];
    OnlyHead(Validation(data), structure, layout, basics, rest, tail, StructureSection,
             Select(structure.errors, StructureSection) + Select(layout.errors, StructureSection),
             Select(structure.warnings, StructureSection) + Select(layout.warnings, StructureSection));
    if !Truthy(Get(data, "basics")) {
      assert structure.errors == [MissingBasics];
      FirstOfResult(Validation(data), structure, layout, basics, rest, tail);
    }
  }

  lemma FirstOfResult(r: ValidationResult, structure: Outcome, layout: Outcome, basics: Outcome, rest: Outcome,
                      tail: seq<Diagnostic>)
    requires r.errors == (structure.errors + layout.errors) + (basics.errors + rest.errors + tail)
    requires structure.errors == [MissingBasics]
    requires r.isValid <==> r.errors == []
    ensures !r.isValid && r.errors[0] == MissingBasics
  {
  }

  // Bookkeeping: whether a chain of checks ran to its end; no rule of the
  // validator here.
  lemma ThenNormal(a: Outcome, b: Outcome)
    ensures Then(a, b).completion.Normal? <==> a.completion.Normal? && b.completion.Normal?
  {
  }

  /** Four checks after a first one that never throws. */
  lemma ThenFirst(a: Outcome, b: Outcome, c: Outcome, d: Outcome, e: Outcome)
    requires a.completion.Normal?
    ensures var after := Then(Then(Then(b, c), d), e);
      var all := Then(Then(Then(Then(a, b), c), d), e);
      && all.errors == a.errors + after.errors
      && all.warnings == a.warnings + after.warnings
      && all.completion == after.completion
  {
    ThenAssociative(a, b, c);
    ThenAssociative(a, Then(b, c), d);
    ThenAssociative(a, Then(Then(b, c), d), e);
  }

  predicate OnTopEntries(d: Diagnostic) {
    (d.EntryIncomplete? || d.ColorNotString?) && TopList(d.list)
  }

  /** The array checks: the type errors of the six fields come first, and
      everything after them is about entries of the four inspected arrays. */
  lemma ArraysSplit(data: Json)
    requires !Nullish(data)
    ensures var arrays := OptionalArraysCheck(data);
      var types := ArrayTypeErrors(data, ArrayFields);
      && types <= arrays.errors
      && (forall d | d in arrays.errors[|types|..] :: OnTopEntries(d))
      && (forall d | d in arrays.warnings :: OnTopEntries(d))
  {
    var work := ListCheck(Work, Get(data, "work"));
    var education := ListCheck(Education, Get(data, "education"));
    var skills := ListCheck(Skills, Get(data, "skills"));
    var projects := ListCheck(Projects, Get(data, "projects"));
    ListShape(Work, Get(data, "work"));
    ListShape(Education, Get(data, "education"));
    ListShape(Skills, Get(data, "skills"));
    ListShape(Projects, Get(data, "projects"));
    TopWalks(work, education, skills, projects);
    var types := ArrayTypeErrors(data, ArrayFields);
    ThenFirst(Errors(types), work, education, skills, projects);
    var after := Then(Then(Then(work, education), skills), projects);
    assert OptionalArraysCheck(data).errors[|types|..] == after.errors;
  }

  /** The four top-level walks, one after another, report only on their entries. */
  lemma TopWalks(work: Outcome, education: Outcome, skills: Outcome, projects: Outcome)
    requires OnEntries(work, Work) && OnEntries(education, Education)
    requires OnEntries(skills, Skills) && OnEntries(projects, Projects)
    ensures var after := Then(Then(Then(work, education), skills), projects);
      && (forall d | d in after.errors :: OnTopEntries(d))
      && (forall d | d in after.warnings :: OnTopEntries(d))
  {
    ThenMembers(work, education);
    ThenMembers(Then(work, education), skills);
    ThenMembers(Then(Then(work, education), skills), projects);
  }

  /** Sections the basics check never reports in. */
  lemma BasicsOutside(ds: seq<Diagnostic>, s: Section)
    requires forall d | d in ds :: d.RequiredString? || d.NotAString? || OnBasicsArrays(d)
    requires s != BasicsFieldSection && s != AboutSection
    requires s.EntrySection? ==> !AboutList(s.list) && s.list != Profiles
    ensures Select(ds, s) == []
  {
    SelectOutside(ds, s);
  }

  lemma TopEntriesOutside(ds: seq<Diagnostic>, s: Section)
    requires forall d | d in ds :: OnTopEntries(d)
    requires s.EntrySection? ==> !TopList(s.list)
    ensures Select(ds, s) == []
  {
    SelectOutside(ds, s);
  }

  lemma EntriesOutside(o: Outcome, list: EntryList, s: Section)
    requires OnEntries(o, list)
    requires s != EntrySection(list)
    ensures Select(o.errors, s) == [] && Select(o.warnings, s) == []
  {
    SelectOutside(o.errors, s);
    SelectOutside(o.warnings, s);
  }

  // Bookkeeping: `Select` over three concatenated lists.
  lemma SelectThree(a: seq<Diagnostic>, b: seq<Diagnostic>, c: seq<Diagnostic>, s: Section)
    ensures Select(a + b + c, s) == Select(a, s) + Select(b, s) + Select(c, s)
  {
    SelectAppend(a + b, c, s);
    SelectAppend(a, b, s);
  }

  /** The diagnostics of one section reported after the basics check. */
  lemma SelectOfRest(arrays: Outcome, images: Outcome, s: Section)
    ensures var rest := Then(arrays, images);
      && Select(rest.errors, s) == Select(arrays.errors, s) + (if arrays.completion.Throw? then [] else Select(images.errors, s))
      && Select(rest.warnings, s) == Select(arrays.warnings, s) + (if arrays.completion.Throw? then [] else Select(images.warnings, s))
  {
    if !arrays.completion.Throw? {
      SelectAppend(arrays.errors, images.errors, s);
      SelectAppend(arrays.warnings, images.warnings, s);
    } else {
      assert Then(arrays, images) == arrays;
    }
  }

  /** After the layout check, the not-an-array errors are the array check's
      type errors, unless the basics check threw first. */
  lemma ArrayTypesAfterLayout(basics: Outcome, arrays: Outcome, images: Outcome, types: seq<Diagnostic>,
                              tail: seq<Diagnostic>)
    requires Select(basics.errors, ArrayTypeSection) == [] && Select(basics.warnings, ArrayTypeSection) == []
    requires Select(tail, ArrayTypeSection) == []
    requires Select(types, ArrayTypeSection) == types
    requires types <= arrays.errors
    requires Select(arrays.errors[|types|..], ArrayTypeSection) == [] && Select(arrays.warnings, ArrayTypeSection) == []
    requires Select(images.errors, ArrayTypeSection) == [] && Select(images.warnings, ArrayTypeSection) == []
    ensures var rest := if basics.completion.Throw? then Nothing else Then(arrays, images);
      && Select(basics.errors + rest.errors + tail, ArrayTypeSection) == (if basics.completion.Throw? then [] else types)
      && Select(basics.warnings + rest.warnings, ArrayTypeSection) == []
  {
    var rest := if basics.completion.Throw? then Nothing else Then(arrays, images);
    SelectThree(basics.errors, rest.errors, tail, ArrayTypeSection);
    SelectAppend(basics.warnings, rest.warnings, ArrayTypeSection);
    if !basics.completion.Throw? {
      ArrayTypesOfArrays(arrays, types);
      SelectOfRest(arrays, images, ArrayTypeSection);
    }
  }

  lemma ArrayTypesOfArrays(arrays: Outcome, types: seq<Diagnostic>)
    requires Select(types, ArrayTypeSection) == types
    requires types <= arrays.errors
    requires Select(arrays.errors[|types|..], ArrayTypeSection) == []
    ensures Select(arrays.errors, ArrayTypeSection) == types
  {
    var entries := arrays.errors[|types|..];
    assert arrays.errors == types + entries;
    SelectAppend(types, entries, ArrayTypeSection);
  }

  /** The array-type rule on the whole result: unless the walk stopped at
      an unprintable layout or inside `basics`, the not-an-array errors are
      exactly those of the six fields, in their order; array-type problems
      are never warnings. */
  lemma ArrayTypeRules(data: Json)
    requires Truthy(data) && IsObjectType(data)
    ensures var r := Validation(data);
      && Select(r.errors, ArrayTypeSection) ==
           (if StringConversionThrows(Get(data, "pageLayout")) || BasicsCheck(Get(data, "basics")).completion.Throw?
            then [] else ArrayTypeErrors(data, ArrayFields))
      && Select(r.errors, ArrayTypeSection) <= ArrayTypeErrors(data, ArrayFields)
      && Select(r.warnings, ArrayTypeSection) == []
  {
    LayoutThrowAborts(data);
    if StringConversionThrows(Get(data, "pageLayout")) {
      LayoutThrowSelect(data, ArrayTypeSection);
    } else {
      var structure := BasicStructureCheck(data);
      var layout := PageLayoutCheck(Get(data, "pageLayout"));
      HeadAndTail(data);
      var basics := BasicsCheck(Get(data, "basics"));
      var arrays := OptionalArraysCheck(data);
      var images := ImagesCheck(Get(data, "images"));
      var types := ArrayTypeErrors(data, ArrayFields);
      var rest := if basics.completion.Throw? then Nothing else Then(arrays, images);
      var w := Walk(data);
      var tail := if w.completion.Throw? then [Aborted(w.completion.cause)] else [];
      HeadSelect(data, ArrayTypeSection);
      BasicsSelect(Get(data, "basics"), ArrayTypeSection);
      ImagesSelect(Get(data, "images"), ArrayTypeSection);
      ArraysSelect(data);
      AbortOutside(w.completion, ArrayTypeSection);
      ArrayTypesAfterLayout(basics, arrays, images, types, tail);
      OnlyTail(Validation(data), structure, layout, basics, rest, tail, ArrayTypeSection,
               if basics.completion.Throw? then [] else types);
      ChoicePrefix(basics.completion.Throw?, types);
    }
  }

  /** The abort recorded at the end is in no other section. */
  lemma AbortOutside(c: Completion, s: Section)
    requires s != AbortSection
    ensures Select(if c.Throw? then [Aborted(c.cause)] else [], s) == []
  {
  }

  lemma ChoicePrefix(b: bool, ds: seq<Diagnostic>)
    ensures (if b then [] else ds) <= ds
  {
  }

  /** In a result split as `HeadAndTail` splits it, a section the first two
      checks do not report in holds what the later checks report. */
  lemma OnlyTail(r: ValidationResult, structure: Outcome, layout: Outcome, basics: Outcome, rest: Outcome,
                 tail: seq<Diagnostic>, s: Section, e: seq<Diagnostic>)
    requires r.errors == (structure.errors + layout.errors) + (basics.errors + rest.errors + tail)
    requires r.warnings == (structure.warnings + layout.warnings) + (basics.warnings + rest.warnings)
    requires Select(structure.errors, s) == [] && Select(structure.warnings, s) == []
    requires Select(layout.errors, s) == [] && Select(layout.warnings, s) == []
    requires Select(basics.errors + rest.errors + tail, s) == e && Select(basics.warnings + rest.warnings, s) == []
    ensures Select(r.errors, s) == e && Select(r.warnings, s) == []
  {
    SelectOfResult(r, structure, layout, basics, rest, tail, s);
    assert [] + [] + e == e;
  }

  /** The structure and layout checks only report in their own sections. */
  lemma HeadSelect(data: Json, s: Section)
    requires !Nullish(data)
    requires s != StructureSection && s != LayoutSection
    ensures var structure := BasicStructureCheck(data);
      var layout := PageLayoutCheck(Get(data, "pageLayout"));
      && Select(structure.errors, s) == [] && Select(structure.warnings, s) == []
      && Select(layout.errors, s) == [] && Select(layout.warnings, s) == []
  {
  }

  /** Sections the basics check never reports in. */
  lemma BasicsSelect(basics: Json, s: Section)
    requires s != BasicsFieldSection && s != AboutSection
    requires s.EntrySection? ==> !AboutList(s.list) && s.list != Profiles
    ensures Select(BasicsCheck(basics).errors, s) == [] && Select(BasicsCheck(basics).warnings, s) == []
  {
    BasicsShape(basics);
    BasicsOutside(BasicsCheck(basics).errors, s);
    BasicsOutside(BasicsCheck(basics).warnings, s);
  }

  lemma ImagesSelect(images: Json, s: Section)
    requires s != EntrySection(ImageList)
    ensures Select(ImagesCheck(images).errors, s) == [] && Select(ImagesCheck(images).warnings, s) == []
  {
    ImagesShape(images);
    EntriesOutside(ImagesCheck(images), ImageList, s);
  }

  /** The array check reports its type errors first, then only entries. */
  lemma ArraysSelect(data: Json)
    requires !Nullish(data)
    ensures var arrays := OptionalArraysCheck(data);
      var types := ArrayTypeErrors(data, ArrayFields);
      && Select(types, ArrayTypeSection) == types
      && types <= arrays.errors
      && Select(arrays.errors[|types|..], ArrayTypeSection) == [] && Select(arrays.warnings, ArrayTypeSection) == []
  {
    ArraysSplit(data);
    ArrayTypeErrorsMeaning(data, ArrayFields);
    TypesFirst(OptionalArraysCheck(data), ArrayTypeErrors(data, ArrayFields));
  }

  lemma TypesFirst(arrays: Outcome, types: seq<Diagnostic>)
    requires forall d | d in types :: d.NotAnArray?
    requires types <= arrays.errors
    requires forall d | d in arrays.errors[|types|..] :: OnTopEntries(d)
    requires forall d | d in arrays.warnings :: OnTopEntries(d)
    ensures Select(types, ArrayTypeSection) == types
    ensures Select(arrays.errors[|types|..], ArrayTypeSection) == [] && Select(arrays.warnings, ArrayTypeSection) == []
  {
    var after := arrays.errors[|types|..];
    TopEntriesOutside(after, ArrayTypeSection);
    TopEntriesOutside(arrays.warnings, ArrayTypeSection);
    TypeErrorsSelected(types);
  }

  lemma TypeErrorsSelected(types: seq<Diagnostic>)
    requires forall d | d in types :: d.NotAnArray?
    ensures Select(types, ArrayTypeSection) == types
  {
    SelectAll(types, ArrayTypeSection);
  }

  /** What `RequiredStringError` and `OptionalStringError` report, field by
      field: `name` and `label` must be non-empty strings, and `email`, `url`
      and `theme`, when present, must be strings. */
  lemma BasicsFieldErrorsMeaning(basics: Json)
    requires !Nullish(basics)
    ensures forall f :: RequiredString(f) in BasicsFieldErrors(basics) <==>
      (f == "name" || f == "label") && !IsNonEmptyString(Get(basics, f))
    ensures forall f :: NotAString(f) in BasicsFieldErrors(basics) <==>
      (f == "email" || f == "url" || f == "theme") && Truthy(Get(basics, f)) && !Get(basics, f).Str?
    ensures forall d | d in BasicsFieldErrors(basics) :: d.RequiredString? || d.NotAString?
    ensures |BasicsFieldErrors(basics)| <= 5
  {
    var name := RequiredStringError(basics, "name");
    var title := RequiredStringError(basics, "label");
    var email := OptionalStringError(basics, "email");
    var url := OptionalStringError(basics, "url");
    var theme := OptionalStringError(basics, "theme");
    assert BasicsFieldErrors(basics) == name + title + email + url + theme;
    forall d
      ensures d in BasicsFieldErrors(basics) <==> d in name || d in title || d in email || d in url || d in theme
    {
    }
  }

  /** The basics check reports the field errors first and nothing else in
      that section. */
  lemma FieldsFirst(basics: Outcome, fields: seq<Diagnostic>)
    requires forall d | d in fields :: d.RequiredString? || d.NotAString?
    requires fields <= basics.errors
    requires forall d | d in basics.errors[|fields|..] :: OnBasicsArrays(d)
    requires forall d | d in basics.warnings :: OnBasicsArrays(d)
    ensures Select(basics.errors, BasicsFieldSection) == fields
    ensures Select(basics.warnings, BasicsFieldSection) == []
  {
    var others := basics.errors[|fields|..];
    assert basics.errors == fields + others;
    forall d | d in fields ensures SectionOf(d) == BasicsFieldSection {
    }
    SelectAll(fields, BasicsFieldSection);
    forall d | d in others ensures SectionOf(d) != BasicsFieldSection {
      assert OnBasicsArrays(d);
    }
    SelectOutside(others, BasicsFieldSection);
    SelectAppend(fields, others, BasicsFieldSection);
    SelectOutside(basics.warnings, BasicsFieldSection);
  }

  lemma BasicsFieldSelect(basics: Json)
    ensures Select(BasicsCheck(basics).errors, BasicsFieldSection) ==
      (if Truthy(basics) then BasicsFieldErrors(basics) else [])
    ensures Select(BasicsCheck(basics).warnings, BasicsFieldSection) == []
  {
    if Truthy(basics) {
      BasicsShape(basics);
      BasicsFieldShape(basics);
      FieldsFirst(BasicsCheck(basics), BasicsFieldErrors(basics));
    }
  }

  /** Sections the array check never reports in. */
  lemma ArraysOutside(data: Json, s: Section)
    requires !Nullish(data)
    requires s != ArrayTypeSection
    requires s.EntrySection? ==> !TopList(s.list)
    ensures Select(OptionalArraysCheck(data).errors, s) == [] && Select(OptionalArraysCheck(data).warnings, s) == []
  {
    ArraysShape(data);
    OutsideArrays(OptionalArraysCheck(data), s);
  }

  lemma OutsideArrays(o: Outcome, s: Section)
    requires forall d | d in o.errors :: OnArrays(d)
    requires forall d | d in o.warnings :: OnArrays(d)
    requires s != ArrayTypeSection
    requires s.EntrySection? ==> !TopList(s.list)
    ensures Select(o.errors, s) == [] && Select(o.warnings, s) == []
  {
    SelectOutside(o.errors, s);
    SelectOutside(o.warnings, s);
  }

  /** A section reported, in the whole result, only by the basics check. */
  lemma OnlyBasics(r: ValidationResult, structure: Outcome, layout: Outcome, basics: Outcome, arrays: Outcome,
                   images: Outcome, tail: seq<Diagnostic>, s: Section)
    requires var rest := if basics.completion.Throw? then Nothing else Then(arrays, images);
      && r.errors == (structure.errors + layout.errors) + (basics.errors + rest.errors + tail)
      && r.warnings == (structure.warnings + layout.warnings) + (basics.warnings + rest.warnings)
    requires Select(structure.errors, s) == [] && Select(structure.warnings, s) == []
    requires Select(layout.errors, s) == [] && Select(layout.warnings, s) == []
    requires Select(tail, s) == []
    requires Select(arrays.errors, s) == [] && Select(arrays.warnings, s) == []
    requires Select(images.errors, s) == [] && Select(images.warnings, s) == []
    ensures Select(r.errors, s) == Select(basics.errors, s)
    ensures Select(r.warnings, s) == Select(basics.warnings, s)
  {
    var rest := if basics.completion.Throw? then Nothing else Then(arrays, images);
    SelectOfResult(r, structure, layout, basics, rest, tail, s);
    SelectThree(basics.errors, rest.errors, tail, s);
    SelectAppend(basics.warnings, rest.warnings, s);
    SelectOfRest(arrays, images, s);
  }

  /** The basics field rules on the whole result: the errors about `name`,
      `label`, `email`, `url` and `theme` are exactly those the field checks
      give when `basics` is present and the walk got past the layout, and
      never warnings. */
  lemma BasicsFieldRules(data: Json)
    requires Truthy(data) && IsObjectType(data)
    ensures var r := Validation(data);
      var basics := Get(data, "basics");
      && Select(r.errors, BasicsFieldSection) == (if Truthy(basics) && !StringConversionThrows(Get(data, "pageLayout")) then BasicsFieldErrors(basics) else [])
      && Select(r.warnings, BasicsFieldSection) == []
  {
    LayoutThrowAborts(data);
    if StringConversionThrows(Get(data, "pageLayout")) {
      LayoutThrowSelect(data, BasicsFieldSection);
    } else {
      var structure := BasicStructureCheck(data);
      var layout := PageLayoutCheck(Get(data, "pageLayout"));
      HeadAndTail(data);
      var basics := BasicsCheck(Get(data, "basics"));
      var arrays := OptionalArraysCheck(data);
      var images := ImagesCheck(Get(data, "images"));
      var rest := if basics.completion.Throw? then Nothing else Then(arrays, images);
      var w := Walk(data);
      var tail := if w.completion.Throw? then [Aborted(w.completion.cause)] else [];
      var r := Validation(data);
      HeadSelect(data, BasicsFieldSection);
      ArraysOutside(data, BasicsFieldSection);
      ImagesSelect(Get(data, "images"), BasicsFieldSection);
      AbortOutside(w.completion, BasicsFieldSection);
      OnlyBasics(r, structure, layout, basics, arrays, images, tail, BasicsFieldSection);
      BasicsFieldSelect(Get(data, "basics"));
    }
  }

  /** The sections only the basics check reports in: in the whole result
      they hold what the basics check reports. */
  lemma BasicsSections(data: Json, s: Section)
    requires Truthy(data) && IsObjectType(data)
    requires s == AboutSection || (s.EntrySection? && (AboutList(s.list) || s.list == Profiles))
    requires !StringConversionThrows(Get(data, "pageLayout"))
    ensures Select(Validation(data).errors, s) == Select(BasicsCheck(Get(data, "basics")).errors, s)
    ensures Select(Validation(data).warnings, s) == Select(BasicsCheck(Get(data, "basics")).warnings, s)
  {
    var structure := BasicStructureCheck(data);
    var layout := PageLayoutCheck(Get(data, "pageLayout"));
    HeadAndTail(data);
    var basics := BasicsCheck(Get(data, "basics"));
    var arrays := OptionalArraysCheck(data);
    var images := ImagesCheck(Get(data, "images"));
    var w := Walk(data);
    var tail := if w.completion.Throw? then [Aborted(w.completion.cause)] else [];
    HeadSelect(data, s);
    ArraysOutside(data, s);
    ImagesSelect(Get(data, "images"), s);
    AbortOutside(w.completion, s);
    OnlyBasics(Validation(data), structure, layout, basics, arrays, images, tail, s);
  }

  /** A missing `basics` does not stop the other checks: the layout rules
      and, unless the layout cannot be printed, the array-type rule still
      hold in full, and, unless the walk aborted, so do the entry rules of
      the top-level arrays and of the image list. */
  lemma MissingBasicsStillChecks(data: Json)
    requires Truthy(data) && IsObjectType(data)
    requires !Truthy(Get(data, "basics"))
    ensures var r := Validation(data);
      var layout := Get(data, "pageLayout");
      && !r.isValid && r.errors[0] == MissingBasics
      && Select(r.errors, ArrayTypeSection) ==
           (if StringConversionThrows(layout) then [] else ArrayTypeErrors(data, ArrayFields))
      && Select(r.warnings, LayoutSection) == (if !Truthy(layout) then [LayoutUnspecified] else [])
      && Select(r.errors, LayoutSection) ==
           (if Truthy(layout) && layout != Str("single") && layout != Str("two") && !StringConversionThrows(layout)
            then [InvalidLayout(layout)] else [])
    ensures (forall d | d in Validation(data).errors :: !d.Aborted?) ==>
      && (forall list | TopList(list) ::
            Select(Validation(data).errors, EntrySection(list)) == ListCheck(list, Get(data, TopKey(list))).errors)
      && Select(Validation(data).errors, EntrySection(ImageList)) ==
           ListCheck(ImageList, ImageListOf(Get(data, "images"))).errors
      && (forall i: nat :: EntryIncomplete(ImageList, i) in Validation(data).errors <==>
            var l := ImageListOf(Get(data, "images"));
            l.Arr? && i < |l.items| && !Nullish(l.items[i]) && !Truthy(Get(l.items[i], "image")))
  {
    StructureRules(data);
    ArrayTypeRules(data);
    PageLayoutRules(data);
    if forall d | d in Validation(data).errors :: !d.Aborted? {
      EntriesStillChecked(data);
    }
  }

  /** Without an abort, every entry walk outside `basics` is reported in full. */
  lemma EntriesStillChecked(data: Json)
    requires Truthy(data) && IsObjectType(data)
    requires forall d | d in Validation(data).errors :: !d.Aborted?
    ensures forall list | TopList(list) ::
      Select(Validation(data).errors, EntrySection(list)) == ListCheck(list, Get(data, TopKey(list))).errors
    ensures Select(Validation(data).errors, EntrySection(ImageList)) ==
      ListCheck(ImageList, ImageListOf(Get(data, "images"))).errors
    ensures forall i: nat :: EntryIncomplete(ImageList, i) in Validation(data).errors <==>
      var l := ImageListOf(Get(data, "images"));
      l.Arr? && i < |l.items| && !Nullish(l.items[i]) && !Truthy(Get(l.items[i], "image"))
  {
    forall list | TopList(list)
      ensures Select(Validation(data).errors, EntrySection(list)) == ListCheck(list, Get(data, TopKey(list))).errors
    {
      TopEntrySelect(data, list);
    }
    ImagesRules(data);
  }

  // ---------------------------------------------------------------------
  // Severity: which kinds are errors and which are warnings

  /** Every error of `o` is of an error kind and every warning of a warning kind. */
  predicate Classified(o: Outcome) {
    && (forall d | d in o.errors :: !IsWarningKind(d))
    && (forall d | d in o.warnings :: IsWarningKind(d))
  }

  lemma ThenClassified(a: Outcome, b: Outcome)
    requires Classified(a) && Classified(b)
    ensures Classified(Then(a, b))
  {
  }

  lemma {:induction false} ScanClassified(list: EntryList, items: seq<Json>)
    ensures Classified(ScanEntries(list, items))
  {
    if items != [] {
      var n := |items| - 1;
      ScanClassified(list, items[..n]);
      ThenClassified(ScanEntries(list, items[..n]), EntryStep(list, n, items[n]));
    }
  }

  lemma ListClassified(list: EntryList, v: Json)
    ensures Classified(ListCheck(list, v))
  {
    if v.Arr? {
      ScanClassified(list, v.items);
    }
  }

  lemma QuoteClassified(quote: Json)
    ensures Classified(QuoteCheck(quote))
  {
    if Truthy(quote) {
      ListClassified(QuoteValues, Get(quote, "values"));
    }
  }

  lemma AboutClassified(about: Json)
    ensures Classified(AboutCheck(about))
  {
    if Truthy(about) && IsObjectType(about) {
      var personal := ListCheck(PersonalInfo, Get(about, "personalInfo"));
      var traits := ListCheck(Traits, Get(about, "traits"));
      var highlights := ListCheck(Highlights, Get(about, "highlights"));
      var quote := QuoteCheck(Get(about, "quote"));
      var tags := ListCheck(Tags, Get(about, "tags"));
      ListClassified(PersonalInfo, Get(about, "personalInfo"));
      ListClassified(Traits, Get(about, "traits"));
      ListClassified(Highlights, Get(about, "highlights"));
      QuoteClassified(Get(about, "quote"));
      ListClassified(Tags, Get(about, "tags"));
      ChainClassified(personal, traits, highlights, quote, tags);
    }
  }

  /** Five checks in a row, each of which classifies its reports correctly. */
  lemma ChainClassified(a: Outcome, b: Outcome, c: Outcome, d: Outcome, e: Outcome)
    requires Classified(a) && Classified(b) && Classified(c) && Classified(d) && Classified(e)
    ensures Classified(Then(Then(Then(Then(a, b), c), d), e))
  {
    ThenClassified(a, b);
    ThenClassified(Then(a, b), c);
    ThenClassified(Then(Then(a, b), c), d);
    ThenClassified(Then(Then(Then(a, b), c), d), e);
  }

  lemma BasicsClassified(basics: Json)
    ensures Classified(BasicsCheck(basics))
  {
    if Truthy(basics) {
      var fields := Errors(BasicsFieldErrors(basics));
      var profiles := ListCheck(Profiles, Get(basics, "profiles"));
      var about := Get(basics, "about");
      var aboutCheck := if Truthy(about) then AboutCheck(about) else Nothing;
      BasicsFieldShape(basics);
      assert Classified(fields);
      ListClassified(Profiles, Get(basics, "profiles"));
      AboutClassified(about);
      ThenClassified(fields, profiles);
      ThenClassified(Then(fields, profiles), aboutCheck);
    }
  }

  lemma ArraysClassified(data: Json)
    requires !Nullish(data)
    ensures Classified(OptionalArraysCheck(data))
  {
    ArrayTypeErrorsMeaning(data, ArrayFields);
    ListClassified(Work, Get(data, "work"));
    ListClassified(Education, Get(data, "education"));
    ListClassified(Skills, Get(data, "skills"));
    ListClassified(Projects, Get(data, "projects"));
    ChainClassified(Errors(ArrayTypeErrors(data, ArrayFields)), ListCheck(Work, Get(data, "work")),
                    ListCheck(Education, Get(data, "education")), ListCheck(Skills, Get(data, "skills")),
                    ListCheck(Projects, Get(data, "projects")));
  }

  lemma WalkClassified(data: Json)
    ensures Classified(Walk(data))
  {
    var structure := BasicStructureCheck(data);
    if structure.completion.Normal? {
      var layout := PageLayoutCheck(Get(data, "pageLayout"));
      var basics := BasicsCheck(Get(data, "basics"));
      var arrays := OptionalArraysCheck(data);
      var images := ImagesCheck(Get(data, "images"));
      BasicsClassified(Get(data, "basics"));
      ArraysClassified(data);
      if Truthy(Get(data, "images")) {
        ListClassified(ImageList, Get(Get(data, "images"), "list"));
      }
      assert Classified(images);
      assert Walk(data) == Then(Then(Then(Then(structure, layout), basics), arrays), images);
      ChainClassified(structure, layout, basics, arrays, images);
    }
  }

  /** Severity: no error is of a warning kind and every warning is. So a
      missing layout, an incomplete profile or legacy tag, and a non-string
      `color` are only ever warnings, and never make a document invalid. */
  lemma ValidationSeverity(data: Json)
    ensures forall d | d in Validation(data).errors :: !IsWarningKind(d)
    ensures forall d | d in Validation(data).warnings :: IsWarningKind(d)
  {
    WalkClassified(data);
    ValidationOfWalk(data);
  }

  // ---------------------------------------------------------------------
  // Entries of the four inspected top-level arrays

  /** The document field holding each inspected top-level array. */
  function TopKey(list: EntryList): string
    requires TopList(list)
  {
    match list
    case Work => "work"
    case Education => "education"
    case Skills => "skills"
    case Projects => "projects"
  }

  lemma EntriesInside(o: Outcome, list: EntryList)
    requires OnEntries(o, list)
    ensures Select(o.errors, EntrySection(list)) == o.errors
  {
    SelectAll(o.errors, EntrySection(list));
  }

  // Bookkeeping: five chained checks and `Select` over their parts; they
  // carry sequence arithmetic only.
  /** Four checks after a first one, none of which throws. */
  lemma FiveNormal(a: Outcome, b: Outcome, c: Outcome, d: Outcome, e: Outcome)
    requires a.completion.Normal?
    requires Then(Then(Then(Then(a, b), c), d), e).completion.Normal?
    ensures b.completion.Normal? && c.completion.Normal? && d.completion.Normal? && e.completion.Normal?
    ensures Then(Then(Then(Then(a, b), c), d), e).errors == a.errors + b.errors + c.errors + d.errors + e.errors
  {
  }

  lemma SelectFive(a: seq<Diagnostic>, b: seq<Diagnostic>, c: seq<Diagnostic>, d: seq<Diagnostic>,
                   e: seq<Diagnostic>, s: Section)
    ensures Select(a + b + c + d + e, s) == Select(a, s) + Select(b, s) + Select(c, s) + Select(d, s) + Select(e, s)
  {
    SelectAppend(a + b + c + d, e, s);
    SelectAppend(a + b + c, d, s);
    SelectThree(a, b, c, s);
  }

  /** When the array check ran to the end, each of its four arrays was
      walked to the end, and its reports on the entries of one array are
      that array's walk. */
  lemma TopListSelect(data: Json, list: EntryList)
    requires !Nullish(data) && TopList(list)
    requires OptionalArraysCheck(data).completion.Normal?
    ensures ListCheck(list, Get(data, TopKey(list))).completion.Normal?
    ensures Select(OptionalArraysCheck(data).errors, EntrySection(list)) == ListCheck(list, Get(data, TopKey(list))).errors
  {
    var types := Errors(ArrayTypeErrors(data, ArrayFields));
    var work := ListCheck(Work, Get(data, "work"));
    var education := ListCheck(Education, Get(data, "education"));
    var skills := ListCheck(Skills, Get(data, "skills"));
    var projects := ListCheck(Projects, Get(data, "projects"));
    ArrayTypeErrorsMeaning(data, ArrayFields);
    ListShape(Work, Get(data, "work"));
    ListShape(Education, Get(data, "education"));
    ListShape(Skills, Get(data, "skills"));
    ListShape(Projects, Get(data, "projects"));
    ArraysPick(OptionalArraysCheck(data), types, work, education, skills, projects, list);
  }

  lemma ArraysPick(all: Outcome, types: Outcome, work: Outcome, education: Outcome, skills: Outcome,
                   projects: Outcome, list: EntryList)
    requires TopList(list)
    requires all == Then(Then(Then(Then(types, work), education), skills), projects)
    requires types.completion.Normal? && all.completion.Normal?
    requires forall d | d in types.errors :: d.NotAnArray?
    requires OnEntries(work, Work) && OnEntries(education, Education)
    requires OnEntries(skills, Skills) && OnEntries(projects, Projects)
    ensures var own := match list
              case Work => work case Education => education case Skills => skills case Projects => projects;
      own.completion.Normal? && Select(all.errors, EntrySection(list)) == own.errors
  {
    FiveNormal(types, work, education, skills, projects);
    SelectOutside(types.errors, EntrySection(list));
    SelectAfterEmpty(types.errors, work.errors, education.errors, skills.errors, projects.errors, EntrySection(list));
    TopListPick(work, education, skills, projects, list);
  }

  lemma SelectAfterEmpty(a: seq<Diagnostic>, b: seq<Diagnostic>, c: seq<Diagnostic>, d: seq<Diagnostic>,
                         e: seq<Diagnostic>, s: Section)
    requires Select(a, s) == []
    ensures Select(a + b + c + d + e, s) == Select(b, s) + Select(c, s) + Select(d, s) + Select(e, s)
  {
    SelectFive(a, b, c, d, e, s);
    assert [] + Select(b, s) == Select(b, s);
  }

  /** Of the four walks, the one of `list` is kept and the others dropped. */
  lemma TopListPick(work: Outcome, education: Outcome, skills: Outcome, projects: Outcome, list: EntryList)
    requires TopList(list)
    requires OnEntries(work, Work) && OnEntries(education, Education)
    requires OnEntries(skills, Skills) && OnEntries(projects, Projects)
    ensures var own := match list
              case Work => work case Education => education case Skills => skills case Projects => projects;
      Select(work.errors, EntrySection(list)) + Select(education.errors, EntrySection(list))
      + Select(skills.errors, EntrySection(list)) + Select(projects.errors, EntrySection(list)) == own.errors
  {
    var s := EntrySection(list);
    if list != Work { EntriesOutside(work, Work, s); } else { EntriesInside(work, Work); }
    if list != Education { EntriesOutside(education, Education, s); } else { EntriesInside(education, Education); }
    if list != Skills { EntriesOutside(skills, Skills, s); } else { EntriesInside(skills, Skills); }
    if list != Projects { EntriesOutside(projects, Projects, s); } else { EntriesInside(projects, Projects); }
  }

  /** A section reported, in a result that did not abort, only by the array check. */
  lemma OnlyArrays(r: ValidationResult, structure: Outcome, layout: Outcome, basics: Outcome, arrays: Outcome,
                   images: Outcome, s: Section)
    requires basics.completion.Normal? && arrays.completion.Normal?
    requires r.errors == (structure.errors + layout.errors) + (basics.errors + Then(arrays, images).errors + [])
    requires Select(structure.errors, s) == [] && Select(layout.errors, s) == []
    requires Select(basics.errors, s) == [] && Select(images.errors, s) == []
    ensures Select(r.errors, s) == Select(arrays.errors, s)
  {
    SelectAppend(structure.errors + layout.errors, basics.errors + Then(arrays, images).errors + [], s);
    SelectAppend(structure.errors, layout.errors, s);
    SelectThree(basics.errors, Then(arrays, images).errors, [], s);
    SelectOfRest(arrays, images, s);
  }

  /** A walk that ran to the end ran the array check to its end. */
  lemma NormalWalk(data: Json)
    requires Truthy(data) && IsObjectType(data)
    requires forall d | d in Validation(data).errors :: !d.Aborted?
    ensures Walk(data).completion.Normal?
    ensures BasicsCheck(Get(data, "basics")).completion.Normal?
    ensures OptionalArraysCheck(data).completion.Normal?
    ensures !StringConversionThrows(Get(data, "pageLayout"))
  {
    ValidationOfWalk(data);
    AbortRecorded(Walk(data), Validation(data).errors);
    LayoutThrowAborts(data);
    WalkOfObject(data);
    var basics := BasicsCheck(Get(data, "basics"));
    var arrays := OptionalArraysCheck(data);
    var images := ImagesCheck(Get(data, "images"));
    assert !basics.completion.Throw?;
    assert Then(arrays, images).completion.Normal?;
    ThenNormal(arrays, images);
  }

  lemma AbortRecorded(w: Outcome, errors: seq<Diagnostic>)
    requires errors == w.errors + (if w.completion.Throw? then [Aborted(w.completion.cause)] else [])
    ensures w.completion.Throw? ==> Aborted(w.completion.cause) in errors
  {
    if w.completion.Throw? {
      assert errors[|w.errors|] == Aborted(w.completion.cause);
    }
  }

  /** On a validation that did not abort, the entry errors of one of the
      four top-level arrays are that array's walk. */
  lemma TopEntrySelect(data: Json, list: EntryList)
    requires Truthy(data) && IsObjectType(data) && TopList(list)
    requires forall d | d in Validation(data).errors :: !d.Aborted?
    ensures ListCheck(list, Get(data, TopKey(list))).completion.Normal?
    ensures Select(Validation(data).errors, EntrySection(list)) == ListCheck(list, Get(data, TopKey(list))).errors
  {
    var structure := BasicStructureCheck(data);
    var layout := PageLayoutCheck(Get(data, "pageLayout"));
    NormalWalk(data);
    HeadAndTail(data);
    var basics := BasicsCheck(Get(data, "basics"));
    var arrays := OptionalArraysCheck(data);
    var images := ImagesCheck(Get(data, "images"));
    var r := Validation(data);
    var s := EntrySection(list);
    HeadSelect(data, s);
    BasicsSelect(Get(data, "basics"), s);
    ImagesSelect(Get(data, "images"), s);
    OnlyArrays(r, structure, layout, basics, arrays, images, s);
    TopListSelect(data, list);
  }

  /** The entry rule for `work`, `education`, `skills` and `projects`, on a
      validation that did not abort: the entry errors of the array are
      exactly those of its walk, so each entry lacking a required field
      gives exactly one error, which carries its index, in index order;
      an absent or non-array field gives none. */
  lemma TopEntryRules(data: Json, list: EntryList)
    requires Truthy(data) && IsObjectType(data) && TopList(list)
    requires forall d | d in Validation(data).errors :: !d.Aborted?
    ensures var v := Get(data, TopKey(list));
      var entryErrors := Select(Validation(data).errors, EntrySection(list));
      && entryErrors == ListCheck(list, v).errors
      && (forall i: nat :: EntryIncomplete(list, i) in Validation(data).errors <==>
            v.Arr? && i < |v.items| && !Nullish(v.items[i]) && Incomplete(list, v.items[i]))
      && IncreasingEntries(entryErrors)
  {
    TopEntrySelect(data, list);
    TopListErrors(list);
    EntryErrorsOf(Validation(data).errors, list, Get(data, TopKey(list)));
  }

  /** Incomplete entries of the four top-level arrays are errors. */
  lemma TopListErrors(list: EntryList)
    requires TopList(list)
    ensures !IncompleteIsWarning(list)
  {
  }

  /** Reports on entries, in strictly increasing index order. */
  predicate IncreasingEntries(ds: seq<Diagnostic>) {
    forall a, b | 0 <= a < b < |ds| :: ds[a].EntryIncomplete? && ds[b].EntryIncomplete? && ds[a].index < ds[b].index
  }

  /** Errors whose entry section for `list` is a complete walk of `v`. */
  lemma EntryErrorsOf(errors: seq<Diagnostic>, list: EntryList, v: Json)
    requires !IncompleteIsWarning(list)
    requires ListCheck(list, v).completion.Normal?
    requires Select(errors, EntrySection(list)) == ListCheck(list, v).errors
    ensures var entryErrors := Select(errors, EntrySection(list));
      && entryErrors == ListCheck(list, v).errors
      && (forall i: nat :: EntryIncomplete(list, i) in errors <==>
            v.Arr? && i < |v.items| && !Nullish(v.items[i]) && Incomplete(list, v.items[i]))
      && IncreasingEntries(entryErrors)
  {
    SelectMembers(errors, EntrySection(list));
    if v.Arr? {
      ScanCompletion(list, v.items);
      ScanReportsIncomplete(list, v.items);
    }
  }

  // ---------------------------------------------------------------------
  // The `about` object and the image list

  /** The `about` object the basics check inspects: none when `basics` is absent. */
  function AboutOfBasics(basics: Json): Json {
    if Truthy(basics) then Get(basics, "about") else Undefined
  }

  function AboutOf(data: Json): Json
    requires !Nullish(data)
  {
    AboutOfBasics(Get(data, "basics"))
  }

  /** The quote the `about` check inspects: none unless `about` is an object. */
  function QuoteOf(about: Json): Json {
    if Truthy(about) && IsObjectType(about) then Get(about, "quote") else Undefined
  }

  /** The value the `about` check walks as the array `list`: none unless
      `about` is an object (and, for the quote's values, the quote is present). */
  function AboutArray(about: Json, list: EntryList): Json
    requires AboutList(list)
  {
    if !Truthy(about) || !IsObjectType(about) then Undefined
    else
      match list
      case PersonalInfo => Get(about, "personalInfo")
      case Traits => Get(about, "traits")
      case Highlights => Get(about, "highlights")
      case Tags => Get(about, "tags")
      case QuoteValues =>
        var quote := Get(about, "quote");
        if Truthy(quote) then Get(quote, "values") else Undefined
  }

  /** The list the images check walks: none when `images` is absent. */
  function ImageListOf(images: Json): Json {
    if Truthy(images) then Get(images, "list") else Undefined
  }

  /** When the basics check ran to its end, what it reports in an `about`
      section is what the `about` check reports, if there is an `about`. */
  lemma BasicsAboutSelect(basics: Json, s: Section)
    requires s == AboutSection || (s.EntrySection? && AboutList(s.list))
    requires BasicsCheck(basics).completion.Normal?
    ensures var about := AboutOfBasics(basics);
      && (Truthy(about) ==> AboutCheck(about).completion.Normal?)
      && Select(BasicsCheck(basics).errors, s) == (if Truthy(about) then Select(AboutCheck(about).errors, s) else [])
  {
    if Truthy(basics) {
      var fields := Errors(BasicsFieldErrors(basics));
      var profiles := ListCheck(Profiles, Get(basics, "profiles"));
      var about := Get(basics, "about");
      var aboutCheck := if Truthy(about) then AboutCheck(about) else Nothing;
      BasicsFieldShape(basics);
      SelectOutside(fields.errors, s);
      ListShape(Profiles, Get(basics, "profiles"));
      EntriesOutside(profiles, Profiles, s);
      ThirdSelect(fields, profiles, aboutCheck, s);
    }
  }

  /** Of three checks in a row that ran to the end, a section the first
      two do not report in holds what the third reports. */
  lemma ThirdSelect(a: Outcome, b: Outcome, c: Outcome, s: Section)
    requires Then(Then(a, b), c).completion.Normal?
    requires Select(a.errors, s) == [] && Select(b.errors, s) == []
    ensures c.completion.Normal?
    ensures Select(Then(Then(a, b), c).errors, s) == Select(c.errors, s)
  {
    SelectThree(a.errors, b.errors, c.errors, s);
    assert [] + [] + Select(c.errors, s) == Select(c.errors, s);
  }

  /** What the quote check reports: the text error, then its values' walk. */
  lemma QuoteSelect(quote: Json)
    requires QuoteCheck(quote).completion.Normal?
    ensures var values := if Truthy(quote) then Get(quote, "values") else Undefined;
      && ListCheck(QuoteValues, values).completion.Normal?
      && Select(QuoteCheck(quote).errors, EntrySection(QuoteValues)) == ListCheck(QuoteValues, values).errors
      && Select(QuoteCheck(quote).errors, AboutSection) ==
           (if Truthy(quote) && !IsNonEmptyString(Get(quote, "text")) then [QuoteTextRequired] else [])
  {
    if Truthy(quote) {
      var text := Errors(if IsNonEmptyString(Get(quote, "text")) then [] else [QuoteTextRequired]);
      var values := ListCheck(QuoteValues, Get(quote, "values"));
      ListShape(QuoteValues, Get(quote, "values"));
      EntriesInside(values, QuoteValues);
      EntriesOutside(values, QuoteValues, AboutSection);
      TextThenValues(text.errors, values);
    }
  }

  lemma TextThenValues(text: seq<Diagnostic>, values: Outcome)
    requires text == [] || text == [QuoteTextRequired]
    requires Select(values.errors, EntrySection(QuoteValues)) == values.errors
    requires Select(values.errors, AboutSection) == []
    ensures Select(text + values.errors, EntrySection(QuoteValues)) == values.errors
    ensures Select(text + values.errors, AboutSection) == text
  {
    SelectAppend(text, values.errors, EntrySection(QuoteValues));
    SelectAppend(text, values.errors, AboutSection);
  }

  /** What the quote check reports lies in the about section or on the quote's values. */
  lemma QuoteShape(quote: Json)
    ensures forall d | d in QuoteCheck(quote).errors :: d.QuoteTextRequired? || OnEntryOf(d, QuoteValues)
  {
    if Truthy(quote) {
      ListShape(QuoteValues, Get(quote, "values"));
    }
  }

  /** Five checks in a row that ran to the end: each ran to its end, and a
      section only the `k`-th reports in holds what it reports. */
  lemma OneOfFive(a: Outcome, b: Outcome, c: Outcome, d: Outcome, e: Outcome, s: Section, k: nat)
    requires 1 <= k <= 5
    requires Then(Then(Then(Then(a, b), c), d), e).completion.Normal?
    requires k != 1 ==> Select(a.errors, s) == []
    requires k != 2 ==> Select(b.errors, s) == []
    requires k != 3 ==> Select(c.errors, s) == []
    requires k != 4 ==> Select(d.errors, s) == []
    requires k != 5 ==> Select(e.errors, s) == []
    ensures a.completion.Normal? && b.completion.Normal? && c.completion.Normal?
    ensures d.completion.Normal? && e.completion.Normal?
    ensures Select(Then(Then(Then(Then(a, b), c), d), e).errors, s) ==
      Select((if k == 1 then a else if k == 2 then b else if k == 3 then c else if k == 4 then d else e).errors, s)
  {
    FiveNormal(a, b, c, d, e);
    SelectFive(a.errors, b.errors, c.errors, d.errors, e.errors, s);
  }

  /** The position of each array walk, and of the quote, in the `about` check. */
  function AboutPosition(list: EntryList): nat
    requires AboutList(list)
  {
    match list
    case PersonalInfo => 1
    case Traits => 2
    case Highlights => 3
    case QuoteValues => 4
    case Tags => 5
  }

  /** The `about` check's reports on the entries of one of its arrays, when
      it ran to its end, are that array's walk. */
  lemma AboutEntrySelect(about: Json, list: EntryList)
    requires AboutList(list)
    requires Truthy(about) && AboutCheck(about).completion.Normal?
    ensures ListCheck(list, AboutArray(about, list)).completion.Normal?
    ensures Select(AboutCheck(about).errors, EntrySection(list)) == ListCheck(list, AboutArray(about, list)).errors
  {
    if IsObjectType(about) {
      var personal := ListCheck(PersonalInfo, Get(about, "personalInfo"));
      var traits := ListCheck(Traits, Get(about, "traits"));
      var highlights := ListCheck(Highlights, Get(about, "highlights"));
      var quote := QuoteCheck(Get(about, "quote"));
      var tags := ListCheck(Tags, Get(about, "tags"));
      ListShape(PersonalInfo, Get(about, "personalInfo"));
      ListShape(Traits, Get(about, "traits"));
      ListShape(Highlights, Get(about, "highlights"));
      ListShape(Tags, Get(about, "tags"));
      QuoteShape(Get(about, "quote"));
      AboutPick(personal, traits, highlights, quote, tags, list);
      if list == QuoteValues {
        QuoteSelect(Get(about, "quote"));
      } else {
        OwnWalk(personal, traits, highlights, tags, list);
      }
    }
  }

  /** Among the five parts of the `about` check, only the part of `list`
      reports on the entries of `list`. */
  lemma AboutPick(personal: Outcome, traits: Outcome, highlights: Outcome, quote: Outcome, tags: Outcome,
                  list: EntryList)
    requires AboutList(list)
    requires Then(Then(Then(Then(personal, traits), highlights), quote), tags).completion.Normal?
    requires OnEntries(personal, PersonalInfo) && OnEntries(traits, Traits)
    requires OnEntries(highlights, Highlights) && OnEntries(tags, Tags)
    requires forall d | d in quote.errors :: d.QuoteTextRequired? || OnEntryOf(d, QuoteValues)
    ensures var k := AboutPosition(list);
      var own := if k == 1 then personal else if k == 2 then traits else if k == 3 then highlights
                 else if k == 4 then quote else tags;
      && own.completion.Normal? && quote.completion.Normal?
      && Select(Then(Then(Then(Then(personal, traits), highlights), quote), tags).errors, EntrySection(list)) ==
         Select(own.errors, EntrySection(list))
  {
    var s := EntrySection(list);
    if list != PersonalInfo { EntriesOutside(personal, PersonalInfo, s); }
    if list != Traits { EntriesOutside(traits, Traits, s); }
    if list != Highlights { EntriesOutside(highlights, Highlights, s); }
    if list != Tags { EntriesOutside(tags, Tags, s); }
    if list != QuoteValues { SelectOutside(quote.errors, s); }
    OneOfFive(personal, traits, highlights, quote, tags, s, AboutPosition(list));
  }

  /** The walk of an `about` array reports only on its own entries. */
  lemma OwnWalk(personal: Outcome, traits: Outcome, highlights: Outcome, tags: Outcome, list: EntryList)
    requires AboutList(list) && list != QuoteValues
    requires OnEntries(personal, PersonalInfo) && OnEntries(traits, Traits)
    requires OnEntries(highlights, Highlights) && OnEntries(tags, Tags)
    ensures var own := match list
              case PersonalInfo => personal case Traits => traits case Highlights => highlights case Tags => tags;
      Select(own.errors, EntrySection(list)) == own.errors
  {
    match list
    case PersonalInfo => EntriesInside(personal, PersonalInfo);
    case Traits => EntriesInside(traits, Traits);
    case Highlights => EntriesInside(highlights, Highlights);
    case Tags => EntriesInside(tags, Tags);
  }

  /** What the `about` check reports in its own section: the not-an-object
      error, or else the quote's text error. */
  lemma AboutSectionSelect(about: Json)
    requires Truthy(about) && AboutCheck(about).completion.Normal?
    ensures Select(AboutCheck(about).errors, AboutSection) ==
      if !IsObjectType(about) then [AboutNotObject]
      else if Truthy(QuoteOf(about)) && !IsNonEmptyString(Get(QuoteOf(about), "text")) then [QuoteTextRequired]
      else []
  {
    if IsObjectType(about) {
      var personal := ListCheck(PersonalInfo, Get(about, "personalInfo"));
      var traits := ListCheck(Traits, Get(about, "traits"));
      var highlights := ListCheck(Highlights, Get(about, "highlights"));
      var quote := QuoteCheck(Get(about, "quote"));
      var tags := ListCheck(Tags, Get(about, "tags"));
      ListShape(PersonalInfo, Get(about, "personalInfo"));
      ListShape(Traits, Get(about, "traits"));
      ListShape(Highlights, Get(about, "highlights"));
      ListShape(Tags, Get(about, "tags"));
      EntriesOutside(personal, PersonalInfo, AboutSection);
      EntriesOutside(traits, Traits, AboutSection);
      EntriesOutside(highlights, Highlights, AboutSection);
      EntriesOutside(tags, Tags, AboutSection);
      OneOfFive(personal, traits, highlights, quote, tags, AboutSection, 4);
      QuoteSelect(Get(about, "quote"));
    }
  }

  /** On a validation that did not abort, what is reported on the entries
      of one of the `about` arrays is that array's walk. */
  lemma AboutListSelect(data: Json, list: EntryList)
    requires Truthy(data) && IsObjectType(data) && AboutList(list)
    requires forall d | d in Validation(data).errors :: !d.Aborted?
    ensures ListCheck(list, AboutArray(AboutOf(data), list)).completion.Normal?
    ensures Select(Validation(data).errors, EntrySection(list)) == ListCheck(list, AboutArray(AboutOf(data), list)).errors
  {
    NormalWalk(data);
    BasicsSections(data, EntrySection(list));
    BasicsAboutSelect(Get(data, "basics"), EntrySection(list));
    var about := AboutOf(data);
    if Truthy(about) {
      AboutEntrySelect(about, list);
    }
  }

  /** The entry rule for the `about` arrays whose incomplete entries are
      errors (`personalInfo`, `traits`, `highlights` and the quote's
      `values`), on a validation that did not abort: each entry lacking a
      required field gives exactly one error, which carries its index, in
      index order; an absent or non-array field, or an absent `about` or
      quote, gives none. */
  lemma AboutEntryRules(data: Json, list: EntryList)
    requires Truthy(data) && IsObjectType(data) && AboutList(list) && !IncompleteIsWarning(list)
    requires forall d | d in Validation(data).errors :: !d.Aborted?
    ensures var v := AboutArray(AboutOf(data), list);
      var entryErrors := Select(Validation(data).errors, EntrySection(list));
      && entryErrors == ListCheck(list, v).errors
      && (forall i: nat :: EntryIncomplete(list, i) in Validation(data).errors <==>
            v.Arr? && i < |v.items| && !Nullish(v.items[i]) && Incomplete(list, v.items[i]))
      && IncreasingEntries(entryErrors)
  {
    AboutListSelect(data, list);
    EntryErrorsOf(Validation(data).errors, list, AboutArray(AboutOf(data), list));
  }

  /** The `about` rules on the whole result of a validation that did not
      abort: a present `about` that is not an object gives exactly one
      error; otherwise a present quote without a non-empty `text` string
      gives exactly one error; nothing else is reported in that section,
      and never as a warning. */
  lemma AboutRules(data: Json)
    requires Truthy(data) && IsObjectType(data)
    requires forall d | d in Validation(data).errors :: !d.Aborted?
    ensures var about := AboutOf(data);
      var quote := QuoteOf(about);
      var r := Validation(data);
      && Select(r.errors, AboutSection) ==
           (if !Truthy(about) then []
            else if !IsObjectType(about) then [AboutNotObject]
            else if Truthy(quote) && !IsNonEmptyString(Get(quote, "text")) then [QuoteTextRequired]
            else [])
      && (AboutNotObject in r.errors <==> Truthy(about) && !IsObjectType(about))
      && (QuoteTextRequired in r.errors <==>
            Truthy(about) && IsObjectType(about) && Truthy(quote) && !IsNonEmptyString(Get(quote, "text")))
      && Select(r.warnings, AboutSection) == []
  {
    NormalWalk(data);
    BasicsSections(data, AboutSection);
    BasicsAboutSelect(Get(data, "basics"), AboutSection);
    var about := AboutOf(data);
    if Truthy(about) {
      AboutSectionSelect(about);
    }
    ValidationSeverity(data);
    AboutMembers(Validation(data), about, QuoteOf(about));
  }

  /** Membership of the two `about` errors, read off the `about` section. */
  lemma AboutMembers(r: ValidationResult, about: Json, quote: Json)
    requires quote == QuoteOf(about)
    requires Select(r.errors, AboutSection) ==
      (if !Truthy(about) then []
       else if !IsObjectType(about) then [AboutNotObject]
       else if Truthy(quote) && !IsNonEmptyString(Get(quote, "text")) then [QuoteTextRequired]
       else [])
    requires forall d | d in r.warnings :: IsWarningKind(d)
    ensures AboutNotObject in r.errors <==> Truthy(about) && !IsObjectType(about)
    ensures QuoteTextRequired in r.errors <==>
      Truthy(about) && IsObjectType(about) && Truthy(quote) && !IsNonEmptyString(Get(quote, "text"))
    ensures Select(r.warnings, AboutSection) == []
  {
    SelectMembers(r.errors, AboutSection);
    SelectOutside(r.warnings, AboutSection);
  }

  /** On a validation that did not abort, the images check ran to its end
      and its reports are the image entries' section of the result. */
  lemma ImagesSelectAll(data: Json)
    requires Truthy(data) && IsObjectType(data)
    requires Walk(data).completion.Normal?
    ensures ImagesCheck(Get(data, "images")).completion.Normal?
    ensures Select(Validation(data).errors, EntrySection(ImageList)) == ImagesCheck(Get(data, "images")).errors
  {
    var s := EntrySection(ImageList);
    var structure := BasicStructureCheck(data);
    var layout := PageLayoutCheck(Get(data, "pageLayout"));
    var basics := BasicsCheck(Get(data, "basics"));
    var arrays := OptionalArraysCheck(data);
    var images := ImagesCheck(Get(data, "images"));
    NormalParts(data);
    ImagesAlone(data);
    OnlyImages(Validation(data), structure, layout, basics, arrays, images, s);
  }

  /** Only the images check reports on the image list, and all it reports is there. */
  lemma ImagesAlone(data: Json)
    requires Truthy(data) && IsObjectType(data)
    ensures var s := EntrySection(ImageList);
      var images := ImagesCheck(Get(data, "images"));
      && Select(BasicStructureCheck(data).errors, s) == []
      && Select(PageLayoutCheck(Get(data, "pageLayout")).errors, s) == []
      && Select(BasicsCheck(Get(data, "basics")).errors, s) == []
      && Select(OptionalArraysCheck(data).errors, s) == []
      && Select(images.errors, s) == images.errors
  {
    var s := EntrySection(ImageList);
    HeadSelect(data, s);
    BasicsSelect(Get(data, "basics"), s);
    ArraysOutside(data, s);
    ImagesShape(Get(data, "images"));
    EntriesInside(ImagesCheck(Get(data, "images")), ImageList);
  }

  /** The errors of a walk that ran to its end, check by check. */
  lemma NormalParts(data: Json)
    requires Truthy(data) && IsObjectType(data)
    requires Walk(data).completion.Normal?
    ensures var basics := BasicsCheck(Get(data, "basics"));
      var rest := Then(OptionalArraysCheck(data), ImagesCheck(Get(data, "images")));
      && basics.completion.Normal? && rest.completion.Normal?
      && Validation(data).errors ==
           (BasicStructureCheck(data).errors + PageLayoutCheck(Get(data, "pageLayout")).errors)
           + (basics.errors + rest.errors + [])
  {
    LayoutThrowAborts(data);
    WalkOfObject(data);
    HeadAndTail(data);
  }

  /** A section reported, in a result that did not abort, only by the images check. */
  lemma OnlyImages(r: ValidationResult, structure: Outcome, layout: Outcome, basics: Outcome, arrays: Outcome,
                   images: Outcome, s: Section)
    requires basics.completion.Normal? && Then(arrays, images).completion.Normal?
    requires r.errors == (structure.errors + layout.errors) + (basics.errors + Then(arrays, images).errors + [])
    requires Select(structure.errors, s) == [] && Select(layout.errors, s) == []
    requires Select(basics.errors, s) == [] && Select(arrays.errors, s) == []
    ensures images.completion.Normal?
    ensures Select(r.errors, s) == Select(images.errors, s)
  {
    ThenNormal(arrays, images);
    SelectAppend(structure.errors + layout.errors, basics.errors + Then(arrays, images).errors + [], s);
    SelectAppend(structure.errors, layout.errors, s);
    SelectThree(basics.errors, Then(arrays, images).errors, [], s);
    SelectOfRest(arrays, images, s);
  }

  /** The image rule on a validation that did not abort: when `images` is
      present and its `list` is an array, each entry without a (truthy)
      `image` gives exactly one error, which carries its index, in index
      order; otherwise no image error is reported. */
  lemma ImagesRules(data: Json)
    requires Truthy(data) && IsObjectType(data)
    requires forall d | d in Validation(data).errors :: !d.Aborted?
    ensures var l := ImageListOf(Get(data, "images"));
      var entryErrors := Select(Validation(data).errors, EntrySection(ImageList));
      && entryErrors == ListCheck(ImageList, l).errors
      && (forall i: nat :: EntryIncomplete(ImageList, i) in Validation(data).errors <==>
            l.Arr? && i < |l.items| && !Nullish(l.items[i]) && !Truthy(Get(l.items[i], "image")))
      && IncreasingEntries(entryErrors)
  {
    NormalWalk(data);
    ImagesSelectAll(data);
    var l := ImageListOf(Get(data, "images"));
    EntryErrorsOf(Validation(data).errors, ImageList, l);
    ImageEntries(l);
  }

  /** An image entry is incomplete exactly when it has no truthy `image`. */
  lemma ImageEntries(l: Json)
    ensures l.Arr? ==> forall i | 0 <= i < |l.items| && !Nullish(l.items[i]) ::
      Incomplete(ImageList, l.items[i]) <==> !Truthy(Get(l.items[i], "image"))
  {
    if l.Arr? {
      forall i | 0 <= i < |l.items| && !Nullish(l.items[i])
        ensures Incomplete(ImageList, l.items[i]) <==> !Truthy(Get(l.items[i], "image"))
      {
        ImageEntry(l.items[i]);
      }
    }
  }

  lemma ImageEntry(entry: Json)
    requires !Nullish(entry)
    ensures Incomplete(ImageList, entry) <==> !Truthy(Get(entry, "image"))
  {
    var fields := RequiredFields(ImageList);
    assert fields == ["image"];
    if !Truthy(Get(entry, "image")) {
      assert !Truthy(Get(entry, fields[0]));
    }
  }

  // ---------------------------------------------------------------------
  // Warnings on the entries of the arrays inside `basics`

  /** Every warning of a walk to the end is on an entry of `list` that was
      walked, and an incomplete entry is a warning only for a warn-only list. */
  lemma {:induction false} ScanWarningIndices(list: EntryList, items: seq<Json>)
    requires forall i | 0 <= i < |items| :: !Nullish(items[i])
    ensures forall d | d in ScanEntries(list, items).warnings ::
      && OnEntryOf(d, list) && d.index < |items|
      && (d.EntryIncomplete? ==> IncompleteIsWarning(list))
  {
    if items != [] {
      var n := |items| - 1;
      ScanErrorsLast(list, items);
      ScanWarningIndices(list, items[..n]);
      EntryStepShape(list, n, items[n]);
    }
  }

  /** Of an array walked to the end: entry `i` gets a non-string-color
      warning exactly when its list checks `color` and its `color` is
      truthy and not a string. */
  lemma {:induction false} ScanColorIff(list: EntryList, items: seq<Json>)
    requires forall i | 0 <= i < |items| :: !Nullish(items[i])
    ensures forall i: nat :: ColorNotString(list, i) in ScanEntries(list, items).warnings <==>
      i < |items| && BadColor(list, items[i])
  {
    if items != [] {
      var n := |items| - 1;
      ScanLast(list, items);
      ScanErrorsLast(list, items);
      ScanColorIff(list, items[..n]);
      ScanWarningIndices(list, items[..n]);
    }
  }

  // Bookkeeping: exchanging errors and warnings lets the `Select` lemmas
  // written for errors be reused for warnings; no rule of the validator here.
  /** A check with its two lists exchanged. */
  function Swapped(o: Outcome): Outcome {
    Outcome(o.warnings, o.errors, o.completion)
  }

  lemma SwapThen(a: Outcome, b: Outcome)
    ensures Swapped(Then(a, b)) == Then(Swapped(a), Swapped(b))
  {
  }

  /** The array inside `basics` whose entries `list` stands for. */
  function BasicsArrayOf(basics: Json, list: EntryList): Json
    requires list == Profiles || AboutList(list)
  {
    if list == Profiles then (if Truthy(basics) then Get(basics, "profiles") else Undefined)
    else AboutArray(AboutOfBasics(basics), list)
  }

  function BasicsArray(data: Json, list: EntryList): Json
    requires !Nullish(data)
    requires list == Profiles || AboutList(list)
  {
    BasicsArrayOf(Get(data, "basics"), list)
  }

  /** The quote check warns only about its values, and all of their walk's warnings. */
  lemma QuoteWarnSelect(quote: Json)
    ensures forall d | d in QuoteCheck(quote).warnings :: OnEntryOf(d, QuoteValues)
    ensures var values := if Truthy(quote) then Get(quote, "values") else Undefined;
      Select(QuoteCheck(quote).warnings, EntrySection(QuoteValues)) == ListCheck(QuoteValues, values).warnings
  {
    if Truthy(quote) {
      var values := ListCheck(QuoteValues, Get(quote, "values"));
      ListShape(QuoteValues, Get(quote, "values"));
      assert QuoteCheck(quote).warnings == values.warnings;
      EntriesInside(Swapped(values), QuoteValues);
    }
  }

  /** The `about` check's warnings on the entries of one of its arrays, when
      it ran to its end, are that array's walk's warnings. */
  lemma AboutEntryWarnSelect(about: Json, list: EntryList)
    requires AboutList(list)
    requires Truthy(about) && AboutCheck(about).completion.Normal?
    ensures ListCheck(list, AboutArray(about, list)).completion.Normal?
    ensures Select(AboutCheck(about).warnings, EntrySection(list)) == ListCheck(list, AboutArray(about, list)).warnings
  {
    AboutEntrySelect(about, list);
    if IsObjectType(about) {
      var personal := ListCheck(PersonalInfo, Get(about, "personalInfo"));
      var traits := ListCheck(Traits, Get(about, "traits"));
      var highlights := ListCheck(Highlights, Get(about, "highlights"));
      var quote := QuoteCheck(Get(about, "quote"));
      var tags := ListCheck(Tags, Get(about, "tags"));
      ListShape(PersonalInfo, Get(about, "personalInfo"));
      ListShape(Traits, Get(about, "traits"));
      ListShape(Highlights, Get(about, "highlights"));
      ListShape(Tags, Get(about, "tags"));
      QuoteWarnSelect(Get(about, "quote"));
      SwapThen(personal, traits);
      SwapThen(Then(personal, traits), highlights);
      SwapThen(Then(Then(personal, traits), highlights), quote);
      SwapThen(Then(Then(Then(personal, traits), highlights), quote), tags);
      AboutPick(Swapped(personal), Swapped(traits), Swapped(highlights), Swapped(quote), Swapped(tags), list);
      if list != QuoteValues {
        OwnWalk(Swapped(personal), Swapped(traits), Swapped(highlights), Swapped(tags), list);
      }
    }
  }

  /** Of three checks in a row that ran to the end, a section the first
      and the third do not report in holds what the second reports. */
  lemma SecondSelect(a: Outcome, b: Outcome, c: Outcome, s: Section)
    requires Then(Then(a, b), c).completion.Normal?
    requires Select(a.errors, s) == [] && Select(c.errors, s) == []
    ensures b.completion.Normal?
    ensures Select(Then(Then(a, b), c).errors, s) == Select(b.errors, s)
  {
    SelectThree(a.errors, b.errors, c.errors, s);
    assert [] + Select(b.errors, s) + [] == Select(b.errors, s);
  }

  /** The basics check with its two lists exchanged, one check at a time. */
  lemma SwapBasics(basics: Json)
    requires Truthy(basics)
    ensures var about := Get(basics, "about");
      Swapped(BasicsCheck(basics)) ==
        Then(Then(Swapped(Errors(BasicsFieldErrors(basics))), Swapped(ListCheck(Profiles, Get(basics, "profiles")))),
             Swapped(if Truthy(about) then AboutCheck(about) else Nothing))
  {
    var fields := Errors(BasicsFieldErrors(basics));
    var profiles := ListCheck(Profiles, Get(basics, "profiles"));
    var about := Get(basics, "about");
    SwapThen(fields, profiles);
    SwapThen(Then(fields, profiles), if Truthy(about) then AboutCheck(about) else Nothing);
  }

  /** When the basics check ran to its end, its warnings on the entries of
      `profiles` are the walk of `profiles`. */
  lemma ProfilesWarnSelect(basics: Json)
    requires Truthy(basics) && BasicsCheck(basics).completion.Normal?
    ensures ListCheck(Profiles, Get(basics, "profiles")).completion.Normal?
    ensures Select(BasicsCheck(basics).warnings, EntrySection(Profiles)) == ListCheck(Profiles, Get(basics, "profiles")).warnings
  {
    var fields := Swapped(Errors(BasicsFieldErrors(basics)));
    var profiles := ListCheck(Profiles, Get(basics, "profiles"));
    var about := Get(basics, "about");
    var aboutCheck := Swapped(if Truthy(about) then AboutCheck(about) else Nothing);
    SwapBasics(basics);
    AboutShape(about);
    SelectOutside(aboutCheck.errors, EntrySection(Profiles));
    SecondSelect(fields, Swapped(profiles), aboutCheck, EntrySection(Profiles));
    ListShape(Profiles, Get(basics, "profiles"));
    EntriesInside(Swapped(profiles), Profiles);
  }

  /** When the basics check ran to its end, its warnings on the entries of
      an `about` array are that array's walk's warnings. */
  lemma AboutWarnSelect(basics: Json, list: EntryList)
    requires AboutList(list)
    requires Truthy(basics) && BasicsCheck(basics).completion.Normal?
    ensures ListCheck(list, BasicsArrayOf(basics, list)).completion.Normal?
    ensures Select(BasicsCheck(basics).warnings, EntrySection(list)) == ListCheck(list, BasicsArrayOf(basics, list)).warnings
  {
    var fields := Swapped(Errors(BasicsFieldErrors(basics)));
    var profiles := ListCheck(Profiles, Get(basics, "profiles"));
    var about := Get(basics, "about");
    var aboutCheck := if Truthy(about) then AboutCheck(about) else Nothing;
    SwapBasics(basics);
    ListShape(Profiles, Get(basics, "profiles"));
    EntriesOutside(profiles, Profiles, EntrySection(list));
    ThirdSelect(fields, Swapped(profiles), Swapped(aboutCheck), EntrySection(list));
    if Truthy(about) {
      AboutEntryWarnSelect(about, list);
    }
  }

  /** When the basics check ran to its end, its warnings on the entries of
      `profiles` or of an `about` array are that array's walk's warnings. */
  lemma BasicsWarnSelect(basics: Json, list: EntryList)
    requires list == Profiles || AboutList(list)
    requires BasicsCheck(basics).completion.Normal?
    ensures ListCheck(list, BasicsArrayOf(basics, list)).completion.Normal?
    ensures Select(BasicsCheck(basics).warnings, EntrySection(list)) == ListCheck(list, BasicsArrayOf(basics, list)).warnings
  {
    if Truthy(basics) {
      if list == Profiles {
        ProfilesWarnSelect(basics);
      } else {
        AboutWarnSelect(basics, list);
      }
    }
  }

  /** The warnings of a walk of one field that ran to its end, entry by entry. */
  lemma ListWarnings(list: EntryList, v: Json)
    requires ListCheck(list, v).completion.Normal?
    ensures forall i: nat :: ColorNotString(list, i) in ListCheck(list, v).warnings <==>
      v.Arr? && i < |v.items| && !Nullish(v.items[i]) && BadColor(list, v.items[i])
    ensures forall i: nat :: EntryIncomplete(list, i) in ListCheck(list, v).warnings <==>
      IncompleteIsWarning(list) && v.Arr? && i < |v.items| && !Nullish(v.items[i]) && Incomplete(list, v.items[i])
  {
    if v.Arr? {
      ScanNormal(list, v.items);
      ScanColorIff(list, v.items);
      ScanWarningIndices(list, v.items);
      if IncompleteIsWarning(list) {
        ScanWarningsIff(list, v.items);
      }
    }
  }

  /** On a validation that did not abort, the warnings on the entries of
      `profiles` or of an `about` array are that array's walk's warnings. */
  lemma WarningSelect(data: Json, list: EntryList)
    requires Truthy(data) && IsObjectType(data)
    requires list == Profiles || AboutList(list)
    requires forall d | d in Validation(data).errors :: !d.Aborted?
    ensures ListCheck(list, BasicsArray(data, list)).completion.Normal?
    ensures Select(Validation(data).warnings, EntrySection(list)) == ListCheck(list, BasicsArray(data, list)).warnings
  {
    NormalWalk(data);
    BasicsSections(data, EntrySection(list));
    BasicsWarnSelect(Get(data, "basics"), list);
  }

  /** The warnings on the entries of `profiles`, of the `about` arrays and of
      the quote's values, on a validation that did not abort: they are the
      array's walk's warnings; entry `i` gets a non-string-color warning
      exactly when its list checks `color` and the entry's `color` is truthy
      and not a string; and it gets an incomplete-entry warning exactly when
      its list is warn-only (profiles, legacy tags) and it lacks a required
      field. */
  lemma WarningRules(data: Json, list: EntryList)
    requires Truthy(data) && IsObjectType(data)
    requires list == Profiles || AboutList(list)
    requires forall d | d in Validation(data).errors :: !d.Aborted?
    ensures var v := BasicsArray(data, list);
      && Select(Validation(data).warnings, EntrySection(list)) == ListCheck(list, v).warnings
      && (forall i: nat :: ColorNotString(list, i) in Validation(data).warnings <==>
            v.Arr? && i < |v.items| && !Nullish(v.items[i]) && BadColor(list, v.items[i]))
      && (forall i: nat :: EntryIncomplete(list, i) in Validation(data).warnings <==>
            IncompleteIsWarning(list) && v.Arr? && i < |v.items| && !Nullish(v.items[i]) && Incomplete(list, v.items[i]))
  {
    WarningSelect(data, list);
    SectionWarnings(Validation(data).warnings, list, BasicsArray(data, list));
  }

  /** Warnings whose section of `list` is the walk of `v` name an entry of
      `list` exactly when that walk does. */
  lemma SectionWarnings(ws: seq<Diagnostic>, list: EntryList, v: Json)
    requires ListCheck(list, v).completion.Normal?
    requires Select(ws, EntrySection(list)) == ListCheck(list, v).warnings
    ensures forall i: nat :: ColorNotString(list, i) in ws <==>
      v.Arr? && i < |v.items| && !Nullish(v.items[i]) && BadColor(list, v.items[i])
    ensures forall i: nat :: EntryIncomplete(list, i) in ws <==>
      IncompleteIsWarning(list) && v.Arr? && i < |v.items| && !Nullish(v.items[i]) && Incomplete(list, v.items[i])
  {
    ListWarnings(list, v);
    SelectEntries(ws, ListCheck(list, v).warnings, list);
  }

  /** The entry diagnostics of `list` in `ds` are those of its section. */
  lemma SelectEntries(ds: seq<Diagnostic>, section: seq<Diagnostic>, list: EntryList)
    requires Select(ds, EntrySection(list)) == section
    ensures forall i: nat :: ColorNotString(list, i) in ds <==> ColorNotString(list, i) in section
    ensures forall i: nat :: EntryIncomplete(list, i) in ds <==> EntryIncomplete(list, i) in section
  {
    SelectMembers(ds, EntrySection(list));
  }

  // ---------------------------------------------------------------------
  // What the validator never looks at, and a document it accepts

  /** The top-level fields the validator reads. */
  const CheckedFields: seq<string> := ["pageLayout", "basics", "images"] + ArrayFields

  lemma {:induction false} ArrayTypeErrorsFrame(a: Json, b: Json, fields: seq<string>)
    requires !Nullish(a) && !Nullish(b)
    requires forall k | k in fields :: Get(a, k) == Get(b, k)
    ensures ArrayTypeErrors(a, fields) == ArrayTypeErrors(b, fields)
  {
    if fields != [] {
      var n := |fields| - 1;
      assert fields[n] in fields;
      assert forall k | k in fields[..n] :: k in fields;
      ArrayTypeErrorsFrame(a, b, fields[..n]);
    }
  }

  /** Only the checked fields matter: two object documents that agree on
      them validate alike, whatever else they hold (`volunteer`, `awards`,
      `analyticsCode`, ...). */
  lemma UncheckedFieldsIgnored(a: Json, b: Json)
    requires a.Obj? && b.Obj?
    requires forall k | k in CheckedFields :: Get(a, k) == Get(b, k)
    ensures Validation(a) == Validation(b)
  {
    CheckedMembers();
    ArrayTypeErrorsFrame(a, b, ArrayFields);
    SameChecked(a, b);
  }

  lemma CheckedMembers()
    ensures forall k | k in ArrayFields :: k in CheckedFields
    ensures "pageLayout" in CheckedFields && "basics" in CheckedFields && "images" in CheckedFields
    ensures "work" in CheckedFields && "education" in CheckedFields
    ensures "skills" in CheckedFields && "projects" in CheckedFields
  {
  }

  /** Two objects that agree on every field the walk reads, and whose
      array type checks agree, walk alike. */
  lemma SameChecked(a: Json, b: Json)
    requires a.Obj? && b.Obj?
    requires Get(a, "pageLayout") == Get(b, "pageLayout") && Get(a, "basics") == Get(b, "basics")
    requires Get(a, "images") == Get(b, "images")
    requires Get(a, "work") == Get(b, "work") && Get(a, "education") == Get(b, "education")
    requires Get(a, "skills") == Get(b, "skills") && Get(a, "projects") == Get(b, "projects")
    requires ArrayTypeErrors(a, ArrayFields) == ArrayTypeErrors(b, ArrayFields)
    ensures Validation(a) == Validation(b)
  {
    assert OptionalArraysCheck(a) == OptionalArraysCheck(b);
    assert Walk(a) == Walk(b);
  }

  /** A document with a canonical layout and a `basics` holding only a
      non-empty name and label is valid, with no warning. */
  lemma MinimalDocumentValid(name: string, title: string, layout: Json)
    requires name != "" && title != ""
    requires layout == Str("single") || layout == Str("two")
    ensures var basics := Obj(map["name" := Str(name), "label" := Str(title)]);
      Validation(Obj(map["basics" := basics, "pageLayout" := layout])) == ValidationResult(true, [], [])
  {
    var basics := Obj(map["name" := Str(name), "label" := Str(title)]);
    var data := Obj(map["basics" := basics, "pageLayout" := layout]);
    MinimalBasics(name, title);
    MinimalTop(data, basics, layout);
    MinimalClean(data, basics);
  }

  lemma MinimalClean(data: Json, basics: Json)
    requires data.Obj?
    requires forall k | k in ArrayFields :: k !in data.props
    requires Get(data, "basics") == basics && BasicsCheck(basics) == Nothing
    requires BasicStructureCheck(data) == Nothing
    requires PageLayoutCheck(Get(data, "pageLayout")) == Nothing
    requires ImagesCheck(Get(data, "images")) == Nothing
    ensures Validation(data) == ValidationResult(true, [], [])
  {
    NoArrays(data);
    CleanChecks(data);
  }

  lemma MinimalTop(data: Json, basics: Json, layout: Json)
    requires layout == Str("single") || layout == Str("two")
    requires data == Obj(map["basics" := basics, "pageLayout" := layout])
    requires Truthy(basics)
    ensures forall k | k in ArrayFields :: k !in data.props
    ensures Get(data, "basics") == basics
    ensures BasicStructureCheck(data) == Nothing
    ensures PageLayoutCheck(Get(data, "pageLayout")) == Nothing
    ensures ImagesCheck(Get(data, "images")) == Nothing
  {
  }

  /** A document on which every check reports nothing is valid, with no warning. */
  lemma CleanChecks(data: Json)
    requires !Nullish(data)
    requires BasicStructureCheck(data) == Nothing && PageLayoutCheck(Get(data, "pageLayout")) == Nothing
    requires BasicsCheck(Get(data, "basics")) == Nothing && OptionalArraysCheck(data) == Nothing
    requires ImagesCheck(Get(data, "images")) == Nothing
    ensures Validation(data) == ValidationResult(true, [], [])
  {
    NothingChain(BasicStructureCheck(data), PageLayoutCheck(Get(data, "pageLayout")), BasicsCheck(Get(data, "basics")),
                 OptionalArraysCheck(data), ImagesCheck(Get(data, "images")));
  }

  lemma MinimalBasics(name: string, title: string)
    requires name != "" && title != ""
    ensures BasicsCheck(Obj(map["name" := Str(name), "label" := Str(title)])) == Nothing
  {
    var basics := Obj(map["name" := Str(name), "label" := Str(title)]);
    assert BasicsFieldErrors(basics) == [];
    assert Get(basics, "profiles") == Undefined && Get(basics, "about") == Undefined;
  }

  /** A document holding none of the six array fields passes the array check. */
  lemma NoArrays(data: Json)
    requires data.Obj?
    requires forall k | k in ArrayFields :: k !in data.props
    ensures OptionalArraysCheck(data) == Nothing
  {
    NoTypeErrors(data, ArrayFields);
    var types := ArrayTypeErrors(data, ArrayFields);
    assert Get(data, "work") == Undefined && Get(data, "education") == Undefined;
    assert Get(data, "skills") == Undefined && Get(data, "projects") == Undefined;
    NothingChain(Errors(types), ListCheck(Work, Undefined), ListCheck(Education, Undefined),
                 ListCheck(Skills, Undefined), ListCheck(Projects, Undefined));
  }

  /** Each of `fields` is absent (falsy) or an array. */
  predicate ArraysOrAbsent(data: Json, fields: seq<string>)
    requires !Nullish(data)
  {
    forall k | k in fields :: !Truthy(Get(data, k)) || Get(data, k).Arr?
  }

  lemma {:induction false} NoTypeErrors(data: Json, fields: seq<string>)
    requires !Nullish(data)
    requires ArraysOrAbsent(data, fields)
    ensures ArrayTypeErrors(data, fields) == []
  {
    if fields != [] {
      var n := |fields| - 1;
      assert fields[n] in fields;
      assert forall k | k in fields[..n] :: k in fields;
      NoTypeErrors(data, fields[..n]);
    }
  }

  lemma NothingChain(a: Outcome, b: Outcome, c: Outcome, d: Outcome, e: Outcome)
    requires a == Nothing && b == Nothing && c == Nothing && d == Nothing && e == Nothing
    ensures Then(Then(Then(Then(a, b), c), d), e) == Nothing
  {
  }

  /** A document with a `basics`, a canonical layout and arrays (or
      nothing) in the six checked fields draws none of the structural
      diagnostics. */
  lemma StructurallySound(data: Json)
    requires Truthy(data) && IsObjectType(data)
    requires Truthy(Get(data, "basics"))
    requires Get(data, "pageLayout") == Str("single") || Get(data, "pageLayout") == Str("two")
    requires ArraysOrAbsent(data, ArrayFields)
    ensures var r := Validation(data);
      && (forall d | d in r.errors :: !d.MissingBasics? && !d.InvalidLayout? && !d.NotAnArray?)
      && (forall d | d in r.warnings :: !d.LayoutUnspecified?)
  {
    BasicsPresent(data);
    CanonicalLayoutSilent(data);
    ArraysPresent(data);
  }

  lemma BasicsPresent(data: Json)
    requires Truthy(data) && IsObjectType(data)
    requires Truthy(Get(data, "basics"))
    ensures forall d | d in Validation(data).errors :: !d.MissingBasics?
  {
    StructureRules(data);
    SelectMembers(Validation(data).errors, StructureSection);
  }

  lemma CanonicalLayoutSilent(data: Json)
    requires Truthy(data) && IsObjectType(data)
    requires Get(data, "pageLayout") == Str("single") || Get(data, "pageLayout") == Str("two")
    ensures forall d | d in Validation(data).errors :: !d.InvalidLayout?
    ensures forall d | d in Validation(data).warnings :: !d.LayoutUnspecified?
  {
    PageLayoutRules(data);
    SelectMembers(Validation(data).errors, LayoutSection);
    SelectMembers(Validation(data).warnings, LayoutSection);
  }

  lemma ArraysPresent(data: Json)
    requires Truthy(data) && IsObjectType(data)
    requires ArraysOrAbsent(data, ArrayFields)
    ensures forall d | d in Validation(data).errors :: !d.NotAnArray?
  {
    NoTypeErrors(data, ArrayFields);
    ArrayTypeRules(data);
    NoArrayTypeIn(Validation(data).errors);
  }

  lemma NoArrayTypeIn(ds: seq<Diagnostic>)
    requires Select(ds, ArrayTypeSection) == []
    ensures forall d | d in ds :: !d.NotAnArray?
  {
    SelectMembers(ds, ArrayTypeSection);
  }

  /** The lists are reset on every call: a validator that has already
      validated another document gives the same result as a fresh one, and
      two calls on the same data agree. */
  method ValidateTwice(earlier: Json, data: Json) returns (first: ValidationResult, second: ValidationResult)
    ensures first == Validation(data) && second == first
  {
    var validator := new CVValidator();
    var previous := validator.Validate(earlier);
    first := validator.Validate(data);
    second := validator.Validate(data);
  }
}
