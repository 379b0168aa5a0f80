/**
 * What the loader promises, proved about the functions that specify it:
 * the layout mapping, what the normalisation keeps and what it defaults,
 * that it is idempotent, that the loader never fails, how the cache
 * behaves, and how the normalised document relates to the validator.
 */
module CvLoaderProperties {
  import opened Wrappers
  import opened Json
  import opened CvTypes
  import opened CvLoader
  import CvValidator
  import CvValidatorProperties

  // ---------------------------------------------------------------------
  // Page layout

  /** A canonical layout survives the normalisation. */
  lemma LayoutRoundTrip(layout: PageLayout)
    ensures NormalizePageLayout(LayoutToJson(layout)) == layout
  {
  }

  /** Normalising the layout twice is normalising it once. */
  lemma LayoutIdempotent(layout: Json)
    ensures NormalizePageLayout(LayoutToJson(NormalizePageLayout(layout))) == NormalizePageLayout(layout)
  {
    LayoutRoundTrip(NormalizePageLayout(layout));
  }

  // ---------------------------------------------------------------------
  // Basics

  /** The fields of `basics` that are copied as they are. */
  const CopiedBasicsFields: seq<string> :=
    ["image", "email", "phone", "url", "summary", "theme", "location", "beian", "about"]

  /** Reading a `Basics` value back from its value tree. */
  lemma ReadBasics(b: Basics)
    ensures var out := BasicsToJson(b);
      && Get(out, "name") == b.name && Get(out, "label") == b.title
      && Get(out, "profiles") == Arr(b.profiles)
      && Get(out, "image") == b.image && Get(out, "email") == b.email && Get(out, "phone") == b.phone
      && Get(out, "url") == b.url && Get(out, "summary") == b.summary && Get(out, "theme") == b.theme
      && Get(out, "location") == b.location && Get(out, "beian") == b.beian && Get(out, "about") == b.about
  {
    var m := BasicsToJson(b).props;
    assert m["name"] == b.name && m["label"] == b.title && m["profiles"] == Arr(b.profiles);
    assert m["image"] == b.image && m["email"] == b.email && m["phone"] == b.phone;
    assert m["url"] == b.url && m["summary"] == b.summary && m["theme"] == b.theme;
    assert m["location"] == b.location && m["beian"] == b.beian && m["about"] == b.about;
  }

  /** A normalised `basics`, read back as a value tree, holds the source's
      copied fields unchanged, the source's name and label when they are
      truthy and the placeholders otherwise, and the source's profiles when
      they are an array and none otherwise. */
  lemma NormalizeBasicsKeeps(basics: Json)
    requires Truthy(basics) && IsObjectType(basics)
    ensures NormalizeBasics(basics).Success?
    ensures var out := BasicsToJson(NormalizeBasics(basics).value);
      && (forall f | f in CopiedBasicsFields :: Get(out, f) == Get(basics, f))
      && Get(out, "name") == (if Truthy(Get(basics, "name")) then Get(basics, "name") else Str(UnknownName))
      && Get(out, "label") == (if Truthy(Get(basics, "label")) then Get(basics, "label") else Str(UnspecifiedLabel))
      && Get(out, "profiles") == (if Get(basics, "profiles").Arr? then Get(basics, "profiles") else Arr([]))
  {
    KeepsCopied(basics);
    KeepsFilled(basics);
  }

  lemma KeepsCopied(basics: Json)
    requires Truthy(basics) && IsObjectType(basics)
    ensures NormalizeBasics(basics).Success?
    ensures var out := BasicsToJson(NormalizeBasics(basics).value);
      forall f | f in CopiedBasicsFields :: Get(out, f) == Get(basics, f)
  {
    var out := BasicsToJson(NormalizeBasics(basics).value);
    ReadBasics(NormalizeBasics(basics).value);
    SameCopiedFields(out, basics);
  }

  lemma SameCopiedFields(a: Json, b: Json)
    requires !Nullish(a) && !Nullish(b)
    requires Get(a, "image") == Get(b, "image") && Get(a, "email") == Get(b, "email")
    requires Get(a, "phone") == Get(b, "phone") && Get(a, "url") == Get(b, "url")
    requires Get(a, "summary") == Get(b, "summary") && Get(a, "theme") == Get(b, "theme")
    requires Get(a, "location") == Get(b, "location") && Get(a, "beian") == Get(b, "beian")
    requires Get(a, "about") == Get(b, "about")
    ensures forall f | f in CopiedBasicsFields :: Get(a, f) == Get(b, f)
  {
    assert forall f | f in CopiedBasicsFields ::
      f == "image" || f == "email" || f == "phone" || f == "url" || f == "summary" || f == "theme"
      || f == "location" || f == "beian" || f == "about";
  }

  lemma KeepsFilled(basics: Json)
    requires Truthy(basics) && IsObjectType(basics)
    ensures NormalizeBasics(basics).Success?
    ensures var out := BasicsToJson(NormalizeBasics(basics).value);
      && Get(out, "name") == (if Truthy(Get(basics, "name")) then Get(basics, "name") else Str(UnknownName))
      && Get(out, "label") == (if Truthy(Get(basics, "label")) then Get(basics, "label") else Str(UnspecifiedLabel))
      && Get(out, "profiles") == (if Get(basics, "profiles").Arr? then Get(basics, "profiles") else Arr([]))
  {
    ReadBasics(NormalizeBasics(basics).value);
  }

  /** The normalisation of `basics` keeps a `Basics` value exactly when its
      name and label are truthy. */
  lemma BasicsFixedPoint(b: Basics)
    ensures NormalizeBasics(BasicsToJson(b)) == Success(b) <==> Truthy(b.name) && Truthy(b.title)
  {
    ReadBasics(b);
  }

  // ---------------------------------------------------------------------
  // The whole document

  /** What the normalisation does to each top-level field: the eleven
      sequence fields are the raw arrays, or empty when not arrays; a falsy
      analytics code becomes `""` and falsy images become absent. */
  lemma NormalizeDataFields(raw: Json)
    requires NormalizeData(raw).Success?
    ensures var cv := NormalizeData(raw).value;
      && (forall f :: Sequence(cv, f) == (if Get(raw, Key(f)).Arr? then Get(raw, Key(f)).items else []))
      && cv.analyticsCode == (if Truthy(Get(raw, "analyticsCode")) then Get(raw, "analyticsCode") else Str(""))
      && cv.images == (if Truthy(Get(raw, "images")) then Get(raw, "images") else Undefined)
      && cv.pageLayout == NormalizePageLayout(Get(raw, "pageLayout"))
      && NormalizeBasics(Get(raw, "basics")) == Success(cv.basics)
  {
    var cv := NormalizeData(raw).value;
    forall f
      ensures Sequence(cv, f) == (if Get(raw, Key(f)).Arr? then Get(raw, Key(f)).items else [])
    {
    }
  }

  /** Every document the normalisation produces is normal. */
  lemma NormalizedIsNormal(raw: Json)
    requires NormalizeData(raw).Success?
    ensures IsNormal(NormalizeData(raw).value)
  {
  }

  /** Reading a `CV` value back from its value tree. */
  lemma ReadCV(cv: CV)
    ensures var raw := CVToJson(cv);
      && Get(raw, "analyticsCode") == cv.analyticsCode && Get(raw, "pageLayout") == LayoutToJson(cv.pageLayout)
      && Get(raw, "basics") == BasicsToJson(cv.basics) && Get(raw, "images") == cv.images
      && (forall f :: Get(raw, Key(f)) == Arr(Sequence(cv, f)))
  {
    ReadHead(cv);
    ReadSequences(cv);
  }

  /** The fields of a `CV` value tree that are not sequences. */
  lemma ReadHead(cv: CV)
    ensures var raw := CVToJson(cv);
      && Get(raw, "analyticsCode") == cv.analyticsCode && Get(raw, "pageLayout") == LayoutToJson(cv.pageLayout)
      && Get(raw, "basics") == BasicsToJson(cv.basics) && Get(raw, "images") == cv.images
  {
    var m := CVToJson(cv).props;
    assert m["analyticsCode"] == cv.analyticsCode && m["pageLayout"] == LayoutToJson(cv.pageLayout);
    assert m["basics"] == BasicsToJson(cv.basics) && m["images"] == cv.images;
  }

  lemma ReadSequences(cv: CV)
    ensures forall f :: Get(CVToJson(cv), Key(f)) == Arr(Sequence(cv, f))
  {
    forall f
      ensures Get(CVToJson(cv), Key(f)) == Arr(Sequence(cv, f))
    {
      ReadSequence(cv, f);
    }
  }

  lemma ReadSequence(cv: CV, f: SequenceField)
    ensures Get(CVToJson(cv), Key(f)) == Arr(Sequence(cv, f))
  {
    if f.Work? || f.Volunteer? || f.Education? || f.Awards? || f.Certificates? {
      ReadEarlySequence(cv, f);
    } else {
      ReadLateSequence(cv, f);
    }
  }

  lemma ReadEarlySequence(cv: CV, f: SequenceField)
    requires f.Work? || f.Volunteer? || f.Education? || f.Awards? || f.Certificates?
    ensures Get(CVToJson(cv), Key(f)) == Arr(Sequence(cv, f))
  {
    var m := CVToJson(cv).props;
    match f
    case Work => assert m["work"] == Arr(cv.work);
    case Volunteer => assert m["volunteer"] == Arr(cv.volunteer);
    case Education => assert m["education"] == Arr(cv.education);
    case Awards => assert m["awards"] == Arr(cv.awards);
    case Certificates => assert m["certificates"] == Arr(cv.certificates);
  }

  lemma ReadLateSequence(cv: CV, f: SequenceField)
    requires !(f.Work? || f.Volunteer? || f.Education? || f.Awards? || f.Certificates?)
    ensures Get(CVToJson(cv), Key(f)) == Arr(Sequence(cv, f))
  {
    var m := CVToJson(cv).props;
    match f
    case Publications => assert m["publications"] == Arr(cv.publications);
    case Skills => assert m["skills"] == Arr(cv.skills);
    case Languages => assert m["languages"] == Arr(cv.languages);
    case Interests => assert m["interests"] == Arr(cv.interests);
    case References => assert m["references"] == Arr(cv.references);
    case Projects => assert m["projects"] == Arr(cv.projects);
  }

  /** Two documents that agree on every field are equal. */
  lemma CVExtensional(a: CV, b: CV)
    requires a.analyticsCode == b.analyticsCode && a.pageLayout == b.pageLayout && a.basics == b.basics
    requires a.images == b.images
    requires forall f :: Sequence(a, f) == Sequence(b, f)
    ensures a == b
  {
    assert Sequence(a, Work) == Sequence(b, Work) && Sequence(a, Volunteer) == Sequence(b, Volunteer);
    assert Sequence(a, Education) == Sequence(b, Education) && Sequence(a, Awards) == Sequence(b, Awards);
    assert Sequence(a, Certificates) == Sequence(b, Certificates);
    assert Sequence(a, Publications) == Sequence(b, Publications);
    assert Sequence(a, Skills) == Sequence(b, Skills) && Sequence(a, Languages) == Sequence(b, Languages);
    assert Sequence(a, Interests) == Sequence(b, Interests) && Sequence(a, References) == Sequence(b, References);
    assert Sequence(a, Projects) == Sequence(b, Projects);
  }

  /** The normalisation keeps a document, read back as a value tree,
      exactly when the document is normal. */
  lemma NormalizeFixedPoint(cv: CV)
    ensures NormalizeData(CVToJson(cv)) == Success(cv) <==> IsNormal(cv)
  {
    var raw := CVToJson(cv);
    ReadCV(cv);
    BasicsFixedPoint(cv.basics);
    LayoutRoundTrip(cv.pageLayout);
    if IsNormal(cv) {
      NormalizeDataFields(raw);
      CVExtensional(NormalizeData(raw).value, cv);
    }
  }

  /** Normalising a normalised document gives it back. */
  lemma NormalizeIdempotent(raw: Json)
    requires NormalizeData(raw).Success?
    ensures NormalizeData(CVToJson(NormalizeData(raw).value)) == NormalizeData(raw)
  {
    NormalizedIsNormal(raw);
    NormalizeFixedPoint(NormalizeData(raw).value);
  }

  // ---------------------------------------------------------------------
  // Loading never fails

  lemma DefaultIsNormal()
    ensures IsNormal(DefaultCV())
    ensures NormalizeData(CVToJson(DefaultCV())) == Success(DefaultCV())
  {
    NormalizeFixedPoint(DefaultCV());
  }

  /** Whatever the import gives, the loader returns a normal document: the
      normalised one, or the fallback. */
  lemma LoadFromIsNormal(f: Fetch)
    ensures IsNormal(LoadFrom(f))
    ensures Normalized(f).None? <==> LoadFrom(f) == DefaultCV() && Normalized(f) != Some(DefaultCV())
  {
    DefaultIsNormal();
    if f.Imported? && NormalizeData(RawData(f.default)).Success? {
      NormalizedIsNormal(RawData(f.default));
    }
  }

  /** A falsy default export gives the module namespace object, which has
      no `basics`: the loader falls back. */
  lemma FalsyDefaultFallsBack(default: Json)
    requires !Truthy(default)
    ensures Normalized(Imported(default)).None?
    ensures LoadFrom(Imported(default)) == DefaultCV()
  {
    assert Get(RawData(default), "basics") == Undefined;
  }

  // ---------------------------------------------------------------------
  // The cache

  /** After a successful load, the next load returns the cached document
      without importing again. */
  method CachedAfterSuccess(file: CvJsonModule) returns (first: CV, second: CV)
    requires Normalized(file.content).Some?
    modifies file
    ensures first == LoadFrom(file.content) && second == first
    ensures file.imports == old(file.imports) + 1
  {
    var loader := new CVDataLoader();
    first := loader.LoadCV(file);
    second := loader.LoadCV(file);
  }

  /** The fallback path does not mark the loader as loaded: every load
      imports again and returns the fallback document. */
  method RetriedAfterFallback(file: CvJsonModule) returns (first: CV, second: CV)
    requires Normalized(file.content).None?
    modifies file
    ensures first == DefaultCV() && second == DefaultCV()
    ensures file.imports == old(file.imports) + 2
  {
    var loader := new CVDataLoader();
    first := loader.LoadCV(file);
    second := loader.LoadCV(file);
  }

  /** After `ClearCache`, the next load imports again. */
  method ReloadAfterClear(file: CvJsonModule) returns (first: CV, second: CV)
    modifies file
    ensures first == LoadFrom(file.content) && second == first
    ensures file.imports == old(file.imports) + 2
  {
    var loader := new CVDataLoader();
    first := loader.LoadCV(file);
    loader.ClearCache();
    second := loader.LoadCV(file);
  }

  // ---------------------------------------------------------------------
  // The normalised document and the validator

  /** Every document the loader can return, read back as a value tree,
      passes the validator's structural checks: `basics` is present, the
      layout is canonical, and the six checked fields are arrays. (Its
      fields may still fail the type checks: a truthy name that is not a
      string is kept.) */
  lemma NormalizedPassesStructure(cv: CV)
    ensures var r := CvValidator.Validation(CVToJson(cv));
      && (forall d | d in r.errors :: !d.MissingBasics? && !d.InvalidLayout? && !d.NotAnArray?)
      && (forall d | d in r.warnings :: !d.LayoutUnspecified?)
  {
    var data := CVToJson(cv);
    ReadCV(cv);
    assert Get(data, "basics").Obj?;
    assert Get(data, "pageLayout") == LayoutToJson(cv.pageLayout);
    ArraysOfDocument(cv);
    CvValidatorProperties.StructurallySound(data);
  }

  /** The six fields the validator type-checks are arrays in a document
      read back as a value tree. */
  lemma ArraysOfDocument(cv: CV)
    ensures CvValidatorProperties.ArraysOrAbsent(CVToJson(cv), CvValidator.ArrayFields)
  {
    ReadSequence(cv, Work);
    ReadSequence(cv, Education);
    ReadSequence(cv, Skills);
    ReadSequence(cv, Projects);
    ReadSequence(cv, Certificates);
    ReadSequence(cv, Languages);
  }

  /** The legacy layout names: the validator reports them as invalid, while
      the normalisation maps them to the canonical layouts. */
  lemma LegacyLayoutFlaggedButNormalised(raw: Json, legacy: string)
    requires raw.Obj?
    requires legacy == "two-column" || legacy == "two_column" || legacy == "single-column" || legacy == "single_column"
    requires Get(raw, "pageLayout") == Str(legacy)
    ensures CvValidator.InvalidLayout(Str(legacy)) in CvValidator.Validation(raw).errors
    ensures !CvValidator.Validation(raw).isValid
    ensures NormalizeData(raw).Success? ==>
      NormalizeData(raw).value.pageLayout == (if legacy == "single-column" || legacy == "single_column" then Single else Two)
  {
    var r := CvValidator.Validation(raw);
    CvValidatorProperties.PageLayoutRules(raw);
    CvValidatorProperties.SelectMembers(r.errors, CvValidatorProperties.LayoutSection);
    assert CvValidator.InvalidLayout(Str(legacy)) in CvValidatorProperties.Select(r.errors, CvValidatorProperties.LayoutSection);
  }

  /** The fallback document, read back as a value tree, is valid and draws
      no warning. */
  lemma DefaultCVValid()
    ensures CvValidator.Validation(CVToJson(DefaultCV())) == CvValidator.ValidationResult(true, [], [])
  {
    DefaultHeadClean();
    DefaultArraysClean();
    CvValidatorProperties.CleanChecks(CVToJson(DefaultCV()));
  }

  /** The fallback document draws nothing from the checks other than the array check. */
  lemma DefaultHeadClean()
    ensures var data := CVToJson(DefaultCV());
      && CvValidator.BasicStructureCheck(data) == CvValidator.Nothing
      && CvValidator.PageLayoutCheck(Get(data, "pageLayout")) == CvValidator.Nothing
      && CvValidator.BasicsCheck(Get(data, "basics")) == CvValidator.Nothing
      && CvValidator.ImagesCheck(Get(data, "images")) == CvValidator.Nothing
  {
    var cv := DefaultCV();
    ReadHead(cv);
    DefaultBasicsClean();
  }

  lemma DefaultBasicsClean()
    ensures CvValidator.BasicsCheck(BasicsToJson(DefaultCV().basics)) == CvValidator.Nothing
  {
    var b := DefaultCV().basics;
    var basics := BasicsToJson(b);
    ReadBasics(b);
    assert CvValidator.BasicsFieldErrors(basics) == [];
    assert CvValidator.ListCheck(CvValidator.Profiles, Get(basics, "profiles")) == CvValidator.Nothing;
  }

  lemma DefaultArraysClean()
    ensures CvValidator.OptionalArraysCheck(CVToJson(DefaultCV())) == CvValidator.Nothing
  {
    var cv := DefaultCV();
    var data := CVToJson(cv);
    ArraysOfDocument(cv);
    CvValidatorProperties.NoTypeErrors(data, CvValidator.ArrayFields);
    ReadSequence(cv, Work);
    ReadSequence(cv, Education);
    ReadSequence(cv, Skills);
    ReadSequence(cv, Projects);
    EmptyListsClean(data);
  }

  /** Empty inspected arrays and no type error: the array check reports nothing. */
  lemma EmptyListsClean(data: Json)
    requires !Nullish(data)
    requires CvValidator.ArrayTypeErrors(data, CvValidator.ArrayFields) == []
    requires Get(data, "work") == Arr([]) && Get(data, "education") == Arr([])
    requires Get(data, "skills") == Arr([]) && Get(data, "projects") == Arr([])
    ensures CvValidator.OptionalArraysCheck(data) == CvValidator.Nothing
  {
    CvValidatorProperties.NothingChain(
      CvValidator.Errors([]),
      CvValidator.ListCheck(CvValidator.Work, Arr([])), CvValidator.ListCheck(CvValidator.Education, Arr([])),
      CvValidator.ListCheck(CvValidator.Skills, Arr([])), CvValidator.ListCheck(CvValidator.Projects, Arr([])));
  }
}
