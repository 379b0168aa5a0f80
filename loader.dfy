/**
 * The loader of the CV data file (`CVDataLoader`): it imports the raw
 * value tree, runs the validator on it for diagnostics only, and
 * normalises it into a `CV` document, substituting defaults. A failure to
 * import or to normalise yields a fixed fallback document instead. A
 * successful load is cached until `ClearCache`.
 *
 * The normalisation is expression-only and is modelled by functions; the
 * loader object, whose fields the source updates, by a class.
 */
module CvLoader {
  import opened Wrappers
  import opened Json
  import opened CvTypes
  import CvValidator

  /** Why a load took the fallback path. */
  datatype LoadError =
    | ImportFailed        // the data file could not be imported
    | RawDataNullish      // reading `rawData.analyticsCode` threw
    | BasicsNotObject     // `normalizeBasics` threw

  /** The placeholders `normalizeBasics` puts in place of a falsy name or label. */
  const UnknownName := "未知姓名"
  const UnspecifiedLabel := "未指定职位"

  /** The name and label of the fallback document. */
  const FallbackName := "数据加载失败"
  const FallbackLabel := "请检查cv.json文件"

  /** `normalizePageLayout`: the legacy names map to the canonical ones,
      the canonical ones are kept, and anything else becomes `two`. */
  function NormalizePageLayout(layout: Json): (r: PageLayout)
    ensures r == Single <==>
      layout == Str("single") || layout == Str("single-column") || layout == Str("single_column")
  {
    if layout == Str("two-column") || layout == Str("two_column") then Two
    else if layout == Str("single-column") || layout == Str("single_column") then Single
    else if layout == Str("single") then Single
    else if layout == Str("two") then Two
    else Two
  }

  /** `value || fallback` */
  function Or(value: Json, fallback: Json): Json {
    if Truthy(value) then value else fallback
  }

  /** `Array.isArray(v) ? v : []` */
  function ArrayOrEmpty(v: Json): seq<Json> {
    if v.Arr? then v.items else []
  }

  /** `normalizeBasics`: throws unless `basics` is a truthy object; fills in
      a falsy name or label, coerces `profiles` to a sequence, and copies
      the other fields. */
  function NormalizeBasics(basics: Json): (r: Result<Basics, LoadError>)
    ensures r.Failure? <==> !Truthy(basics) || !IsObjectType(basics)
    ensures r.Failure? ==> r.error == BasicsNotObject
    ensures r.Success? ==> Truthy(r.value.name) && Truthy(r.value.title)
  {
    if !Truthy(basics) || !IsObjectType(basics) then Failure(BasicsNotObject)
    else
      Success(Basics(
        name := Or(Get(basics, "name"), Str(UnknownName)),
        title := Or(Get(basics, "label"), Str(UnspecifiedLabel)),
        image := Get(basics, "image"),
        email := Get(basics, "email"),
        phone := Get(basics, "phone"),
        url := Get(basics, "url"),
        summary := Get(basics, "summary"),
        theme := Get(basics, "theme"),
        location := Get(basics, "location"),
        profiles := ArrayOrEmpty(Get(basics, "profiles")),
        beian := Get(basics, "beian"),
        about := Get(basics, "about")))
  }

  /** `normalizeData`: reading the first property of a null or undefined
      raw value throws; otherwise the basics are normalised (and may throw),
      and every other field gets its default. */
  function NormalizeData(raw: Json): (r: Result<CV, LoadError>)
    ensures r.Failure? <==> Nullish(raw) || NormalizeBasics(Get(raw, "basics")).Failure?
  {
    if Nullish(raw) then Failure(RawDataNullish)
    else
      var basics := NormalizeBasics(Get(raw, "basics"));
      if basics.Failure? then Failure(basics.error)
      else
        Success(CV(
          analyticsCode := Or(Get(raw, "analyticsCode"), Str("")),
          pageLayout := NormalizePageLayout(Get(raw, "pageLayout")),
          basics := basics.value,
          work := ArrayOrEmpty(Get(raw, "work")),
          volunteer := ArrayOrEmpty(Get(raw, "volunteer")),
          education := ArrayOrEmpty(Get(raw, "education")),
          awards := ArrayOrEmpty(Get(raw, "awards")),
          certificates := ArrayOrEmpty(Get(raw, "certificates")),
          publications := ArrayOrEmpty(Get(raw, "publications")),
          skills := ArrayOrEmpty(Get(raw, "skills")),
          languages := ArrayOrEmpty(Get(raw, "languages")),
          interests := ArrayOrEmpty(Get(raw, "interests")),
          references := ArrayOrEmpty(Get(raw, "references")),
          projects := ArrayOrEmpty(Get(raw, "projects")),
          images := Or(Get(raw, "images"), Undefined)))
  }

  /** `getDefaultCV`: the fallback document. */
  function DefaultCV(): (cv: CV)
    ensures cv.basics.name == Str(FallbackName) && cv.basics.title == Str(FallbackLabel)
    ensures cv.pageLayout == Two && cv.basics.profiles == []
    ensures forall f :: Sequence(cv, f) == []
    ensures cv.analyticsCode == Str("") && cv.images == Undefined
    ensures var b := cv.basics;
      && b.image == Undefined && b.email == Undefined && b.phone == Undefined && b.url == Undefined
      && b.summary == Undefined && b.theme == Undefined && b.location == Undefined
      && b.beian == Undefined && b.about == Undefined
  {
    CV(
      analyticsCode := Str(""),
      pageLayout := Two,
      basics := Basics(
        name := Str(FallbackName), title := Str(FallbackLabel),
        image := Undefined, email := Undefined, phone := Undefined, url := Undefined,
        summary := Undefined, theme := Undefined, location := Undefined,
        profiles := [], beian := Undefined, about := Undefined),
      work := [], volunteer := [], education := [], awards := [], certificates := [],
      publications := [], skills := [], languages := [], interests := [], references := [],
      projects := [],
      images := Undefined)
  }

  /** A document the normalisation leaves as it is: a truthy name and label,
      an analytics code that is truthy or `""`, and images that are truthy
      or absent. */
  predicate IsNormal(cv: CV) {
    && Truthy(cv.basics.name) && Truthy(cv.basics.title)
    && (Truthy(cv.analyticsCode) || cv.analyticsCode == Str(""))
    && (Truthy(cv.images) || cv.images == Undefined)
  }

  /** What the dynamic import of the data file gives: the module's default
      export, or a failure. */
  datatype Fetch = Imported(default: Json) | ImportFailure

  /** `module.default || module`: a falsy default export gives the module
      namespace object itself, whose only property is `default`. */
  function RawData(default: Json): Json {
    if Truthy(default) then default else Obj(map["default" := default])
  }

  /** The normalised document an import gives, if importing and
      normalising do not throw. */
  function Normalized(f: Fetch): Option<CV> {
    if f.ImportFailure? then None
    else
      match NormalizeData(RawData(f.default))
      case Success(cv) => Some(cv)
      case Failure(_) => None
  }

  /** The document a load that bypasses the cache returns for `f`. */
  function LoadFrom(f: Fetch): CV {
    match Normalized(f)
    case Some(cv) => cv
    case None => DefaultCV()
  }

  /** The data file as the loader's import sees it. `Import` counts how
      often it was imported. */
  class CvJsonModule {
    var content: Fetch
    var imports: nat

    constructor (content: Fetch)
      ensures this.content == content && imports == 0
    {
      this.content := content;
      imports := 0;
    }

    method Import() returns (f: Fetch)
      modifies this
      ensures f == content && content == old(content)
      ensures imports == old(imports) + 1
    {
      imports := imports + 1;
      f := content;
    }
  }

  class CVDataLoader {
    var cachedData: Option<CV>
    var isLoaded: bool

    /** The cache is set exactly when the loader says it has loaded. */
    predicate Valid()
      reads this
    {
      isLoaded <==> cachedData.Some?
    }

    constructor ()
      ensures cachedData == None && !isLoaded
      ensures Valid()
    {
      cachedData := None;
      isLoaded := false;
    }

    /** `loadRawData`: imports the file and applies `module.default || module`. */
    method LoadRawData(file: CvJsonModule) returns (raw: Result<Json, LoadError>)
      modifies file
      ensures file.content == old(file.content) && file.imports == old(file.imports) + 1
      ensures raw == if file.content.ImportFailure? then Failure(ImportFailed) else Success(RawData(file.content.default))
    {
      var f := file.Import();
      if f.ImportFailure? {
        raw := Failure(ImportFailed);
      } else {
        raw := Success(RawData(f.default));
      }
    }

    /** `loadCV`: a cached document is returned without importing; otherwise
        the file is imported once, validated (for diagnostics only) and
        normalised. A normalised document is cached; any failure returns
        the fallback document and leaves the cache as it was. */
    method LoadCV(file: CvJsonModule) returns (cv: CV)
      modifies this, file
      ensures file.content == old(file.content)
      ensures old(isLoaded && cachedData.Some?) ==>
        cv == old(cachedData.value) && file.imports == old(file.imports)
        && cachedData == old(cachedData) && isLoaded == old(isLoaded)
      ensures !old(isLoaded && cachedData.Some?) ==>
        cv == LoadFrom(file.content) && file.imports == old(file.imports) + 1
        && (if Normalized(file.content).Some? then cachedData == Some(cv) && isLoaded
            else cachedData == old(cachedData) && isLoaded == old(isLoaded))
      ensures old(Valid()) ==> Valid()
    {
      if isLoaded && cachedData.Some? {
        return cachedData.value;
      }
      var raw := LoadRawData(file);
      if raw.Failure? {
        return DefaultCV();
      }
      var report := CvValidator.ValidateCV(raw.value);
      var normalized := NormalizeData(raw.value);
      if normalized.Failure? {
        return DefaultCV();
      }
      cachedData := Some(normalized.value);
      isLoaded := true;
      cv := normalized.value;
    }

    /** `clearCache`: forgets the cached document. */
    method ClearCache()
      modifies this
      ensures cachedData == None && !isLoaded
      ensures Valid()
    {
      cachedData := None;
      isLoaded := false;
    }
  }

  /** The `loadCV` convenience function, on the shared loader: it behaves
      as the loader's own `loadCV`, cache included. */
  method LoadCV(loader: CVDataLoader, file: CvJsonModule) returns (cv: CV)
    modifies loader, file
    ensures file.content == old(file.content)
    ensures old(loader.isLoaded && loader.cachedData.Some?) ==>
      cv == old(loader.cachedData.value) && file.imports == old(file.imports)
      && loader.cachedData == old(loader.cachedData) && loader.isLoaded == old(loader.isLoaded)
    ensures !old(loader.isLoaded && loader.cachedData.Some?) ==>
      cv == LoadFrom(file.content) && file.imports == old(file.imports) + 1
      && (if Normalized(file.content).Some? then loader.cachedData == Some(cv) && loader.isLoaded
          else loader.cachedData == old(loader.cachedData) && loader.isLoaded == old(loader.isLoaded))
    ensures old(loader.Valid()) ==> loader.Valid()
  {
    cv := loader.LoadCV(file);
  }

  /** The `getBasics` convenience function: the basics of the document
      `loadCV` gives, with the same effect on the cache. */
  method GetBasics(loader: CVDataLoader, file: CvJsonModule) returns (basics: Basics)
    modifies loader, file
    ensures file.content == old(file.content)
    ensures old(loader.isLoaded && loader.cachedData.Some?) ==>
      basics == old(loader.cachedData.value).basics && file.imports == old(file.imports)
      && loader.cachedData == old(loader.cachedData) && loader.isLoaded == old(loader.isLoaded)
    ensures !old(loader.isLoaded && loader.cachedData.Some?) ==>
      basics == LoadFrom(file.content).basics && file.imports == old(file.imports) + 1
      && (if Normalized(file.content).Some? then loader.cachedData == Some(LoadFrom(file.content)) && loader.isLoaded
          else loader.cachedData == old(loader.cachedData) && loader.isLoaded == old(loader.isLoaded))
    ensures old(loader.Valid()) ==> loader.Valid()
  {
    var cv := LoadCV(loader, file);
    basics := cv.basics;
  }
}
