/**
 * The structural validator of the CV data file (`CVValidator`). It walks a
 * value tree against the fixed schema and collects two ordered lists of
 * diagnostics: errors, which make the document invalid, and warnings,
 * which never do. Each private check pushes onto the validator's lists;
 * a check that throws stops the walk, and `Validate` turns the throw into
 * one more error.
 *
 * Every check is specified by a function returning an `Outcome`: what it
 * pushes onto each list, and whether it returned or threw. The methods of
 * the class are proved to push exactly that.
 */
module CvValidator {
  import opened Json

  /** The arrays whose entries are inspected one at a time. */
  datatype EntryList =
    | Profiles      // basics.profiles
    | PersonalInfo  // basics.about.personalInfo
    | Traits        // basics.about.traits
    | Highlights    // basics.about.highlights
    | QuoteValues   // basics.about.quote.values
    | Tags          // basics.about.tags (legacy layout)
    | Work
    | Education
    | Skills
    | Projects
    | ImageList     // images.list

  /** Why the walk threw. */
  datatype Cause =
    | RootNotObject                                // the document is falsy or not an object
    | NullishEntry(list: EntryList, index: nat)    // a property read on a null entry
    | LayoutNotPrintable                           // the invalid layout cannot be put in its message

  /** One diagnostic: its kind, and the field or entry it is about. */
  datatype Diagnostic =
    | MissingBasics
    | LayoutUnspecified
    | InvalidLayout(layout: Json)
    | RequiredString(field: string)     // basics.name or basics.label
    | NotAString(field: string)         // basics.email, basics.url or basics.theme
    | AboutNotObject
    | QuoteTextRequired
    | NotAnArray(field: string)         // one of the six checked top-level fields
    | EntryIncomplete(list: EntryList, index: nat)
    | ColorNotString(list: EntryList, index: nat)
    | Aborted(cause: Cause)

  /** An incomplete profile and an incomplete legacy tag are only warned about. */
  predicate IncompleteIsWarning(list: EntryList) {
    list == Profiles || list == Tags
  }

  /** Whether the validator reports `d` as a warning rather than an error. */
  predicate IsWarningKind(d: Diagnostic) {
    match d
    case LayoutUnspecified => true
    case EntryIncomplete(list, _) => IncompleteIsWarning(list)
    case ColorNotString(_, _) => true
    case _ => false
  }

  datatype Completion = Normal | Throw(cause: Cause)

  /** What a check contributes: the errors and the warnings it pushes, in
      order, and how it ends. */
  datatype Outcome = Outcome(errors: seq<Diagnostic>, warnings: seq<Diagnostic>, completion: Completion)

  const Nothing := Outcome([], [], Normal)

  function Errors(ds: seq<Diagnostic>): Outcome {
    Outcome(ds, [], Normal)
  }

  /** Running `first`, then `second` unless `first` threw. */
  function Then(first: Outcome, second: Outcome): Outcome {
    if first.completion.Throw? then first
    else Outcome(first.errors + second.errors, first.warnings + second.warnings, second.completion)
  }

  datatype ValidationResult = ValidationResult(isValid: bool, errors: seq<Diagnostic>, warnings: seq<Diagnostic>)

  // ---------------------------------------------------------------------
  // Entries of the inspected arrays

  /** The fields an entry of `list` must have, each with a truthy value. */
  function RequiredFields(list: EntryList): seq<string> {
    match list
    case Profiles => ["network", "username"]
    case PersonalInfo => ["emoji", "label", "value"]
    case Traits => ["emoji", "text"]
    case Highlights => ["emoji", "text"]
    case QuoteValues => ["emoji", "label"]
    case Tags => ["icon", "text"]
    case Work => ["name", "position", "startDate"]
    case Education => ["institution", "area", "studyType"]
    case Skills => ["name"]
    case Projects => ["name", "description"]
    case ImageList => ["image"]
  }

  predicate HasAll(entry: Json, fields: seq<string>)
    requires !Nullish(entry)
  {
    forall k | 0 <= k < |fields| :: Truthy(Get(entry, fields[k]))
  }

  predicate Incomplete(list: EntryList, entry: Json)
    requires !Nullish(entry)
  {
    !HasAll(entry, RequiredFields(list))
  }

  /** The lists whose entries may carry an optional `color` string. */
  predicate ChecksColor(list: EntryList) {
    list == PersonalInfo || list == Traits || list == Highlights || list == QuoteValues
  }

  predicate BadColor(list: EntryList, entry: Json)
    requires !Nullish(entry)
  {
    ChecksColor(list) && Truthy(Get(entry, "color")) && !Get(entry, "color").Str?
  }

  /** The callback run on entry `index` of `list`: a null or undefined entry
      throws on its first property read. */
  function EntryStep(list: EntryList, index: nat, entry: Json): Outcome {
    if Nullish(entry) then Outcome([], [], Throw(NullishEntry(list, index)))
    else
      var missing := if Incomplete(list, entry) then [EntryIncomplete(list, index)] else [];
      var color := if BadColor(list, entry) then [ColorNotString(list, index)] else [];
      if IncompleteIsWarning(list) then Outcome([], missing + color, Normal)
      else Outcome(missing, color, Normal)
  }

  /** `items.forEach(callback)`: the entries in order, up to the first throw. */
  function ScanEntries(list: EntryList, items: seq<Json>): Outcome
    decreases |items|
  {
    if items == [] then Nothing
    else
      var n := |items| - 1;
      Then(ScanEntries(list, items[..n]), EntryStep(list, n, items[n]))
  }

  /** `if (v && Array.isArray(v)) v.forEach(...)`: arrays are always truthy. */
  function ListCheck(list: EntryList, v: Json): Outcome {
    if v.Arr? then ScanEntries(list, v.items) else Nothing
  }

  // ---------------------------------------------------------------------
  // The private checks

  function BasicStructureCheck(data: Json): Outcome {
    if !Truthy(data) || !IsObjectType(data) then Outcome([], [], Throw(RootNotObject))
    else if !Truthy(Get(data, "basics")) then Errors([MissingBasics])
    else Nothing
  }

  /** The layout check: a missing layout is a warning, `"single"` and
      `"two"` pass, and any other value is an error whose message embeds the
      value, so a value whose string conversion throws ends the walk there. */
  function PageLayoutCheck(layout: Json): Outcome {
    if !Truthy(layout) then Outcome([], [LayoutUnspecified], Normal)
    else if layout == Str("single") || layout == Str("two") then Nothing
    else if StringConversionThrows(layout) then Outcome([], [], Throw(LayoutNotPrintable))
    else Errors([InvalidLayout(layout)])
  }

  /** The type checks on the scalar fields of a truthy `basics`: `name` and
      `label` are required strings, `email`, `url` and `theme` optional ones. */
  function BasicsFieldErrors(basics: Json): seq<Diagnostic>
    requires !Nullish(basics)
  {
    RequiredStringError(basics, "name") + RequiredStringError(basics, "label")
    + OptionalStringError(basics, "email") + OptionalStringError(basics, "url")
    + OptionalStringError(basics, "theme")
  }

  function RequiredStringError(basics: Json, field: string): seq<Diagnostic>
    requires !Nullish(basics)
  {
    if IsNonEmptyString(Get(basics, field)) then [] else [RequiredString(field)]
  }

  function OptionalStringError(basics: Json, field: string): seq<Diagnostic>
    requires !Nullish(basics)
  {
    var v := Get(basics, field);
    if Truthy(v) && !v.Str? then [NotAString(field)] else []
  }

  function BasicsCheck(basics: Json): Outcome {
    if !Truthy(basics) then Nothing
    else
      var about := Get(basics, "about");
      Then(Then(Errors(BasicsFieldErrors(basics)), ListCheck(Profiles, Get(basics, "profiles"))),
           if Truthy(about) then AboutCheck(about) else Nothing)
  }

  function QuoteCheck(quote: Json): Outcome {
    if !Truthy(quote) then Nothing
    else
      Then(Errors(if IsNonEmptyString(Get(quote, "text")) then [] else [QuoteTextRequired]),
           ListCheck(QuoteValues, Get(quote, "values")))
  }

  function AboutCheck(about: Json): Outcome {
    if !Truthy(about) || !IsObjectType(about) then Errors([AboutNotObject])
    else
      Then(Then(Then(Then(
        ListCheck(PersonalInfo, Get(about, "personalInfo")),
        ListCheck(Traits, Get(about, "traits"))),
        ListCheck(Highlights, Get(about, "highlights"))),
        QuoteCheck(Get(about, "quote"))),
        ListCheck(Tags, Get(about, "tags")))
  }

  /** The top-level fields whose array-ness is checked. */
  const ArrayFields: seq<string> := ["work", "education", "skills", "projects", "certificates", "languages"]

  /** A present (truthy) field among `fields` that is not an array is an error. */
  function ArrayTypeErrors(data: Json, fields: seq<string>): seq<Diagnostic>
    requires !Nullish(data)
    decreases |fields|
  {
    if fields == [] then []
    else
      var n := |fields| - 1;
      var v := Get(data, fields[n]);
      ArrayTypeErrors(data, fields[..n]) + (if Truthy(v) && !v.Arr? then [NotAnArray(fields[n])] else [])
  }

  function OptionalArraysCheck(data: Json): Outcome
    requires !Nullish(data)
  {
    Then(Then(Then(Then(
      Errors(ArrayTypeErrors(data, ArrayFields)),
      ListCheck(Work, Get(data, "work"))),
      ListCheck(Education, Get(data, "education"))),
      ListCheck(Skills, Get(data, "skills"))),
      ListCheck(Projects, Get(data, "projects")))
  }

  function ImagesCheck(images: Json): Outcome {
    if !Truthy(images) then Nothing else ListCheck(ImageList, Get(images, "list"))
  }

  /** The whole walk, in the order `validate` runs the checks. */
  function Walk(data: Json): Outcome {
    var structure := BasicStructureCheck(data);
    if structure.completion.Throw? then structure
    else
      Then(Then(Then(Then(
        structure,
        PageLayoutCheck(Get(data, "pageLayout"))),
        BasicsCheck(Get(data, "basics"))),
        OptionalArraysCheck(data)),
        ImagesCheck(Get(data, "images")))
  }

  /** The result of validating `data`: a throw becomes one more error, and
      the document is valid exactly when no error was recorded. */
  function Validation(data: Json): (r: ValidationResult)
    ensures r.isValid <==> r.errors == []
    ensures r.isValid <==> Walk(data).errors == [] && Walk(data).completion.Normal?
    ensures r.warnings == Walk(data).warnings
  {
    var w := Walk(data);
    var errors := if w.completion.Throw? then w.errors + [Aborted(w.completion.cause)] else w.errors;
    ValidationResult(|errors| == 0, errors, w.warnings)
  }

  // ---------------------------------------------------------------------
  // The validator object

  class CVValidator {
    var errors: seq<Diagnostic>
    var warnings: seq<Diagnostic>

    constructor ()
      ensures errors == [] && warnings == []
    {
      errors := [];
      warnings := [];
    }

    /** Validates `data`. The lists are reset first, so the result depends on
        `data` alone, and nothing is thrown to the caller. */
    method Validate(data: Json) returns (r: ValidationResult)
      modifies this
      ensures r == Validation(data)
      ensures errors == r.errors && warnings == r.warnings
    {
      errors := [];
      warnings := [];
      var c := RunChecks(data);
      assert errors == Walk(data).errors && warnings == Walk(data).warnings;
      if c.Throw? {
        errors := errors + [Aborted(c.cause)];
      }
      r := ValidationResult(|errors| == 0, errors, warnings);
    }

    /** The body of the `try` block: the checks in order, up to the first throw. */
    method RunChecks(data: Json) returns (c: Completion)
      modifies this
      ensures errors == old(errors) + Walk(data).errors
      ensures warnings == old(warnings) + Walk(data).warnings
      ensures c == Walk(data).completion
    {
      c := ValidateBasicStructure(data);
      if c.Throw? {
        return;
      }
      ghost var w := BasicStructureCheck(data);
      c := ValidatePageLayout(Get(data, "pageLayout"));
      Compose(old(errors), old(warnings), w, PageLayoutCheck(Get(data, "pageLayout")));
      w := Then(w, PageLayoutCheck(Get(data, "pageLayout")));
      if c.Throw? {
        assert w == Walk(data);
        return;
      }
      c := ValidateBasics(Get(data, "basics"));
      Compose(old(errors), old(warnings), w, BasicsCheck(Get(data, "basics")));
      w := Then(w, BasicsCheck(Get(data, "basics")));
      if c.Normal? {
        c := ValidateOptionalArrays(data);
        Compose(old(errors), old(warnings), w, OptionalArraysCheck(data));
        w := Then(w, OptionalArraysCheck(data));
        if c.Normal? {
          c := ValidateImages(Get(data, "images"));
          Compose(old(errors), old(warnings), w, ImagesCheck(Get(data, "images")));
          w := Then(w, ImagesCheck(Get(data, "images")));
        }
      }
      assert w == Walk(data);
    }

    method ValidateBasicStructure(data: Json) returns (c: Completion)
      modifies this
      ensures errors == old(errors) + BasicStructureCheck(data).errors
      ensures warnings == old(warnings) + BasicStructureCheck(data).warnings
      ensures c == BasicStructureCheck(data).completion
    {
      if !Truthy(data) || !IsObjectType(data) {
        return Throw(RootNotObject);
      }
      if !Truthy(Get(data, "basics")) {
        errors := errors + [MissingBasics];
      }
      c := Normal;
    }

    method ValidatePageLayout(layout: Json) returns (c: Completion)
      modifies this
      ensures errors == old(errors) + PageLayoutCheck(layout).errors
      ensures warnings == old(warnings) + PageLayoutCheck(layout).warnings
      ensures c == PageLayoutCheck(layout).completion
    {
      c := Normal;
      if !Truthy(layout) {
        warnings := warnings + [LayoutUnspecified];
        return;
      }
      if layout != Str("single") && layout != Str("two") {
        if StringConversionThrows(layout) {
          return Throw(LayoutNotPrintable);
        }
        errors := errors + [InvalidLayout(layout)];
      }
    }

    method ValidateBasics(basics: Json) returns (c: Completion)
      modifies this
      ensures errors == old(errors) + BasicsCheck(basics).errors
      ensures warnings == old(warnings) + BasicsCheck(basics).warnings
      ensures c == BasicsCheck(basics).completion
    {
      c := Normal;
      if !Truthy(basics) {
        return;
      }
      ValidateBasicsFields(basics);
      ghost var fields := BasicsFieldErrors(basics);
      ghost var w := Errors(fields);
      assert warnings == old(warnings) + w.warnings;
      var profiles := Get(basics, "profiles");
      c := ListLoop(Profiles, profiles);
      Compose(old(errors), old(warnings), w, ListCheck(Profiles, profiles));
      w := Then(w, ListCheck(Profiles, profiles));
      if c.Normal? {
        var about := Get(basics, "about");
        if Truthy(about) {
          c := ValidateAbout(about);
        }
        Compose(old(errors), old(warnings), w, if Truthy(about) then AboutCheck(about) else Nothing);
        w := Then(w, if Truthy(about) then AboutCheck(about) else Nothing);
      }
      assert w == BasicsCheck(basics);
    }

    /** The scalar-field checks at the start of the `basics` check. */
    method ValidateBasicsFields(basics: Json)
      requires !Nullish(basics)
      modifies this
      ensures errors == old(errors) + BasicsFieldErrors(basics)
      ensures warnings == old(warnings)
    {
      CheckRequiredString(basics, "name");
      ghost var fields := RequiredStringError(basics, "name");
      CheckRequiredString(basics, "label");
      Associative(old(errors), fields, RequiredStringError(basics, "label"));
      fields := fields + RequiredStringError(basics, "label");
      CheckOptionalString(basics, "email");
      Associative(old(errors), fields, OptionalStringError(basics, "email"));
      fields := fields + OptionalStringError(basics, "email");
      CheckOptionalString(basics, "url");
      Associative(old(errors), fields, OptionalStringError(basics, "url"));
      fields := fields + OptionalStringError(basics, "url");
      CheckOptionalString(basics, "theme");
      Associative(old(errors), fields, OptionalStringError(basics, "theme"));
    }

    /** `if (!basics[field] || typeof basics[field] !== "string") errors.push(...)` */
    method CheckRequiredString(basics: Json, field: string)
      requires !Nullish(basics)
      modifies this
      ensures errors == old(errors) + RequiredStringError(basics, field)
      ensures warnings == old(warnings)
    {
      var v := Get(basics, field);
      if !Truthy(v) || !v.Str? {
        errors := errors + [RequiredString(field)];
      }
    }

    /** `if (basics[field] && typeof basics[field] !== "string") errors.push(...)` */
    method CheckOptionalString(basics: Json, field: string)
      requires !Nullish(basics)
      modifies this
      ensures errors == old(errors) + OptionalStringError(basics, field)
      ensures warnings == old(warnings)
    {
      var v := Get(basics, field);
      if Truthy(v) && !v.Str? {
        errors := errors + [NotAString(field)];
      }
    }

    method ValidateAbout(about: Json) returns (c: Completion)
      modifies this
      ensures errors == old(errors) + AboutCheck(about).errors
      ensures warnings == old(warnings) + AboutCheck(about).warnings
      ensures c == AboutCheck(about).completion
    {
      c := Normal;
      if !Truthy(about) || !IsObjectType(about) {
        errors := errors + [AboutNotObject];
        return;
      }
      c := ListLoop(PersonalInfo, Get(about, "personalInfo"));
      ghost var w := ListCheck(PersonalInfo, Get(about, "personalInfo"));
      if c.Normal? {
        c := ListLoop(Traits, Get(about, "traits"));
        Compose(old(errors), old(warnings), w, ListCheck(Traits, Get(about, "traits")));
        w := Then(w, ListCheck(Traits, Get(about, "traits")));
        if c.Normal? {
          c := ListLoop(Highlights, Get(about, "highlights"));
          Compose(old(errors), old(warnings), w, ListCheck(Highlights, Get(about, "highlights")));
          w := Then(w, ListCheck(Highlights, Get(about, "highlights")));
          if c.Normal? {
            c := ValidateQuote(Get(about, "quote"));
            Compose(old(errors), old(warnings), w, QuoteCheck(Get(about, "quote")));
            w := Then(w, QuoteCheck(Get(about, "quote")));
            if c.Normal? {
              c := ListLoop(Tags, Get(about, "tags"));
              Compose(old(errors), old(warnings), w, ListCheck(Tags, Get(about, "tags")));
              w := Then(w, ListCheck(Tags, Get(about, "tags")));
            }
          }
        }
      }
      assert w == AboutCheck(about);
    }

    /** The `about.quote` part of the `about` check. */
    method ValidateQuote(quote: Json) returns (c: Completion)
      modifies this
      ensures errors == old(errors) + QuoteCheck(quote).errors
      ensures warnings == old(warnings) + QuoteCheck(quote).warnings
      ensures c == QuoteCheck(quote).completion
    {
      c := Normal;
      if Truthy(quote) {
        var text := Get(quote, "text");
        if !Truthy(text) || !text.Str? {
          errors := errors + [QuoteTextRequired];
        }
        ghost var w := Errors(if IsNonEmptyString(text) then [] else [QuoteTextRequired]);
        assert errors == old(errors) + w.errors && warnings == old(warnings) + w.warnings;
        c := ListLoop(QuoteValues, Get(quote, "values"));
        Compose(old(errors), old(warnings), w, ListCheck(QuoteValues, Get(quote, "values")));
      }
    }

    method ValidateOptionalArrays(data: Json) returns (c: Completion)
      requires !Nullish(data)
      modifies this
      ensures errors == old(errors) + OptionalArraysCheck(data).errors
      ensures warnings == old(warnings) + OptionalArraysCheck(data).warnings
      ensures c == OptionalArraysCheck(data).completion
    {
      ValidateArrayTypes(data);
      ghost var w := Errors(ArrayTypeErrors(data, ArrayFields));
      assert warnings == old(warnings) + w.warnings;
      c := ListLoop(Work, Get(data, "work"));
      Compose(old(errors), old(warnings), w, ListCheck(Work, Get(data, "work")));
      w := Then(w, ListCheck(Work, Get(data, "work")));
      if c.Normal? {
        c := ListLoop(Education, Get(data, "education"));
        Compose(old(errors), old(warnings), w, ListCheck(Education, Get(data, "education")));
        w := Then(w, ListCheck(Education, Get(data, "education")));
        if c.Normal? {
          c := ListLoop(Skills, Get(data, "skills"));
          Compose(old(errors), old(warnings), w, ListCheck(Skills, Get(data, "skills")));
          w := Then(w, ListCheck(Skills, Get(data, "skills")));
          if c.Normal? {
            c := ListLoop(Projects, Get(data, "projects"));
            Compose(old(errors), old(warnings), w, ListCheck(Projects, Get(data, "projects")));
            w := Then(w, ListCheck(Projects, Get(data, "projects")));
          }
        }
      }
      assert w == OptionalArraysCheck(data);
    }

    /** The type check over the listed top-level fields. */
    method ValidateArrayTypes(data: Json)
      requires !Nullish(data)
      modifies this
      ensures errors == old(errors) + ArrayTypeErrors(data, ArrayFields)
      ensures warnings == old(warnings)
    {
      var i := 0;
      while i < |ArrayFields|
        invariant 0 <= i <= |ArrayFields|
        invariant errors == old(errors) + ArrayTypeErrors(data, ArrayFields[..i])
        invariant warnings == old(warnings)
      {
        var v := Get(data, ArrayFields[i]);
        if Truthy(v) && !v.Arr? {
          errors := errors + [NotAnArray(ArrayFields[i])];
        }
        assert ArrayFields[..i + 1][..i] == ArrayFields[..i];
        i := i + 1;
      }
      assert ArrayFields[..i] == ArrayFields;
    }

    method ValidateImages(images: Json) returns (c: Completion)
      modifies this
      ensures errors == old(errors) + ImagesCheck(images).errors
      ensures warnings == old(warnings) + ImagesCheck(images).warnings
      ensures c == ImagesCheck(images).completion
    {
      c := Normal;
      if !Truthy(images) {
        return;
      }
      c := ListLoop(ImageList, Get(images, "list"));
    }

    /** `if (v && Array.isArray(v)) v.forEach(...)`. */
    method ListLoop(list: EntryList, v: Json) returns (c: Completion)
      modifies this
      ensures errors == old(errors) + ListCheck(list, v).errors
      ensures warnings == old(warnings) + ListCheck(list, v).warnings
      ensures c == ListCheck(list, v).completion
    {
      c := Normal;
      if v.Arr? {
        c := ScanEntriesLoop(list, v.items);
      }
    }

    /** The callback the `forEach` over `list` runs on entry `index`. */
    method EntryCallback(list: EntryList, index: nat, entry: Json) returns (c: Completion)
      modifies this
      ensures errors == old(errors) + EntryStep(list, index, entry).errors
      ensures warnings == old(warnings) + EntryStep(list, index, entry).warnings
      ensures c == EntryStep(list, index, entry).completion
    {
      if Nullish(entry) {
        return Throw(NullishEntry(list, index));
      }
      if Incomplete(list, entry) {
        if IncompleteIsWarning(list) {
          warnings := warnings + [EntryIncomplete(list, index)];
        } else {
          errors := errors + [EntryIncomplete(list, index)];
        }
      }
      if BadColor(list, entry) {
        warnings := warnings + [ColorNotString(list, index)];
      }
      c := Normal;
    }

    /** The `forEach` over the entries of `list`, stopped by the first throw. */
    method ScanEntriesLoop(list: EntryList, items: seq<Json>) returns (c: Completion)
      modifies this
      ensures errors == old(errors) + ScanEntries(list, items).errors
      ensures warnings == old(warnings) + ScanEntries(list, items).warnings
      ensures c == ScanEntries(list, items).completion
    {
      c := Normal;
      var i := 0;
      while i < |items| && c.Normal?
        invariant 0 <= i <= |items|
        invariant errors == old(errors) + ScanEntries(list, items[..i]).errors
        invariant warnings == old(warnings) + ScanEntries(list, items[..i]).warnings
        invariant c == ScanEntries(list, items[..i]).completion
      {
        ScanOneMore(list, items, i);
        Compose(old(errors), old(warnings), ScanEntries(list, items[..i]), EntryStep(list, i, items[i]));
        c := EntryCallback(list, i, items[i]);
        i := i + 1;
      }
      if c.Throw? {
        ThrowEndsScan(list, items, i);
      } else {
        assert items[..i] == items;
      }
    }
  }

  /** `validateCV`: a fresh validator run once. */
  method ValidateCV(data: Json) returns (r: ValidationResult)
    ensures r == Validation(data)
  {
    var validator := new CVValidator();
    r := validator.Validate(data);
  }

  // Bookkeeping: `Associative` and `Compose` only regroup sequences so that
  // the loop invariants above go through; they state nothing about the CV.

  lemma Associative(a: seq<Diagnostic>, b: seq<Diagnostic>, c: seq<Diagnostic>)
    ensures (a + b) + c == a + (b + c)
  {
  }

  /** Running one more check after `w` appends what it pushes. */
  lemma Compose(e0: seq<Diagnostic>, w0: seq<Diagnostic>, w: Outcome, o: Outcome)
    requires w.completion.Normal?
    ensures (e0 + w.errors) + o.errors == e0 + Then(w, o).errors
    ensures (w0 + w.warnings) + o.warnings == w0 + Then(w, o).warnings
    ensures o.completion == Then(w, o).completion
  {
  }

  /** The walk over one more entry. */
  lemma ScanOneMore(list: EntryList, items: seq<Json>, i: nat)
    requires i < |items|
    ensures ScanEntries(list, items[..i + 1]) == Then(ScanEntries(list, items[..i]), EntryStep(list, i, items[i]))
  {
    assert items[..i + 1][..i] == items[..i];
  }

  /** Once an entry has thrown, the later entries are never visited. */
  lemma {:induction false} ThrowEndsScan(list: EntryList, items: seq<Json>, i: nat)
    requires i <= |items|
    requires ScanEntries(list, items[..i]).completion.Throw?
    ensures ScanEntries(list, items) == ScanEntries(list, items[..i])
    decreases |items| - i
  {
    if i < |items| {
      var n := |items| - 1;
      assert items[..n][..i] == items[..i];
      if i < n {
        ThrowEndsScan(list, items[..n], i);
      } else {
        assert items[..n] == items[..i];
      }
    } else {
      assert items[..i] == items;
    }
  }
}
