/**
 * When a validation aborts. Reading a field of a null or undefined entry
 * throws inside the walk, and `validate` turns the throw into one more
 * error. Here the walk is laid out as one flat sequence of seventeen steps,
 * run one after another until the first throw (`Chained`). Every array whose
 * entries are inspected has a step of its own (`ArrayStep`), so the step a
 * null entry stops the walk at, and what was reported before it, can be
 * read off that sequence.
 *
 * The headline lemmas are at the end: `AbortFreeExactly` (which documents
 * abort), `NullEntryAborts` (what a null entry leaves in the result) and
 * `NullProfileExample`.
 */
module CvValidatorAborts {
  import opened Json
  import opened CvValidator
  import opened CvValidatorProperties

  // ---------------------------------------------------------------------
  // Checks in a row

  /** The checks `os`, each run unless an earlier one threw. */
  function Chained(os: seq<Outcome>): Outcome
    decreases |os|
  {
    if os == [] then Nothing else Then(Chained(os[..|os| - 1]), os[|os| - 1])
  }

  // Bookkeeping: `Nothing` is neutral for `Then`, and a chain splits at any
  // point; no rule of the validator here.
  lemma ThenNothing(o: Outcome)
    ensures Then(o, Nothing) == o
    ensures Then(Nothing, o) == o
  {
    assert [] + o.errors == o.errors && [] + o.warnings == o.warnings;
    if o.completion.Normal? {
      assert o.errors + [] == o.errors && o.warnings + [] == o.warnings;
    }
  }

  lemma ChainSnoc(os: seq<Outcome>, x: Outcome)
    ensures Chained(os + [x]) == Then(Chained(os), x)
  {
    assert (os + [x])[..|os|] == os;
  }

  lemma ChainOne(x: Outcome)
    ensures Chained([x]) == x
  {
    assert [x][..0] == [];
    ThenNothing(x);
  }

  lemma {:induction false} ChainAppend(a: seq<Outcome>, b: seq<Outcome>)
    ensures Chained(a + b) == Then(Chained(a), Chained(b))
    decreases |b|
  {
    if b == [] {
      assert a + b == a;
      ThenNothing(Chained(a));
    } else {
      var n := |b| - 1;
      assert a + b == (a + b[..n]) + [b[n]];
      assert b == b[..n] + [b[n]];
      ChainSnoc(a + b[..n], b[n]);
      ChainSnoc(b[..n], b[n]);
      ChainAppend(a, b[..n]);
      ThenAssociative(Chained(a), Chained(b[..n]), b[n]);
    }
  }

  lemma ChainTwo(a: Outcome, b: Outcome)
    ensures Chained([a, b]) == Then(a, b)
  {
    assert [a, b] == [a] + [b];
    ChainSnoc([a], b);
    ChainOne(a);
  }

  lemma ChainFive(a: Outcome, b: Outcome, c: Outcome, d: Outcome, e: Outcome)
    ensures Chained([a, b, c, d, e]) == Then(Then(Then(Then(a, b), c), d), e)
  {
    assert [a, b, c, d, e] == [a, b] + [c] + [d] + [e];
    ChainSnoc([a, b] + [c] + [d], e);
    ChainSnoc([a, b] + [c], d);
    ChainSnoc([a, b], c);
    ChainTwo(a, b);
  }

  /** A chain runs to its end exactly when none of its checks throws. */
  lemma {:induction false} ChainNormal(os: seq<Outcome>)
    ensures Chained(os).completion.Normal? <==> forall j | 0 <= j < |os| :: os[j].completion.Normal?
  {
    if os != [] {
      var n := |os| - 1;
      ChainNormal(os[..n]);
    }
  }

  /** A chain whose first throw is at check `k`: the checks after it never
      run, and it reports what the checks up to `k` report. */
  lemma {:induction false} ChainStops(os: seq<Outcome>, k: nat)
    requires k < |os| && os[k].completion.Throw?
    requires forall j | 0 <= j < k :: os[j].completion.Normal?
    ensures Chained(os[..k]).completion.Normal?
    ensures Chained(os) == Chained(os[..k + 1])
    ensures Chained(os) ==
      Outcome(Chained(os[..k]).errors + os[k].errors, Chained(os[..k]).warnings + os[k].warnings, os[k].completion)
    decreases |os|
  {
    ChainNormal(os[..k]);
    var n := |os| - 1;
    assert os[..k + 1][..k] == os[..k];
    if n == k {
      assert os[..k + 1] == os;
    } else {
      assert os[..n][..k] == os[..k];
      assert os[..n][..k + 1] == os[..k + 1];
      ChainStops(os[..n], k);
    }
  }

  // ---------------------------------------------------------------------
  // What each step may report

  /** The place of each inspected array's walk among the steps, in the
      order `validate` runs them. */
  function ArrayStep(list: EntryList): nat {
    match list
    case Profiles => 3
    case PersonalInfo => 5
    case Traits => 6
    case Highlights => 7
    case QuoteValues => 9
    case Tags => 10
    case Work => 12
    case Education => 13
    case Skills => 14
    case Projects => 15
    case ImageList => 16
  }

  const ArraySteps: set<nat> := {3, 5, 6, 7, 9, 10, 12, 13, 14, 15, 16}

  /** The array walked at step `k`. */
  function ListAtStep(k: nat): (list: EntryList)
    requires k in ArraySteps
    ensures ArrayStep(list) == k
  {
    if k == 3 then Profiles
    else if k == 5 then PersonalInfo
    else if k == 6 then Traits
    else if k == 7 then Highlights
    else if k == 9 then QuoteValues
    else if k == 10 then Tags
    else if k == 12 then Work
    else if k == 13 then Education
    else if k == 14 then Skills
    else if k == 15 then Projects
    else ImageList
  }

  /** The place of the layout check and of the array-type check among the steps. */
  const LayoutStep: nat := 1
  const TypesStep: nat := 11

  /** `d` may be reported by step `k`: it is never an abort, an entry
      report comes only from its array's step, and a type error only from
      the array-type step. */
  predicate OnStep(d: Diagnostic, k: nat) {
    && !d.Aborted?
    && ((d.EntryIncomplete? || d.ColorNotString?) ==> ArrayStep(d.list) == k)
    && (d.NotAnArray? ==> k == TypesStep)
  }

  /** A section that no step before `bound` reports in. */
  predicate Unreached(s: Section, bound: nat) {
    || s == AbortSection
    || (s.EntrySection? && ArrayStep(s.list) >= bound)
    || (s == ArrayTypeSection && TypesStep >= bound)
  }

  /** Step `k` reports nothing in the sections only later steps reach. */
  ghost predicate StepShaped(o: Outcome, k: nat) {
    forall s | Unreached(s, k + 1) :: Select(o.errors, s) == [] && Select(o.warnings, s) == []
  }

  lemma ShapedByDiagnostics(o: Outcome, k: nat)
    requires forall d | d in o.errors :: OnStep(d, k)
    requires forall d | d in o.warnings :: OnStep(d, k)
    ensures StepShaped(o, k)
  {
    forall s | Unreached(s, k + 1)
      ensures Select(o.errors, s) == [] && Select(o.warnings, s) == []
    {
      SelectOutside(o.errors, s);
      SelectOutside(o.warnings, s);
    }
  }

  /** Step `k0 + j` of the walk is `os[j]`, and each reports nothing in
      the sections only later steps reach. */
  ghost predicate RunShaped(os: seq<Outcome>, k0: nat) {
    forall j | 0 <= j < |os| :: StepShaped(os[j], k0 + j)
  }

  // Bookkeeping: laying steps end to end; no rule of the validator here.
  lemma Single(x: Outcome, k: nat)
    requires StepShaped(x, k)
    ensures RunShaped([x], k) && Chained([x]) == x
  {
    ChainOne(x);
  }

  lemma Join(a: seq<Outcome>, b: seq<Outcome>, k0: nat, k1: nat)
    requires k1 == k0 + |a|
    requires RunShaped(a, k0) && RunShaped(b, k1)
    ensures RunShaped(a + b, k0)
    ensures Chained(a + b) == Then(Chained(a), Chained(b))
  {
    ChainAppend(a, b);
    forall j | 0 <= j < |a + b|
      ensures StepShaped((a + b)[j], k0 + j)
    {
      if j < |a| {
        assert (a + b)[j] == a[j];
      } else {
        assert (a + b)[j] == b[j - |a|];
        assert k1 + (j - |a|) == k0 + j;
      }
    }
  }

  lemma RunPrefix(os: seq<Outcome>, n: nat)
    requires RunShaped(os, 0) && n <= |os|
    ensures RunShaped(os[..n], 0)
  {
    forall j | 0 <= j < n
      ensures StepShaped(os[..n][j], j)
    {
      assert os[..n][j] == os[j];
    }
  }

  /** A chain of steps reports nothing in a section none of them reports in. */
  lemma {:induction false} ChainUnreached(os: seq<Outcome>, s: Section)
    requires RunShaped(os, 0)
    requires Unreached(s, |os|)
    ensures Select(Chained(os).errors, s) == [] && Select(Chained(os).warnings, s) == []
  {
    if os != [] {
      var n := |os| - 1;
      RunPrefix(os, n);
      ChainUnreached(os[..n], s);
      assert StepShaped(os[n], n);
      if Chained(os[..n]).completion.Normal? {
        SelectAppend(Chained(os[..n]).errors, os[n].errors, s);
        SelectAppend(Chained(os[..n]).warnings, os[n].warnings, s);
      }
    }
  }

  /** A chain whose first throw is at step `p`: a section no earlier step
      reaches holds what step `p` reported. */
  lemma ChainSectionAt(os: seq<Outcome>, p: nat, s: Section)
    requires RunShaped(os, 0)
    requires p < |os| && os[p].completion.Throw?
    requires forall j | 0 <= j < p :: os[j].completion.Normal?
    requires Unreached(s, p)
    ensures Select(Chained(os).errors, s) == Select(os[p].errors, s)
    ensures Select(Chained(os).warnings, s) == Select(os[p].warnings, s)
  {
    ChainStops(os, p);
    RunPrefix(os, p);
    ChainUnreached(os[..p], s);
    SelectAppend(Chained(os[..p]).errors, os[p].errors, s);
    SelectAppend(Chained(os[..p]).warnings, os[p].warnings, s);
  }

  /** A chain whose first throw is at step `p`: a section only later steps
      reach holds nothing. */
  lemma ChainSectionLater(os: seq<Outcome>, p: nat, s: Section)
    requires RunShaped(os, 0)
    requires p < |os| && os[p].completion.Throw?
    requires forall j | 0 <= j < p :: os[j].completion.Normal?
    requires Unreached(s, p + 1)
    ensures Select(Chained(os).errors, s) == [] && Select(Chained(os).warnings, s) == []
  {
    ChainStops(os, p);
    RunPrefix(os, p + 1);
    ChainUnreached(os[..p + 1], s);
  }

  /** A thrown walk as `validate` records it: the abort is the last error
      and the only one, and every other section is the walk's. */
  lemma AbortLast(w: Outcome, errors: seq<Diagnostic>)
    requires w.completion.Throw?
    requires Select(w.errors, AbortSection) == []
    requires errors == w.errors + (if w.completion.Throw? then [Aborted(w.completion.cause)] else [])
    ensures errors != [] && errors[|errors| - 1] == Aborted(w.completion.cause)
    ensures Select(errors, AbortSection) == [Aborted(w.completion.cause)]
    ensures forall s | s != AbortSection :: Select(errors, s) == Select(w.errors, s)
  {
    var abort := [Aborted(w.completion.cause)];
    assert errors == w.errors + abort;
    SelectAppend(w.errors, abort, AbortSection);
    SelectAll(abort, AbortSection);
    forall s | s != AbortSection
      ensures Select(errors, s) == Select(w.errors, s)
    {
      SelectAppend(w.errors, abort, s);
      SelectOutside(abort, s);
      assert Select(w.errors, s) + [] == Select(w.errors, s);
    }
  }

  // ---------------------------------------------------------------------
  // The walk as a sequence of steps

  /** The value the validator walks as `list`: `undefined` where it never
      reaches one (a missing container, or an `about` that is no object). */
  function WalkedArray(data: Json, list: EntryList): Json
    requires !Nullish(data)
  {
    if list == ImageList then ImageListOf(Get(data, "images"))
    else if TopList(list) then Get(data, TopKey(list))
    else BasicsArray(data, list)
  }

  /** `os` are the steps of the walk of `data`: each reports nothing in the
      sections only later steps reach; the layout check and every array's
      walk sit at their places; every other step runs to its end. */
  ghost predicate StepsOf(data: Json, os: seq<Outcome>)
    requires !Nullish(data)
  {
    && |os| == 17
    && RunShaped(os, 0)
    && os[LayoutStep] == PageLayoutCheck(Get(data, "pageLayout"))
    && (forall list :: os[ArrayStep(list)] == ListCheck(list, WalkedArray(data, list)))
    && (forall k | 0 <= k < 17 && k != LayoutStep && k !in ArraySteps :: os[k].completion.Normal?)
  }

  lemma ListShaped(list: EntryList, v: Json, k: nat)
    requires k == ArrayStep(list)
    ensures StepShaped(ListCheck(list, v), k)
  {
    ListShape(list, v);
    ShapedByDiagnostics(ListCheck(list, v), k);
  }

  /** Five steps in a row, starting at step `k0`. */
  lemma Five(a: Outcome, b: Outcome, c: Outcome, d: Outcome, e: Outcome, k0: nat)
    requires StepShaped(a, k0) && StepShaped(b, k0 + 1) && StepShaped(c, k0 + 2)
    requires StepShaped(d, k0 + 3) && StepShaped(e, k0 + 4)
    ensures RunShaped([a, b, c, d, e], k0)
    ensures Chained([a, b, c, d, e]) == Then(Then(Then(Then(a, b), c), d), e)
  {
    ChainFive(a, b, c, d, e);
  }

  /** Seven steps in a row, starting at step `k0`. */
  lemma Seven(a: Outcome, b: Outcome, c: Outcome, d: Outcome, e: Outcome, f: Outcome, g: Outcome, k0: nat)
    requires StepShaped(a, k0) && StepShaped(b, k0 + 1) && StepShaped(c, k0 + 2) && StepShaped(d, k0 + 3)
    requires StepShaped(e, k0 + 4) && StepShaped(f, k0 + 5) && StepShaped(g, k0 + 6)
    ensures RunShaped([a, b, c, d, e, f, g], k0)
    ensures Chained([a, b, c, d, e, f, g]) == Then(Then(Then(Then(Then(Then(a, b), c), d), e), f), g)
  {
    ChainFive(a, b, c, d, e);
    assert [a, b, c, d, e, f] == [a, b, c, d, e] + [f];
    assert [a, b, c, d, e, f, g] == [a, b, c, d, e, f] + [g];
    ChainSnoc([a, b, c, d, e], f);
    ChainSnoc([a, b, c, d, e, f], g);
  }

  /** Two steps, then the run `rest`, starting at step `k0`. */
  lemma Prepend(a: Outcome, b: Outcome, rest: seq<Outcome>, k0: nat)
    requires StepShaped(a, k0) && StepShaped(b, k0 + 1) && RunShaped(rest, k0 + 2)
    ensures RunShaped([a, b] + rest, k0)
    ensures Chained([a, b] + rest) == Then(Then(a, b), Chained(rest))
  {
    Single(a, k0);
    Single(b, k0 + 1);
    Join([a], [b], k0, k0 + 1);
    ChainTwo(a, b);
    assert [a] + [b] == [a, b];
    Join([a, b], rest, k0, k0 + 2);
  }

  lemma PrependPlaced(a: Outcome, b: Outcome, rest: seq<Outcome>)
    requires |rest| == 7
    ensures var os := [a, b] + rest;
      && |os| == 9 && os[0] == a && os[1] == b
      && os[2] == rest[0] && os[3] == rest[1] && os[4] == rest[2] && os[5] == rest[3]
      && os[6] == rest[4] && os[7] == rest[5] && os[8] == rest[6]
  {
  }

  /** Two steps, nine, five and one, laid end to end. */
  lemma Assemble(structure: Outcome, layout: Outcome, basics: seq<Outcome>, arrays: seq<Outcome>, images: Outcome)
    requires |basics| == 9 && |arrays| == 5
    requires StepShaped(structure, 0) && StepShaped(layout, 1)
    requires RunShaped(basics, 2) && RunShaped(arrays, TypesStep) && StepShaped(images, 16)
    ensures var os := [structure, layout] + basics + arrays + [images];
      && |os| == 17 && RunShaped(os, 0)
      && Chained(os) == Then(Then(Then(Then(structure, layout), Chained(basics)), Chained(arrays)), images)
  {
    Prepend(structure, layout, basics, 0);
    var head := [structure, layout] + basics;
    Join(head, arrays, 0, 11);
    Single(images, 16);
    Join(head + arrays, [images], 0, 16);
    ChainOne(images);
  }

  lemma AssemblePlaced(structure: Outcome, layout: Outcome, basics: seq<Outcome>, arrays: seq<Outcome>, images: Outcome)
    requires |basics| == 9 && |arrays| == 5
    ensures var os := [structure, layout] + basics + arrays + [images];
      && |os| == 17 && os[0] == structure && os[1] == layout && os[16] == images
      && os[2] == basics[0] && os[3] == basics[1] && os[4] == basics[2]
      && os[5] == basics[3] && os[6] == basics[4] && os[7] == basics[5]
      && os[8] == basics[6] && os[9] == basics[7] && os[10] == basics[8]
      && os[11] == arrays[0] && os[12] == arrays[1] && os[13] == arrays[2]
      && os[14] == arrays[3] && os[15] == arrays[4]
  {
  }

  /** The `about` check as seven steps, the fifth to eleventh of the walk. */
  function AboutRun(about: Json): seq<Outcome> {
    var quote := QuoteOf(about);
    [ if Truthy(about) && !IsObjectType(about) then Errors([AboutNotObject]) else Nothing,
      ListCheck(PersonalInfo, AboutArray(about, PersonalInfo)),
      ListCheck(Traits, AboutArray(about, Traits)),
      ListCheck(Highlights, AboutArray(about, Highlights)),
      Errors(if Truthy(quote) && !IsNonEmptyString(Get(quote, "text")) then [QuoteTextRequired] else []),
      ListCheck(QuoteValues, AboutArray(about, QuoteValues)),
      ListCheck(Tags, AboutArray(about, Tags)) ]
  }

  lemma AboutSteps(about: Json)
    ensures var os := AboutRun(about);
      && |os| == 7 && RunShaped(os, 4)
      && Chained(os) == (if Truthy(about) then AboutCheck(about) else Nothing)
      && os[0].completion.Normal? && os[4].completion.Normal?
  {
    var quote := QuoteOf(about);
    var head := if Truthy(about) && !IsObjectType(about) then Errors([AboutNotObject]) else Nothing;
    var personal := ListCheck(PersonalInfo, AboutArray(about, PersonalInfo));
    var traits := ListCheck(Traits, AboutArray(about, Traits));
    var highlights := ListCheck(Highlights, AboutArray(about, Highlights));
    var text := Errors(if Truthy(quote) && !IsNonEmptyString(Get(quote, "text")) then [QuoteTextRequired] else []);
    var values := ListCheck(QuoteValues, AboutArray(about, QuoteValues));
    var tags := ListCheck(Tags, AboutArray(about, Tags));
    ShapedByDiagnostics(head, 4);
    ShapedByDiagnostics(text, 8);
    ListShaped(PersonalInfo, AboutArray(about, PersonalInfo), 5);
    ListShaped(Traits, AboutArray(about, Traits), 6);
    ListShaped(Highlights, AboutArray(about, Highlights), 7);
    ListShaped(QuoteValues, AboutArray(about, QuoteValues), 9);
    ListShaped(Tags, AboutArray(about, Tags), 10);
    Seven(head, personal, traits, highlights, text, values, tags, 4);
    AboutRegroup(about, head, personal, traits, highlights, text, values, tags);
  }

  /** The seven steps of `AboutSteps`, run in a row, are the `about` check. */
  lemma AboutRegroup(about: Json, head: Outcome, personal: Outcome, traits: Outcome, highlights: Outcome,
                     text: Outcome, values: Outcome, tags: Outcome)
    requires var quote := QuoteOf(about);
      && head == (if Truthy(about) && !IsObjectType(about) then Errors([AboutNotObject]) else Nothing)
      && personal == ListCheck(PersonalInfo, AboutArray(about, PersonalInfo))
      && traits == ListCheck(Traits, AboutArray(about, Traits))
      && highlights == ListCheck(Highlights, AboutArray(about, Highlights))
      && text == Errors(if Truthy(quote) && !IsNonEmptyString(Get(quote, "text")) then [QuoteTextRequired] else [])
      && values == ListCheck(QuoteValues, AboutArray(about, QuoteValues))
      && tags == ListCheck(Tags, AboutArray(about, Tags))
    ensures Then(Then(Then(Then(Then(Then(head, personal), traits), highlights), text), values), tags) ==
      if Truthy(about) then AboutCheck(about) else Nothing
  {
    var quote := QuoteOf(about);
    var front := Then(Then(Then(head, personal), traits), highlights);
    ThenAssociative(front, text, values);
    ThenNothing(personal);
    if !Truthy(about) || !IsObjectType(about) {
      ThenNothing(head);
      ThenNothing(Then(head, Nothing));
    } else if !Truthy(quote) {
      ThenNothing(Then(Then(personal, traits), highlights));
    }
  }

  /** The `basics` check as nine steps, the third to eleventh of the walk. */
  function BasicsRun(basics: Json): seq<Outcome> {
    [ if Truthy(basics) then Errors(BasicsFieldErrors(basics)) else Nothing,
      ListCheck(Profiles, BasicsArrayOf(basics, Profiles)) ] + AboutRun(AboutOfBasics(basics))
  }

  lemma BasicsSteps(basics: Json)
    ensures var os := BasicsRun(basics);
      && |os| == 9 && RunShaped(os, 2)
      && Chained(os) == BasicsCheck(basics)
      && os[1] == ListCheck(Profiles, BasicsArrayOf(basics, Profiles))
      && os[3] == ListCheck(PersonalInfo, BasicsArrayOf(basics, PersonalInfo))
      && os[4] == ListCheck(Traits, BasicsArrayOf(basics, Traits))
      && os[5] == ListCheck(Highlights, BasicsArrayOf(basics, Highlights))
      && os[7] == ListCheck(QuoteValues, BasicsArrayOf(basics, QuoteValues))
      && os[8] == ListCheck(Tags, BasicsArrayOf(basics, Tags))
      && os[0].completion.Normal? && os[2].completion.Normal? && os[6].completion.Normal?
  {
    var fields := if Truthy(basics) then Errors(BasicsFieldErrors(basics)) else Nothing;
    var profiles := ListCheck(Profiles, BasicsArrayOf(basics, Profiles));
    var rest := AboutRun(AboutOfBasics(basics));
    FieldsShaped(basics);
    ListShaped(Profiles, BasicsArrayOf(basics, Profiles), 3);
    AboutSteps(AboutOfBasics(basics));
    Prepend(fields, profiles, rest, 2);
    PrependPlaced(fields, profiles, rest);
    BasicsRegroup(basics, Chained(rest));
    BasicsPlaced(basics, BasicsRun(basics), rest);
  }

  lemma BasicsPlaced(basics: Json, os: seq<Outcome>, rest: seq<Outcome>)
    requires |os| == 9 && |rest| == 7
    requires os[1] == ListCheck(Profiles, BasicsArrayOf(basics, Profiles))
    requires && os[3] == rest[1] && os[4] == rest[2] && os[5] == rest[3] && os[7] == rest[5] && os[8] == rest[6]
    requires var about := AboutOfBasics(basics);
      && rest[1] == ListCheck(PersonalInfo, AboutArray(about, PersonalInfo))
      && rest[2] == ListCheck(Traits, AboutArray(about, Traits))
      && rest[3] == ListCheck(Highlights, AboutArray(about, Highlights))
      && rest[5] == ListCheck(QuoteValues, AboutArray(about, QuoteValues))
      && rest[6] == ListCheck(Tags, AboutArray(about, Tags))
    ensures os[3] == ListCheck(PersonalInfo, BasicsArrayOf(basics, PersonalInfo))
    ensures os[4] == ListCheck(Traits, BasicsArrayOf(basics, Traits))
    ensures os[5] == ListCheck(Highlights, BasicsArrayOf(basics, Highlights))
    ensures os[7] == ListCheck(QuoteValues, BasicsArrayOf(basics, QuoteValues))
    ensures os[8] == ListCheck(Tags, BasicsArrayOf(basics, Tags))
  {
  }

  lemma BasicsRegroup(basics: Json, about: Outcome)
    requires about == if Truthy(AboutOfBasics(basics)) then AboutCheck(AboutOfBasics(basics)) else Nothing
    ensures Then(Then(if Truthy(basics) then Errors(BasicsFieldErrors(basics)) else Nothing,
                      ListCheck(Profiles, BasicsArrayOf(basics, Profiles))), about)
      == BasicsCheck(basics)
  {
    if !Truthy(basics) {
      ThenNothing(Nothing);
      ThenNothing(Then(Nothing, Nothing));
    }
  }

  lemma FieldsShaped(basics: Json)
    ensures StepShaped(if Truthy(basics) then Errors(BasicsFieldErrors(basics)) else Nothing, 2)
  {
    if Truthy(basics) {
      BasicsFieldShape(basics);
    }
    ShapedByDiagnostics(if Truthy(basics) then Errors(BasicsFieldErrors(basics)) else Nothing, 2);
  }

  /** The array-type check and the four top-level array walks as five
      steps, the twelfth to sixteenth of the walk. */
  function TopRun(data: Json): seq<Outcome>
    requires !Nullish(data)
  {
    [ Errors(ArrayTypeErrors(data, ArrayFields)),
      ListCheck(Work, Get(data, "work")),
      ListCheck(Education, Get(data, "education")),
      ListCheck(Skills, Get(data, "skills")),
      ListCheck(Projects, Get(data, "projects")) ]
  }

  lemma TopSteps(data: Json)
    requires !Nullish(data)
    ensures var os := TopRun(data);
      && |os| == 5 && RunShaped(os, TypesStep)
      && Chained(os) == OptionalArraysCheck(data)
      && os[0].completion.Normal?
  {
    var types := Errors(ArrayTypeErrors(data, ArrayFields));
    var work := ListCheck(Work, Get(data, "work"));
    var education := ListCheck(Education, Get(data, "education"));
    var skills := ListCheck(Skills, Get(data, "skills"));
    var projects := ListCheck(Projects, Get(data, "projects"));
    TypesShaped(data);
    ListShaped(Work, Get(data, "work"), 12);
    ListShaped(Education, Get(data, "education"), 13);
    ListShaped(Skills, Get(data, "skills"), 14);
    ListShaped(Projects, Get(data, "projects"), 15);
    Five(types, work, education, skills, projects, 11);
  }

  lemma TypesShaped(data: Json)
    requires !Nullish(data)
    ensures StepShaped(Errors(ArrayTypeErrors(data, ArrayFields)), TypesStep)
  {
    ArrayTypeErrorsMeaning(data, ArrayFields);
    ShapedByDiagnostics(Errors(ArrayTypeErrors(data, ArrayFields)), TypesStep);
  }

  /** The walk of an object document as seventeen steps. */
  function WalkRun(data: Json): seq<Outcome>
    requires !Nullish(data)
  {
    [BasicStructureCheck(data), PageLayoutCheck(Get(data, "pageLayout"))]
      + BasicsRun(Get(data, "basics")) + TopRun(data) + [ListCheck(ImageList, WalkedArray(data, ImageList))]
  }

  lemma WalkSteps(data: Json)
    requires Truthy(data) && IsObjectType(data)
    ensures Walk(data) == Chained(WalkRun(data))
    ensures StepsOf(data, WalkRun(data))
  {
    var b := BasicsRun(Get(data, "basics"));
    var a := TopRun(data);
    WalkChain(data);
    BasicsSteps(Get(data, "basics"));
    AssemblePlaced(BasicStructureCheck(data), PageLayoutCheck(Get(data, "pageLayout")), b, a,
                   ListCheck(ImageList, WalkedArray(data, ImageList)));
    StepsPlaced(data, WalkRun(data));
  }

  lemma WalkChain(data: Json)
    requires Truthy(data) && IsObjectType(data)
    ensures |WalkRun(data)| == 17 && RunShaped(WalkRun(data), 0)
    ensures Walk(data) == Chained(WalkRun(data))
  {
    var structure := BasicStructureCheck(data);
    var layout := PageLayoutCheck(Get(data, "pageLayout"));
    var images := ListCheck(ImageList, WalkedArray(data, ImageList));
    var b := BasicsRun(Get(data, "basics"));
    var a := TopRun(data);
    ShapedByDiagnostics(structure, 0);
    ShapedByDiagnostics(layout, 1);
    ListShaped(ImageList, WalkedArray(data, ImageList), 16);
    BasicsSteps(Get(data, "basics"));
    TopSteps(data);
    Assemble(structure, layout, b, a, images);
    WalkRegroup(data);
  }

  lemma WalkRegroup(data: Json)
    requires Truthy(data) && IsObjectType(data)
    ensures Walk(data) == Then(Then(Then(Then(BasicStructureCheck(data), PageLayoutCheck(Get(data, "pageLayout"))),
      BasicsCheck(Get(data, "basics"))), OptionalArraysCheck(data)), ListCheck(ImageList, WalkedArray(data, ImageList)))
  {
    ThenNothing(Then(Then(Then(BasicStructureCheck(data), PageLayoutCheck(Get(data, "pageLayout"))),
      BasicsCheck(Get(data, "basics"))), OptionalArraysCheck(data)));
  }

  /** Where each step of `WalkRun` sits. */
  lemma StepsPlaced(data: Json, os: seq<Outcome>)
    requires Truthy(data) && IsObjectType(data)
    requires |os| == 17 && RunShaped(os, 0)
    requires os[0] == BasicStructureCheck(data) && os[1] == PageLayoutCheck(Get(data, "pageLayout"))
    requires var basics := Get(data, "basics");
      && os[3] == ListCheck(Profiles, BasicsArrayOf(basics, Profiles))
      && os[5] == ListCheck(PersonalInfo, BasicsArrayOf(basics, PersonalInfo))
      && os[6] == ListCheck(Traits, BasicsArrayOf(basics, Traits))
      && os[7] == ListCheck(Highlights, BasicsArrayOf(basics, Highlights))
      && os[9] == ListCheck(QuoteValues, BasicsArrayOf(basics, QuoteValues))
      && os[10] == ListCheck(Tags, BasicsArrayOf(basics, Tags))
    requires && os[12] == ListCheck(Work, Get(data, "work"))
      && os[13] == ListCheck(Education, Get(data, "education"))
      && os[14] == ListCheck(Skills, Get(data, "skills"))
      && os[15] == ListCheck(Projects, Get(data, "projects"))
      && os[16] == ListCheck(ImageList, WalkedArray(data, ImageList))
    requires os[2].completion.Normal? && os[4].completion.Normal? && os[8].completion.Normal?
    requires os[11].completion.Normal?
    ensures StepsOf(data, os)
  {
    ListsPlaced(data, os);
    OthersNormal(os);
  }

  lemma ListsPlaced(data: Json, os: seq<Outcome>)
    requires !Nullish(data) && |os| == 17
    requires var basics := Get(data, "basics");
      && os[3] == ListCheck(Profiles, BasicsArrayOf(basics, Profiles))
      && os[5] == ListCheck(PersonalInfo, BasicsArrayOf(basics, PersonalInfo))
      && os[6] == ListCheck(Traits, BasicsArrayOf(basics, Traits))
      && os[7] == ListCheck(Highlights, BasicsArrayOf(basics, Highlights))
      && os[9] == ListCheck(QuoteValues, BasicsArrayOf(basics, QuoteValues))
      && os[10] == ListCheck(Tags, BasicsArrayOf(basics, Tags))
    requires && os[12] == ListCheck(Work, Get(data, "work"))
      && os[13] == ListCheck(Education, Get(data, "education"))
      && os[14] == ListCheck(Skills, Get(data, "skills"))
      && os[15] == ListCheck(Projects, Get(data, "projects"))
      && os[16] == ListCheck(ImageList, WalkedArray(data, ImageList))
    ensures forall list :: os[ArrayStep(list)] == ListCheck(list, WalkedArray(data, list))
  {
    BasicsListsPlaced(data, os);
    TopListsPlaced(data, os);
    forall list
      ensures os[ArrayStep(list)] == ListCheck(list, WalkedArray(data, list))
    {
      if !(list == Profiles || AboutList(list)) {
        assert TopList(list) || list == ImageList;
      }
    }
  }

  lemma BasicsListsPlaced(data: Json, os: seq<Outcome>)
    requires !Nullish(data) && |os| == 17
    requires var basics := Get(data, "basics");
      && os[3] == ListCheck(Profiles, BasicsArrayOf(basics, Profiles))
      && os[5] == ListCheck(PersonalInfo, BasicsArrayOf(basics, PersonalInfo))
      && os[6] == ListCheck(Traits, BasicsArrayOf(basics, Traits))
      && os[7] == ListCheck(Highlights, BasicsArrayOf(basics, Highlights))
      && os[9] == ListCheck(QuoteValues, BasicsArrayOf(basics, QuoteValues))
      && os[10] == ListCheck(Tags, BasicsArrayOf(basics, Tags))
    ensures forall list | list == Profiles || AboutList(list) ::
      os[ArrayStep(list)] == ListCheck(list, WalkedArray(data, list))
  {
    forall list | list == Profiles || AboutList(list)
      ensures os[ArrayStep(list)] == ListCheck(list, WalkedArray(data, list))
    {
      WalkedBasics(data, list);
      match list
      case Profiles =>
      case PersonalInfo =>
      case Traits =>
      case Highlights =>
      case QuoteValues =>
      case Tags =>
    }
  }

  lemma WalkedBasics(data: Json, list: EntryList)
    requires !Nullish(data) && (list == Profiles || AboutList(list))
    ensures WalkedArray(data, list) == BasicsArrayOf(Get(data, "basics"), list)
  {
  }

  lemma TopListsPlaced(data: Json, os: seq<Outcome>)
    requires !Nullish(data) && |os| == 17
    requires && os[12] == ListCheck(Work, Get(data, "work"))
      && os[13] == ListCheck(Education, Get(data, "education"))
      && os[14] == ListCheck(Skills, Get(data, "skills"))
      && os[15] == ListCheck(Projects, Get(data, "projects"))
      && os[16] == ListCheck(ImageList, WalkedArray(data, ImageList))
    ensures forall list | TopList(list) || list == ImageList ::
      os[ArrayStep(list)] == ListCheck(list, WalkedArray(data, list))
  {
    forall list | TopList(list) || list == ImageList
      ensures os[ArrayStep(list)] == ListCheck(list, WalkedArray(data, list))
    {
      match list
      case Work =>
      case Education =>
      case Skills =>
      case Projects =>
      case ImageList =>
    }
  }

  lemma OthersNormal(os: seq<Outcome>)
    requires |os| == 17
    requires os[0].completion.Normal? && os[2].completion.Normal? && os[4].completion.Normal?
    requires os[8].completion.Normal? && os[11].completion.Normal?
    ensures forall k | 0 <= k < 17 && k != LayoutStep && k !in ArraySteps :: os[k].completion.Normal?
  {
  }



  // ---------------------------------------------------------------------
  // Which steps throw

  /** `v` is an array holding a null or undefined entry. */
  predicate NullIn(v: Json) {
    v.Arr? && exists i | 0 <= i < |v.items| :: Nullish(v.items[i])
  }

  /** Entry `i` of the array `v` is its first null or undefined one. */
  predicate FirstNull(v: Json, i: nat) {
    v.Arr? && i < |v.items| && Nullish(v.items[i]) && forall j | 0 <= j < i :: !Nullish(v.items[j])
  }

  /** The walk of one field throws exactly when it is an array holding a
      null or undefined entry. */
  lemma ListNormalIff(list: EntryList, v: Json)
    ensures ListCheck(list, v).completion.Normal? <==> !NullIn(v)
  {
    if v.Arr? {
      ScanNormal(list, v.items);
    }
  }

  /** The walk of one field up to its first null entry: what the entries
      before it give, then the throw. */
  lemma ListAtNull(list: EntryList, v: Json, i: nat)
    requires FirstNull(v, i)
    ensures ListCheck(list, v) ==
      Outcome(ScanEntries(list, v.items[..i]).errors, ScanEntries(list, v.items[..i]).warnings,
              Throw(NullishEntry(list, i)))
  {
    var items := v.items;
    ScanNormal(list, items[..i]);
    ScanOneMore(list, items, i);
    ThrowEndsScan(list, items, i + 1);
  }

  /** Before step `bound`, only the layout and the arrays can throw: when
      the layout can be printed and no array walked before `bound` holds a
      null entry, every step before it runs to its end. */
  lemma NormalBefore(data: Json, os: seq<Outcome>, bound: nat)
    requires !Nullish(data) && StepsOf(data, os)
    requires !StringConversionThrows(Get(data, "pageLayout"))
    requires forall list | ArrayStep(list) < bound :: !NullIn(WalkedArray(data, list))
    ensures forall k | 0 <= k < |os| && k < bound :: os[k].completion.Normal?
  {
    forall k | 0 <= k < |os| && k < bound
      ensures os[k].completion.Normal?
    {
      if k in ArraySteps {
        var list := ListAtStep(k);
        ListNormalIff(list, WalkedArray(data, list));
      }
    }
  }

  /** On the steps of a walk: none records an abort, and the walk runs to
      its end exactly when the layout can be printed and no walked array
      holds a null or undefined entry. */
  lemma ChainAbortFree(data: Json, os: seq<Outcome>)
    requires !Nullish(data) && StepsOf(data, os)
    ensures Select(Chained(os).errors, AbortSection) == []
    ensures Chained(os).completion.Normal? <==>
      !StringConversionThrows(Get(data, "pageLayout")) && forall list :: !NullIn(WalkedArray(data, list))
  {
    ChainUnreached(os, AbortSection);
    ChainNormal(os);
    forall list
      ensures os[ArrayStep(list)].completion.Normal? <==> !NullIn(WalkedArray(data, list))
    {
      ListNormalIff(list, WalkedArray(data, list));
    }
    if !StringConversionThrows(Get(data, "pageLayout")) && forall list :: !NullIn(WalkedArray(data, list)) {
      NormalBefore(data, os, |os|);
    }
  }

  lemma WalkAbortFree(data: Json)
    requires Truthy(data) && IsObjectType(data)
    ensures Select(Walk(data).errors, AbortSection) == []
    ensures Walk(data).completion.Normal? <==>
      !StringConversionThrows(Get(data, "pageLayout")) && forall list :: !NullIn(WalkedArray(data, list))
  {
    var os := WalkRun(data);
    WalkSteps(data);
    ChainAbortFree(data, os);
  }

  /** On the steps of a walk that meets a null entry first at entry `i` of
      `list`: the walk throws there, records no abort of its own, reports
      for `list` what the entries before `i` give, and nothing for the
      arrays walked later (nor, when `list` comes before them, for the
      array-type check). */
  lemma NullChain(data: Json, os: seq<Outcome>, list: EntryList, i: nat)
    requires !Nullish(data) && StepsOf(data, os)
    requires !StringConversionThrows(Get(data, "pageLayout"))
    requires FirstNull(WalkedArray(data, list), i)
    requires forall earlier | ArrayStep(earlier) < ArrayStep(list) :: !NullIn(WalkedArray(data, earlier))
    ensures var w := Chained(os);
      var before := ScanEntries(list, WalkedArray(data, list).items[..i]);
      && w.completion == Throw(NullishEntry(list, i))
      && Select(w.errors, AbortSection) == []
      && Select(w.errors, EntrySection(list)) == before.errors
      && Select(w.warnings, EntrySection(list)) == before.warnings
      && (forall later | ArrayStep(later) > ArrayStep(list) ::
            Select(w.errors, EntrySection(later)) == [] && Select(w.warnings, EntrySection(later)) == [])
      && (ArrayStep(list) < TypesStep ==> Select(w.errors, ArrayTypeSection) == [])
  {
    var before := ScanEntries(list, WalkedArray(data, list).items[..i]);
    NullStep(data, os, list, i);
    ChainNull(os, list, NullishEntry(list, i), before.errors, before.warnings);
  }

  /** The step that walks `list` throws at its first null entry, after the
      diagnostics of the entries before it; every earlier step completes. */
  lemma NullStep(data: Json, os: seq<Outcome>, list: EntryList, i: nat)
    requires !Nullish(data) && StepsOf(data, os)
    requires !StringConversionThrows(Get(data, "pageLayout"))
    requires FirstNull(WalkedArray(data, list), i)
    requires forall earlier | ArrayStep(earlier) < ArrayStep(list) :: !NullIn(WalkedArray(data, earlier))
    ensures var before := ScanEntries(list, WalkedArray(data, list).items[..i]);
      && ArrayStep(list) < |os|
      && os[ArrayStep(list)] == Outcome(before.errors, before.warnings, Throw(NullishEntry(list, i)))
      && (forall j | 0 <= j < ArrayStep(list) :: os[j].completion.Normal?)
      && Select(before.errors, EntrySection(list)) == before.errors
      && Select(before.warnings, EntrySection(list)) == before.warnings
  {
    var v := WalkedArray(data, list);
    var before := ScanEntries(list, v.items[..i]);
    NormalBefore(data, os, ArrayStep(list));
    ListAtNull(list, v, i);
    ScanOwnSection(list, v.items[..i]);
  }

  /** Everything a scan of `list` reports falls in that list's section. */
  lemma ScanOwnSection(list: EntryList, items: seq<Json>)
    ensures Select(ScanEntries(list, items).errors, EntrySection(list)) == ScanEntries(list, items).errors
    ensures Select(ScanEntries(list, items).warnings, EntrySection(list)) == ScanEntries(list, items).warnings
  {
    ScanShape(list, items);
    OnEntriesSelect(ScanEntries(list, items), list);
  }

  lemma OnEntriesSelect(o: Outcome, list: EntryList)
    requires OnEntries(o, list)
    ensures Select(o.errors, EntrySection(list)) == o.errors
    ensures Select(o.warnings, EntrySection(list)) == o.warnings
  {
    SelectAll(o.errors, EntrySection(list));
    SelectAll(o.warnings, EntrySection(list));
  }

  /** A run that throws at the step walking `list`: the chain throws the
      same cause, its sections before that step are empty, the list's own
      section is what that step reported, and later sections are empty. */
  lemma ChainNull(os: seq<Outcome>, list: EntryList, c: Cause, e: seq<Diagnostic>, wn: seq<Diagnostic>)
    requires RunShaped(os, 0) && ArrayStep(list) < |os|
    requires os[ArrayStep(list)] == Outcome(e, wn, Throw(c))
    requires forall j | 0 <= j < ArrayStep(list) :: os[j].completion.Normal?
    requires Select(e, EntrySection(list)) == e && Select(wn, EntrySection(list)) == wn
    ensures var w := Chained(os);
      && w.completion == Throw(c)
      && Select(w.errors, AbortSection) == []
      && Select(w.errors, EntrySection(list)) == e
      && Select(w.warnings, EntrySection(list)) == wn
      && (forall later | ArrayStep(later) > ArrayStep(list) ::
            Select(w.errors, EntrySection(later)) == [] && Select(w.warnings, EntrySection(later)) == [])
      && (ArrayStep(list) < TypesStep ==> Select(w.errors, ArrayTypeSection) == [])
  {
    var p := ArrayStep(list);
    ChainStops(os, p);
    ChainUnreached(os, AbortSection);
    ChainSectionAt(os, p, EntrySection(list));
    forall later | ArrayStep(later) > p
      ensures Select(Chained(os).errors, EntrySection(later)) == []
      ensures Select(Chained(os).warnings, EntrySection(later)) == []
    {
      ChainSectionLater(os, p, EntrySection(later));
    }
    if p < TypesStep {
      ChainSectionLater(os, p, ArrayTypeSection);
    }
  }

  lemma WalkNull(data: Json, list: EntryList, i: nat)
    requires Truthy(data) && IsObjectType(data)
    requires !StringConversionThrows(Get(data, "pageLayout"))
    requires FirstNull(WalkedArray(data, list), i)
    requires forall earlier | ArrayStep(earlier) < ArrayStep(list) :: !NullIn(WalkedArray(data, earlier))
    ensures var w := Walk(data);
      var before := ScanEntries(list, WalkedArray(data, list).items[..i]);
      && w.completion == Throw(NullishEntry(list, i))
      && Select(w.errors, AbortSection) == []
      && Select(w.errors, EntrySection(list)) == before.errors
      && Select(w.warnings, EntrySection(list)) == before.warnings
      && (forall later | ArrayStep(later) > ArrayStep(list) ::
            Select(w.errors, EntrySection(later)) == [] && Select(w.warnings, EntrySection(later)) == [])
      && (ArrayStep(list) < TypesStep ==> Select(w.errors, ArrayTypeSection) == [])
  {
    var os := WalkRun(data);
    WalkSteps(data);
    NullChain(data, os, list, i);
  }

  // ---------------------------------------------------------------------
  // The abort rules, stated on the whole validation result

  /** When a validation aborts: an object document's validation records no
      abort exactly when its layout can be printed and no array the
      validator walks holds a null or undefined entry. */
  lemma AbortFreeExactly(data: Json)
    requires Truthy(data) && IsObjectType(data)
    ensures (forall d | d in Validation(data).errors :: !d.Aborted?) <==>
      !StringConversionThrows(Get(data, "pageLayout")) && forall list :: !NullIn(WalkedArray(data, list))
  {
    var w := Walk(data);
    WalkAbortFree(data);
    ValidationOfWalk(data);
    AbortRecorded(w, Validation(data).errors);
    SelectMembers(w.errors, AbortSection);
  }

  /** A null entry aborts the walk. Let entry `i` be the first null or
      undefined entry of an array the validator walks, on an object document
      with a printable layout in which no array walked earlier holds one.
      Then the abort for that entry is the last error and the only abort;
      that array's entries before `i` are reported as usual; and no array
      walked later, nor (when the array is walked before the top-level
      fields) the array-type check, reports anything. */
  lemma NullEntryAborts(data: Json, list: EntryList, i: nat)
    requires Truthy(data) && IsObjectType(data)
    requires !StringConversionThrows(Get(data, "pageLayout"))
    requires FirstNull(WalkedArray(data, list), i)
    requires forall earlier | ArrayStep(earlier) < ArrayStep(list) :: !NullIn(WalkedArray(data, earlier))
    ensures var r := Validation(data);
      var before := ScanEntries(list, WalkedArray(data, list).items[..i]);
      && !r.isValid
      && r.errors != [] && r.errors[|r.errors| - 1] == Aborted(NullishEntry(list, i))
      && Select(r.errors, AbortSection) == [Aborted(NullishEntry(list, i))]
      && Select(r.errors, EntrySection(list)) == before.errors
      && Select(r.warnings, EntrySection(list)) == before.warnings
      && (forall later | ArrayStep(later) > ArrayStep(list) ::
            Select(r.errors, EntrySection(later)) == [] && Select(r.warnings, EntrySection(later)) == [])
      && (ArrayStep(list) < TypesStep ==> Select(r.errors, ArrayTypeSection) == [])
  {
    var before := ScanEntries(list, WalkedArray(data, list).items[..i]);
    WalkNull(data, list, i);
    ValidationOfWalk(data);
    ResultNull(Validation(data), Walk(data), list, NullishEntry(list, i), before.errors, before.warnings);
  }

  /** The result recorded for a walk that throws at the step walking
      `list`: the abort closes the errors, and every section but the
      abort's is the walk's. */
  lemma ResultNull(r: ValidationResult, w: Outcome, list: EntryList, c: Cause, e: seq<Diagnostic>, wn: seq<Diagnostic>)
    requires r.isValid <==> r.errors == []
    requires r.warnings == w.warnings
    requires r.errors == w.errors + (if w.completion.Throw? then [Aborted(w.completion.cause)] else [])
    requires w.completion == Throw(c)
    requires Select(w.errors, AbortSection) == []
    requires Select(w.errors, EntrySection(list)) == e && Select(w.warnings, EntrySection(list)) == wn
    requires forall later | ArrayStep(later) > ArrayStep(list) ::
      Select(w.errors, EntrySection(later)) == [] && Select(w.warnings, EntrySection(later)) == []
    requires ArrayStep(list) < TypesStep ==> Select(w.errors, ArrayTypeSection) == []
    ensures && !r.isValid
      && r.errors != [] && r.errors[|r.errors| - 1] == Aborted(c)
      && Select(r.errors, AbortSection) == [Aborted(c)]
      && Select(r.errors, EntrySection(list)) == e
      && Select(r.warnings, EntrySection(list)) == wn
      && (forall later | ArrayStep(later) > ArrayStep(list) ::
            Select(r.errors, EntrySection(later)) == [] && Select(r.warnings, EntrySection(later)) == [])
      && (ArrayStep(list) < TypesStep ==> Select(r.errors, ArrayTypeSection) == [])
  {
    AbortLast(w, r.errors);
  }

  /** The smallest case: a document whose only profile is `null` gives the
      abort for that entry as its only error, and no warning. */
  lemma NullProfileExample()
    ensures var data := Obj(map[
      "basics" := Obj(map["name" := Str("A"), "label" := Str("B"), "profiles" := Arr([Null])]),
      "pageLayout" := Str("two")]);
      Validation(data) == ValidationResult(false, [Aborted(NullishEntry(Profiles, 0))], [])
  {
    var basics := Obj(map["name" := Str("A"), "label" := Str("B"), "profiles" := Arr([Null])]);
    var data := Obj(map["basics" := basics, "pageLayout" := Str("two")]);
    assert Get(data, "basics") == basics;
    assert Get(data, "pageLayout") == Str("two");
    NullProfileBasics();
    BasicsThrowEndsWalk(data, NullishEntry(Profiles, 0));
  }

  /** A walk whose layout passes silently and whose basics check throws
      before reporting anything ends there with nothing reported. */
  lemma BasicsThrowEndsWalk(data: Json, c: Cause)
    requires Truthy(data) && IsObjectType(data) && Truthy(Get(data, "basics"))
    requires PageLayoutCheck(Get(data, "pageLayout")) == Nothing
    requires BasicsCheck(Get(data, "basics")) == Outcome([], [], Throw(c))
    ensures Validation(data) == ValidationResult(false, [Aborted(c)], [])
  {
    assert Walk(data) == Outcome([], [], Throw(c));
  }

  lemma NullProfileBasics()
    ensures BasicsCheck(Obj(map["name" := Str("A"), "label" := Str("B"), "profiles" := Arr([Null])]))
      == Outcome([], [], Throw(NullishEntry(Profiles, 0)))
  {
    var basics := Obj(map["name" := Str("A"), "label" := Str("B"), "profiles" := Arr([Null])]);
    assert Get(basics, "profiles") == Arr([Null]);
    assert BasicsFieldErrors(basics) == [];
    assert ScanEntries(Profiles, [Null]) == Outcome([], [], Throw(NullishEntry(Profiles, 0))) by {
      assert [Null][..0] == [];
    }
  }

}
