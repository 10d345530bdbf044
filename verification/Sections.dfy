/** The scan over headings and tables, against a statement of what a good page is. */
module Sections {
  import opened Document

  datatype Scan = Scan(level: int, found: bool, hasTable: bool, models: Option<seq<Info>>)

  const START := Scan(0, false, false, None)

  function Advance(s: Scan, e: Element, text: Text): Result<Scan> {
    match e
    case Heading(level, isModels) =>
      var closes := s.level != 0 && (level <= s.level || isModels);
      if closes && !s.hasTable then Err(NoTable)
      else if isModels then Ok(s.(level := level, found := true, hasTable := false))
      else if closes then Ok(s.(level := 0))
      else Ok(s)
    case Table(rows) =>
      if s.level == 0 then Ok(s)
      else
        match ParseTable(rows, text)
        case Invalid => Err(BadTable)
        case Unrelated => Ok(s)
        case Models(models) =>
          if s.models.None? then Ok(s.(hasTable := true, models := Some(models)))
          else if !SameModels(s.models.value, models) then Err(Conflict)
          else Ok(s.(hasTable := true))
  }

  function ScanAll(page: seq<Element>, text: Text): Result<Scan>
    decreases |page|
  {
    if page == [] then Ok(START)
    else
      match ScanAll(page[..|page| - 1], text)
      case Err(e) => Err(e)
      case Ok(s) => Advance(s, page[|page| - 1], text)
  }

  function Parse(page: seq<Element>, text: Text): Result<seq<Info>> {
    match ScanAll(page, text)
    case Err(e) => Err(e)
    case Ok(s) =>
      if !s.found then Err(NoHeading)
      else if s.models.None? || (s.level != 0 && !s.hasTable) then Err(NoTable)
      else Ok(s.models.value)
  }

  lemma {:induction false} ErrorsStay(page: seq<Element>, n: nat, text: Text)
    requires n <= |page| && ScanAll(page[..n], text).Err?
    ensures ScanAll(page, text) == ScanAll(page[..n], text)
    decreases |page|
  {
    if n < |page| {
      assert page[..|page| - 1][..n] == page[..n];
      ErrorsStay(page[..|page| - 1], n, text);
    } else {
      assert page[..n] == page;
    }
  }

  method ParseDocument(page: seq<Element>, text: Text) returns (result: Result<seq<Info>>)
    ensures result == Parse(page, text)
  {
    var models: Option<seq<Info>> := None;
    var sectionLevel, foundSection, sectionHasTable := 0, false, false;
    for n := 0 to |page|
      invariant ScanAll(page[..n], text) == Ok(Scan(sectionLevel, foundSection, sectionHasTable, models))
    {
      assert page[..n + 1][..n] == page[..n];
      if ScanAll(page[..n + 1], text).Err? {
        ErrorsStay(page, n + 1, text);
      }
      match page[n] {
        case Heading(level, isModels) =>
          if sectionLevel != 0 && (level <= sectionLevel || isModels) {
            if !sectionHasTable {
              return Err(NoTable);
            }
            sectionLevel := 0;
          }
          if isModels {
            foundSection, sectionLevel, sectionHasTable := true, level, false;
          }
        case Table(rows) =>
          if sectionLevel == 0 {
            continue;
          }
          var parsed := ParseDocumentTable(rows, text);
          if parsed.Invalid? {
            return Err(BadTable);
          }
          if parsed.Unrelated? {
            continue;
          }
          sectionHasTable := true;
          if models.None? {
            models := Some(parsed.models);
          } else {
            var same := SameDocumentModels(models.value, parsed.models);
            if !same {
              return Err(Conflict);
            }
          }
      }
    }
    assert page[..|page|] == page;
    if !foundSection {
      return Err(NoHeading);
    }
    if models.None? || (sectionLevel != 0 && !sectionHasTable) {
      return Err(NoTable);
    }
    result := Ok(models.value);
  }

  // ---------------------------------------------------------------- sections

  predicate OpensSection(e: Element) {
    e.Heading? && e.isModels
  }

  /** A heading ends the section of a Models heading that is not deeper than it. */
  predicate EndsSection(e: Element, level: int) {
    e.Heading? && (e.isModels || e.level <= level)
  }

  /** Position `i` lies in the section that the Models heading at `j` opened. */
  ghost predicate InSection(page: seq<Element>, j: nat, i: nat)
    requires i <= |page|
  {
    && j < i && OpensSection(page[j])
    && forall k :: j < k < i ==> !EndsSection(page[k], page[j].level)
  }

  /** The Models heading whose section is open at the end of the page so far, or -1. */
  function Open(page: seq<Element>): (j: int)
    ensures -1 <= j < |page| && (j >= 0 ==> OpensSection(page[j]))
    decreases |page|
  {
    if page == [] then -1
    else
      var before, last := Open(page[..|page| - 1]), page[|page| - 1];
      if OpensSection(last) then |page| - 1
      else if before >= 0 && EndsSection(last, page[before].level) then -1
      else before
  }

  lemma {:induction false} OpenIsSection(page: seq<Element>, i: nat, j: nat)
    requires i <= |page|
    ensures InSection(page, j, i) <==> Open(page[..i]) == j
    decreases i
  {
    if i > 0 {
      var before := page[..i - 1];
      assert page[..i][..i - 1] == before;
      OpenIsSection(page, i - 1, j);
      if Open(before) >= 0 {
        OpenIsSection(page, i - 1, Open(before));
      }
    }
  }

  // ---------------------------------------------------------------- good pages

  /** How the element at `i` reads as a table of a Models section. */
  function At(page: seq<Element>, i: nat, text: Text): Parsed
    requires i < |page|
  {
    if page[i].Table? && Open(page[..i]) >= 0 then ParseTable(page[i].rows, text) else Unrelated
  }

  /** No table in a Models section is spoilt. */
  ghost predicate Clean(page: seq<Element>, text: Text) {
    forall i :: 0 <= i < |page| ==> !At(page, i, text).Invalid?
  }

  /** The section opened at `j` has a model table. */
  ghost predicate HasTable(page: seq<Element>, j: int, text: Text) {
    exists i :: 0 <= i < |page| && At(page, i, text).Models? && Open(page[..i]) == j
  }

  /** Every section that has ended has a model table. */
  ghost predicate Covered(page: seq<Element>, text: Text) {
    forall j :: 0 <= j < |page| && OpensSection(page[j]) && Open(page) != j ==> HasTable(page, j, text)
  }

  /** The first model table of the page. */
  function First(page: seq<Element>, text: Text): Option<seq<Info>>
    decreases |page|
  {
    if page == [] then None
    else
      var before := First(page[..|page| - 1], text);
      if before.Some? then before
      else if At(page, |page| - 1, text).Models? then Some(At(page, |page| - 1, text).models)
      else None
  }

  /** Every model table says the same as the first. */
  ghost predicate Agree(page: seq<Element>, text: Text) {
    forall i :: 0 <= i < |page| ==> AgreesWith(First(page, text), At(page, i, text))
  }

  predicate AgreesWith(first: Option<seq<Info>>, p: Parsed) {
    p.Models? ==> first.Some? && SameModels(first.value, p.models)
  }

  /** The next table agrees with those before it; being the first, it has only itself to agree with. */
  lemma NextAgrees(at: nat -> Parsed, n: nat, first: Option<seq<Info>>, next: Option<seq<Info>>)
    requires first.None? <==> forall i :: 0 <= i < n ==> !at(i).Models?
    requires next == if first.Some? then first else if at(n).Models? then Some(at(n).models) else None
    ensures (forall i :: 0 <= i < n + 1 ==> AgreesWith(next, at(i))) <==>
      && (forall i :: 0 <= i < n ==> AgreesWith(first, at(i)))
      && AgreesWith(next, at(n))
  {
  }

  ghost predicate Headed(page: seq<Element>) {
    exists j :: 0 <= j < |page| && OpensSection(page[j])
  }

  /** Heading levels of a page are 1 to 6. */
  predicate Levels(page: seq<Element>) {
    forall i :: 0 <= i < |page| && page[i].Heading? ==> 1 <= page[i].level <= 6
  }

  /** The scan's variables after a page. */
  ghost predicate Faithful(page: seq<Element>, s: Scan, text: Text) {
    && s.level == (if Open(page) < 0 then 0 else page[Open(page)].level)
    && (s.found <==> Headed(page))
    && (Open(page) >= 0 ==> (s.hasTable <==> HasTable(page, Open(page), text)))
    && s.models == First(page, text)
  }

  lemma Front(page: seq<Element>, i: nat, text: Text)
    requires i + 1 < |page|
    ensures page[..|page| - 1][..i] == page[..i]
    ensures At(page[..|page| - 1], i, text) == At(page, i, text)
  {
    assert page[..|page| - 1][..i] == page[..i];
  }

  lemma HasTableSnoc(page: seq<Element>, j: int, text: Text)
    requires page != []
    ensures var front := page[..|page| - 1];
      HasTable(page, j, text) <==>
        HasTable(front, j, text) || (At(page, |page| - 1, text).Models? && Open(front) == j)
  {
    var front := page[..|page| - 1];
    forall i | 0 <= i < |front| ensures front[..i] == page[..i] && At(front, i, text) == At(page, i, text) {
      Front(page, i, text);
    }
    if HasTable(front, j, text) {
      var i :| 0 <= i < |front| && At(front, i, text).Models? && Open(front[..i]) == j;
      assert At(page, i, text).Models? && Open(page[..i]) == j;
    }
  }

  lemma CleanSnoc(page: seq<Element>, text: Text)
    requires page != []
    ensures Clean(page, text) <==> Clean(page[..|page| - 1], text) && !At(page, |page| - 1, text).Invalid?
  {
    var front := page[..|page| - 1];
    forall i | 0 <= i < |front| ensures At(front, i, text) == At(page, i, text) {
      Front(page, i, text);
    }
  }

  lemma {:induction false} FirstComesFirst(page: seq<Element>, text: Text)
    ensures First(page, text).None? <==> forall i :: 0 <= i < |page| ==> !At(page, i, text).Models?
    decreases |page|
  {
    if page != [] {
      var front := page[..|page| - 1];
      FirstComesFirst(front, text);
      forall i | 0 <= i < |front| ensures At(front, i, text) == At(page, i, text) {
        Front(page, i, text);
      }
    }
  }

  lemma AgreeSnoc(page: seq<Element>, text: Text)
    requires page != []
    ensures var front, last := page[..|page| - 1], At(page, |page| - 1, text);
      Agree(page, text) <==> Agree(front, text) && AgreesWith(First(page, text), last)
  {
    var front, n := page[..|page| - 1], |page| - 1;
    var at := (i: nat) => if i < |page| then At(page, i, text) else Unrelated;
    FirstComesFirst(front, text);
    forall i | 0 <= i < n ensures At(front, i, text) == at(i) {
      Front(page, i, text);
    }
    NextAgrees(at, n, First(front, text), First(page, text));
    AgreeAt(page, text, at);
    AgreeAt(front, text, at);
  }

  lemma AgreeAt(page: seq<Element>, text: Text, at: nat -> Parsed)
    requires forall i :: 0 <= i < |page| ==> At(page, i, text) == at(i)
    ensures Agree(page, text) <==> forall i :: 0 <= i < |page| ==> AgreesWith(First(page, text), at(i))
  {
  }

  lemma SameAsItself(page: seq<Element>, i: nat, text: Text)
    requires i < |page| && At(page, i, text).Models?
    ensures SameModels(At(page, i, text).models, At(page, i, text).models)
  {
    TableIsDistinct(page[i].rows, text);
    SameModelsIsEquality(At(page, i, text).models, At(page, i, text).models);
  }

  lemma OpenSnoc(page: seq<Element>)
    requires page != []
    ensures var front, last := page[..|page| - 1], page[|page| - 1];
      Open(page) == if OpensSection(last) then |page| - 1
                    else if Open(front) >= 0 && EndsSection(last, page[Open(front)].level) then -1
                    else Open(front)
  {
  }

  lemma CoveredSnoc(page: seq<Element>, text: Text)
    requires page != []
    ensures var front := page[..|page| - 1];
      Covered(page, text) <==>
        && Covered(front, text)
        && (Open(front) >= 0 && Open(page) != Open(front) ==> HasTable(front, Open(front), text))
  {
    var front, n := page[..|page| - 1], |page| - 1;
    var opens := (j: nat) => j < |page| && OpensSection(page[j]);
    var before, after := (j: nat) => HasTable(front, j, text), (j: nat) => HasTable(page, j, text);
    OpenSnoc(page);
    forall j: nat | j < n && (Open(front) != j || Open(page) != j) ensures after(j) <==> before(j) {
      HasTableSnoc(page, j, text);
    }
    NextCovered(n, Open(front), Open(page), opens, before, after);
    CoveredIs(front, text, opens, before);
    CoveredIs(page, text, opens, after);
  }

  lemma CoveredIs(page: seq<Element>, text: Text, opens: nat -> bool, has: nat -> bool)
    requires forall j: nat :: j < |page| ==> (opens(j) <==> OpensSection(page[j])) && (has(j) <==> HasTable(page, j, text))
    ensures Covered(page, text) <==> forall j: nat :: j < |page| && opens(j) && Open(page) != j ==> has(j)
  {
  }

  /** The section open before the next element must be covered if it is open no longer. */
  lemma NextCovered(n: nat, was: int, now: int, opens: nat -> bool, before: nat -> bool, after: nat -> bool)
    requires -1 <= was < n && (was >= 0 ==> opens(was)) && now in {-1, was, n} && (opens(n) ==> now == n)
    requires forall j: nat :: j < n && (was != j || now != j) ==> (after(j) <==> before(j))
    ensures (forall j: nat :: j < n + 1 && opens(j) && now != j ==> after(j)) <==>
      && (forall j: nat :: j < n && opens(j) && was != j ==> before(j))
      && (was >= 0 && now != was ==> before(was))
  {
  }

  lemma HeadedSnoc(page: seq<Element>)
    requires page != []
    ensures Headed(page) <==> Headed(page[..|page| - 1]) || OpensSection(page[|page| - 1])
  {
  }

  /** Everything so far is in order; the open section, if any, may still lack its table. */
  ghost predicate GoodSoFar(page: seq<Element>, text: Text) {
    Clean(page, text) && Covered(page, text) && Agree(page, text)
  }

  lemma HeadingIsFaithful(page: seq<Element>, s: Scan, text: Text)
    requires page != [] && page[|page| - 1].Heading? && Levels(page)
    requires Faithful(page[..|page| - 1], s, text) && GoodSoFar(page[..|page| - 1], text)
    ensures Advance(s, page[|page| - 1], text).Ok? <==> GoodSoFar(page, text)
    ensures Advance(s, page[|page| - 1], text).Ok? ==> Faithful(page, Advance(s, page[|page| - 1], text).value, text)
  {
    var front, last := page[..|page| - 1], page[|page| - 1];
    assert At(page, |page| - 1, text) == Unrelated;
    OpenSnoc(page);
    CleanSnoc(page, text);
    CoveredSnoc(page, text);
    AgreeSnoc(page, text);
    HeadedSnoc(page);
    if Open(front) >= 0 {
      assert Levels(page) && page[Open(front)].level >= 1;
      HasTableSnoc(page, Open(front), text);
    }
    HasTableSnoc(page, |page| - 1, text);
    NotBefore(front, text);
  }

  lemma NotBefore(page: seq<Element>, text: Text)
    ensures !HasTable(page, |page|, text)
  {
  }

  /** A table closes no section. */
  lemma TableSnoc(page: seq<Element>, text: Text)
    requires page != [] && page[|page| - 1].Table?
    ensures var front, last := page[..|page| - 1], At(page, |page| - 1, text);
      && Open(page) == Open(front)
      && (Headed(page) <==> Headed(front))
      && (Clean(page, text) <==> Clean(front, text) && !last.Invalid?)
      && (Covered(page, text) <==> Covered(front, text))
      && (Open(page) >= 0 ==> (HasTable(page, Open(page), text) <==> HasTable(front, Open(front), text) || last.Models?))
  {
    OpenSnoc(page);
    CleanSnoc(page, text);
    CoveredSnoc(page, text);
    HeadedSnoc(page);
    HasTableSnoc(page, Open(page), text);
  }

  lemma ModelsAreFaithful(page: seq<Element>, text: Text)
    requires page != [] && At(page, |page| - 1, text).Models?
    ensures var front, models := page[..|page| - 1], At(page, |page| - 1, text).models;
      && (First(front, text).None? ==> First(page, text) == Some(models))
      && (First(front, text).Some? ==> First(page, text) == First(front, text))
      && (Agree(page, text) <==>
            Agree(front, text) && (First(front, text).Some? ==> SameModels(First(front, text).value, models)))
  {
    AgreeSnoc(page, text);
    SameAsItself(page, |page| - 1, text);
  }

  lemma TableIsFaithful(page: seq<Element>, s: Scan, text: Text)
    requires page != [] && page[|page| - 1].Table? && Levels(page)
    requires Faithful(page[..|page| - 1], s, text) && GoodSoFar(page[..|page| - 1], text)
    ensures Advance(s, page[|page| - 1], text).Ok? <==> GoodSoFar(page, text)
    ensures Advance(s, page[|page| - 1], text).Ok? ==> Faithful(page, Advance(s, page[|page| - 1], text).value, text)
  {
    TableSnoc(page, text);
    if Open(page) >= 0 {
      assert Levels(page) && page[Open(page)].level >= 1;
    }
    if At(page, |page| - 1, text).Models? {
      ModelsAreFaithful(page, text);
    } else {
      AgreeSnoc(page, text);
    }
  }

  lemma {:induction false} ScanIsFaithful(page: seq<Element>, text: Text)
    requires Levels(page)
    ensures ScanAll(page, text).Ok? <==> GoodSoFar(page, text)
    ensures ScanAll(page, text).Ok? ==> Faithful(page, ScanAll(page, text).value, text)
    decreases |page|
  {
    if page != [] {
      var front := page[..|page| - 1];
      ScanIsFaithful(front, text);
      if ScanAll(front, text).Ok? {
        if page[|page| - 1].Heading? {
          HeadingIsFaithful(page, ScanAll(front, text).value, text);
        } else {
          TableIsFaithful(page, ScanAll(front, text).value, text);
        }
      } else {
        CleanSnoc(page, text);
        CoveredSnoc(page, text);
        AgreeSnoc(page, text);
      }
    }
  }

  // ---------------------------------------------------------------- the result

  /** Position `i` is a table of the Models section that the heading at `j` opened. */
  ghost predicate SectionTable(page: seq<Element>, j: nat, i: nat) {
    i < |page| && page[i].Table? && InSection(page, j, i)
  }

  /** ... and it has models. */
  ghost predicate ModelTable(page: seq<Element>, j: nat, i: nat, text: Text) {
    SectionTable(page, j, i) && ParseTable(page[i].rows, text).Models?
  }

  /** Every Models section has a model table. */
  ghost predicate Complete(page: seq<Element>, text: Text) {
    forall j: nat :: j < |page| && OpensSection(page[j]) ==> exists i: nat :: ModelTable(page, j, i, text)
  }

  /** No table of a Models section is spoilt. */
  ghost predicate Unspoilt(page: seq<Element>, text: Text) {
    forall j: nat, i: nat :: SectionTable(page, j, i) ==> !ParseTable(page[i].rows, text).Invalid?
  }

  /** All model tables of all Models sections spell the same map from ID to name. */
  ghost predicate Unanimous(page: seq<Element>, text: Text) {
    forall j: nat, a: nat, k: nat, b: nat :: ModelTable(page, j, a, text) && ModelTable(page, k, b, text) ==>
      Names(ParseTable(page[a].rows, text).models) == Names(ParseTable(page[b].rows, text).models)
  }

  ghost predicate Acceptable(page: seq<Element>, text: Text) {
    Headed(page) && Complete(page, text) && Unspoilt(page, text) && Unanimous(page, text)
  }

  /** The section of a table is the one whose heading is open before it. */
  lemma SectionIsOpen(page: seq<Element>, j: nat, i: nat)
    ensures SectionTable(page, j, i) <==> i < |page| && page[i].Table? && Open(page[..i]) == j
  {
    if i < |page| {
      OpenIsSection(page, i, j);
    }
  }

  lemma HasTableIsModelTable(page: seq<Element>, j: nat, text: Text)
    ensures HasTable(page, j, text) <==> exists i: nat :: ModelTable(page, j, i, text)
  {
    if HasTable(page, j, text) {
      var i :| 0 <= i < |page| && At(page, i, text).Models? && Open(page[..i]) == j;
      SectionIsOpen(page, j, i);
      assert ModelTable(page, j, i, text);
    }
    forall i: nat | ModelTable(page, j, i, text) ensures HasTable(page, j, text) {
      SectionIsOpen(page, j, i);
      assert At(page, i, text).Models?;
    }
  }

  lemma CleanIsUnspoilt(page: seq<Element>, text: Text)
    ensures Clean(page, text) <==> Unspoilt(page, text)
  {
    forall j: nat, i: nat | SectionTable(page, j, i) ensures At(page, i, text) == ParseTable(page[i].rows, text) {
      SectionIsOpen(page, j, i);
    }
    forall i: nat | i < |page| && At(page, i, text).Invalid? ensures SectionTable(page, Open(page[..i]), i) {
      SectionIsOpen(page, Open(page[..i]), i);
    }
  }

  lemma EverySectionIsComplete(page: seq<Element>, text: Text)
    ensures Complete(page, text) <==> forall j :: 0 <= j < |page| && OpensSection(page[j]) ==> HasTable(page, j, text)
  {
    forall j: nat | j < |page| && OpensSection(page[j])
      ensures HasTable(page, j, text) <==> exists i: nat :: ModelTable(page, j, i, text)
    {
      HasTableIsModelTable(page, j, text);
    }
  }

  lemma ModelTableIsAt(page: seq<Element>, i: nat, text: Text)
    requires i < |page|
    ensures At(page, i, text).Models? ==> ModelTable(page, Open(page[..i]), i, text)
    ensures forall j: nat :: ModelTable(page, j, i, text) ==> At(page, i, text) == ParseTable(page[i].rows, text)
  {
    if Open(page[..i]) >= 0 {
      SectionIsOpen(page, Open(page[..i]), i);
    }
    forall j: nat | ModelTable(page, j, i, text) ensures At(page, i, text) == ParseTable(page[i].rows, text) {
      SectionIsOpen(page, j, i);
    }
  }

  /** Agreement with the first table is agreement of all tables with each other, as maps. */
  lemma AgreeIsSameMap(page: seq<Element>, text: Text)
    ensures Agree(page, text) <==> Unanimous(page, text)
  {
    FirstComesFirst(page, text);
    forall i: nat | i < |page| ensures
      (At(page, i, text).Models? <==> exists j: nat :: ModelTable(page, j, i, text))
      && (At(page, i, text).Models? ==> At(page, i, text) == ParseTable(page[i].rows, text))
    {
      ModelTableIsAt(page, i, text);
    }
    if First(page, text).Some? {
      var f := FirstStands(page, text);
      TableIsDistinct(page[f].rows, text);
      forall i | 0 <= i < |page| && At(page, i, text).Models?
        ensures SameModels(First(page, text).value, At(page, i, text).models) <==>
                Names(At(page, f, text).models) == Names(At(page, i, text).models)
      {
        TableIsDistinct(page[i].rows, text);
        SameModelsIsEquality(First(page, text).value, At(page, i, text).models);
      }
    }
  }

  /** The scan accepts a page whose sections are complete, clean and unanimous. */
  lemma ParsedWhenGood(page: seq<Element>, text: Text)
    requires Levels(page)
    ensures Parse(page, text).Ok? <==>
      && Headed(page) && Clean(page, text) && Agree(page, text)
      && forall j :: 0 <= j < |page| && OpensSection(page[j]) ==> HasTable(page, j, text)
    ensures Parse(page, text).Ok? ==> Some(Parse(page, text).value) == First(page, text)
  {
    ScanIsFaithful(page, text);
    FirstComesFirst(page, text);
    if Headed(page) {
      var j :| 0 <= j < |page| && OpensSection(page[j]);
      if HasTable(page, j, text) {
        var i :| 0 <= i < |page| && At(page, i, text).Models? && Open(page[..i]) == j;
        assert First(page, text).Some?;
      }
    }
    if Open(page) >= 0 {
      assert Levels(page) && page[Open(page)].level >= 1;
    }
  }

  /** A page is accepted if and only if it has a Models heading, every Models section has a model
      table, no table in such a section is spoilt, and all of them spell the same map. */
  lemma DocumentIsAccepted(page: seq<Element>, text: Text)
    requires Levels(page)
    ensures Parse(page, text).Ok? <==> Acceptable(page, text)
  {
    ParsedWhenGood(page, text);
    AgreeIsSameMap(page, text);
    CleanIsUnspoilt(page, text);
    EverySectionIsComplete(page, text);
  }

  /** The answer is the first model table of a Models section. */
  lemma AnswerIsFirst(page: seq<Element>, text: Text) returns (j: nat, i: nat)
    requires Levels(page) && Parse(page, text).Ok?
    ensures ModelTable(page, j, i, text) && ParseTable(page[i].rows, text).models == Parse(page, text).value
    ensures forall k: nat, earlier: nat :: earlier < i ==> !ModelTable(page, k, earlier, text)
  {
    ParsedWhenGood(page, text);
    i := FirstStands(page, text);
    j := Open(page[..i]);
    ModelTableIsAt(page, i, text);
    forall k: nat, earlier: nat | earlier < i ensures !ModelTable(page, k, earlier, text) {
      ModelTableIsAt(page, earlier, text);
    }
  }

  /** Where the first model table stands. */
  lemma {:induction false} FirstStands(page: seq<Element>, text: Text) returns (i: nat)
    requires First(page, text).Some?
    ensures i < |page| && At(page, i, text) == Models(First(page, text).value)
    ensures forall earlier :: 0 <= earlier < i ==> !At(page, earlier, text).Models?
    decreases |page|
  {
    var front := page[..|page| - 1];
    forall k | 0 <= k < |front| ensures At(front, k, text) == At(page, k, text) {
      Front(page, k, text);
    }
    if First(front, text).Some? {
      i := FirstStands(front, text);
    } else {
      FirstComesFirst(front, text);
      i := |page| - 1;
    }
  }
}
