/**
 Sectioning of a DOCX document: headings close the page being filled, body paragraphs
 fill it, blank paragraphs vanish.
 */
module DocumentProcessors {
  import opened Wrappers
  import opened Sequences
  import opened Text

  datatype Paragraph = Paragraph(style: string, text: string)

  datatype RawPage = RawPage(text: string, pageNumber: nat, sectionTitle: Option<string>)

  predicate IsHeading(p: Paragraph)
  {
    "Heading" <= p.style
  }

  /** A paragraph whose text must reach some page. */
  predicate IsBody(p: Paragraph)
  {
    !IsHeading(p) && Strip(p.text) != []
  }

  // ------------------------------------------------------------------------
  // Reference: where each body paragraph belongs
  // ------------------------------------------------------------------------

  function HeadingCount(paras: seq<Paragraph>): nat
  {
    |Retain(paras, IsHeading)|
  }

  /** The text of the last heading that is not blank. */
  function LatestTitle(paras: seq<Paragraph>): (r: Option<string>)
  {
    if paras == [] then None
    else
      var last := paras[|paras| - 1];
      if IsHeading(last) && Strip(last.text) != [] then Some(Strip(last.text))
      else LatestTitle(paras[..|paras| - 1])
  }

  /** A body paragraph, the number of headings before it and the latest title before it. */
  datatype Placed = Placed(section: nat, title: Option<string>, text: string)

  function Place(paras: seq<Paragraph>): (r: seq<Placed>)
  {
    if paras == [] then []
    else
      var front, last := paras[..|paras| - 1], paras[|paras| - 1];
      if IsBody(last) then Place(front) + [Placed(HeadingCount(front), LatestTitle(front), last.text)]
      else Place(front)
  }

  predicate NonEmpty(groups: seq<seq<Placed>>)
  {
    forall i :: 0 <= i < |groups| ==> groups[i] != []
  }

  /** Add a paragraph to the last run if it is of the same section, else open a new run. */
  function AddTo(groups: seq<seq<Placed>>, p: Placed): (r: seq<seq<Placed>>)
    requires NonEmpty(groups)
    ensures NonEmpty(r) && r != []
  {
    if groups != [] && groups[|groups| - 1][0].section == p.section
    then groups[|groups| - 1 := groups[|groups| - 1] + [p]]
    else groups + [[p]]
  }

  /** Maximal runs of paragraphs with no heading between them. */
  function Group(ps: seq<Placed>): (r: seq<seq<Placed>>)
    ensures NonEmpty(r)
    ensures r == [] <==> ps == []
  {
    if ps == [] then [] else AddTo(Group(ps[..|ps| - 1]), ps[|ps| - 1])
  }

  function Texts(group: seq<Placed>): (r: seq<string>)
    ensures |r| == |group|
  {
    seq(|group|, i requires 0 <= i < |group| => group[i].text)
  }

  function PagesOf(groups: seq<seq<Placed>>): (r: seq<RawPage>)
    requires NonEmpty(groups)
    ensures |r| == |groups|
  {
    seq(|groups|, i requires 0 <= i < |groups| => RawPage(Join('\n', Texts(groups[i])), i + 1, groups[i][0].title))
  }

  lemma PagesOfAppend(groups: seq<seq<Placed>>)
    requires NonEmpty(groups) && groups != []
    ensures var front, last := groups[..|groups| - 1], groups[|groups| - 1];
            PagesOf(groups) == PagesOf(front) + [RawPage(Join('\n', Texts(last)), |PagesOf(front)| + 1, last[0].title)]
  {
    hide Join, Texts;
  }

  const EMPTY_PAGE := RawPage("", 1, None)

  lemma {:induction false} PlaceAppend(paras: seq<Paragraph>, p: Paragraph)
    ensures HeadingCount(paras + [p]) == HeadingCount(paras) + if IsHeading(p) then 1 else 0
    ensures LatestTitle(paras + [p]) == if IsHeading(p) && Strip(p.text) != [] then Some(Strip(p.text)) else LatestTitle(paras)
    ensures var q := Placed(HeadingCount(paras), LatestTitle(paras), p.text);
            && Place(paras + [p]) == (if IsBody(p) then Place(paras) + [q] else Place(paras))
            && Group(Place(paras + [p])) == if IsBody(p) then AddTo(Group(Place(paras)), q) else Group(Place(paras))
  {
    assert (paras + [p])[..|paras|] == paras;
    RetainConcat(paras, [p], IsHeading);
    assert Retain([p], IsHeading) == if IsHeading(p) then [p] else [];
    var q := Placed(HeadingCount(paras), LatestTitle(paras), p.text);
    assert (Place(paras) + [q])[..|Place(paras)|] == Place(paras);
  }

  lemma AddToShape(groups: seq<seq<Placed>>, p: Placed)
    requires NonEmpty(groups)
    ensures var n, r := |groups|, AddTo(groups, p);
            if n > 0 && groups[n - 1][0].section == p.section then
              |r| == n && r[..n - 1] == groups[..n - 1] && r[n - 1][0] == groups[n - 1][0]
              && Texts(r[n - 1]) == Texts(groups[n - 1]) + [p.text]
            else
              |r| == n + 1 && r[..n] == groups && r[n] == [p] && Texts(r[n]) == [p.text]
  {
  }

  // ------------------------------------------------------------------------
  // The sectioning fold
  // ------------------------------------------------------------------------

  /** The extractor's mutable variables; `seen` is the document so far. */
  class DocxExtractor {
    var pages: seq<RawPage>
    var currentSection: Option<string>
    var buffer: seq<string>
    ghost var seen: seq<Paragraph>

    ghost predicate Valid()
      reads this
    {
      var groups := Group(Place(seen));
      && currentSection == LatestTitle(seen)
      && if buffer == [] then
           && pages == PagesOf(groups)
           && (groups != [] ==> groups[|groups| - 1][0].section < HeadingCount(seen))
         else
           && groups != []
           && pages == PagesOf(groups[..|groups| - 1])
           && buffer == Texts(groups[|groups| - 1])
           && groups[|groups| - 1][0].title == currentSection
           && groups[|groups| - 1][0].section == HeadingCount(seen)
    }

    constructor ()
      ensures Valid() && seen == []
    {
      pages, currentSection, buffer, seen := [], None, [], [];
    }

    /** Turn the buffer into a page, if it holds anything. */
    method Flush()
      requires Valid()
      modifies `pages, `buffer
      ensures buffer == [] && pages == PagesOf(Group(Place(seen)))
    {
      hide Group, Place, PagesOf, Texts, Join, LatestTitle, HeadingCount;
      if buffer != [] {
        PagesOfAppend(Group(Place(seen)));
        pages := pages + [RawPage(Join('\n', buffer), |pages| + 1, currentSection)];
        buffer := [];
      }
    }

    method Heading(p: Paragraph)
      requires Valid() && IsHeading(p)
      modifies this
      ensures Valid() && seen == old(seen) + [p]
    {
      hide Group, Place, PagesOf, Texts, Join, LatestTitle, HeadingCount, Strip;
      PlaceAppend(seen, p);
      Flush();
      var title := Strip(p.text);
      currentSection := if title != [] then Some(title) else currentSection;
      seen := seen + [p];
    }

    method Body(p: Paragraph)
      requires Valid() && IsBody(p)
      modifies this
      ensures Valid() && seen == old(seen) + [p]
    {
      hide Group, Place, PagesOf, Texts, Join, LatestTitle, HeadingCount, Strip;
      PlaceAppend(seen, p);
      AddToShape(Group(Place(seen)), Placed(HeadingCount(seen), currentSection, p.text));
      buffer := buffer + [p.text];
      seen := seen + [p];
    }

    method Feed(p: Paragraph)
      requires Valid()
      modifies this
      ensures Valid() && seen == old(seen) + [p]
    {
      if IsHeading(p) {
        Heading(p);
      } else if Strip(p.text) != [] {
        Body(p);
      } else {
        PlaceAppend(seen, p);
        seen := seen + [p];
      }
    }
  }

  /** `_extract_docx`: the pages are the reference grouping, or one empty page for a document without body. */
  method ExtractDocx(paras: seq<Paragraph>) returns (pages: seq<RawPage>)
    ensures pages == DocxPages(paras)
  {
    hide Place, Group, LatestTitle;
    var x := new DocxExtractor();
    for k := 0 to |paras|
      invariant x.Valid() && x.seen == paras[..k]
    {
      x.Feed(paras[k]);
      assert paras[..k] + [paras[k]] == paras[..k + 1];
    }
    assert paras[..|paras|] == paras;
    x.Flush();
    pages := if x.pages != [] then x.pages else [EMPTY_PAGE];
  }

  function DocxPages(paras: seq<Paragraph>): (r: seq<RawPage>)
  {
    var pages := PagesOf(Group(Place(paras)));
    if pages != [] then pages else [EMPTY_PAGE]
  }

  // ------------------------------------------------------------------------
  // What the pages are
  // ------------------------------------------------------------------------

  ghost predicate OneSection(group: seq<Placed>)
  {
    forall j :: 0 <= j < |group| ==> group[j].section == group[0].section && group[j].title == group[0].title
  }

  /** Each group is one section with one title, and later groups have later sections. */
  ghost predicate Sectioned(groups: seq<seq<Placed>>)
    requires NonEmpty(groups)
  {
    && (forall i :: 0 <= i < |groups| ==> OneSection(groups[i]))
    && (forall i, j :: 0 <= i < j < |groups| ==> groups[i][0].section < groups[j][0].section)
  }

  /** Sections never go back, and within one the title does not change. */
  ghost predicate Ordered(ps: seq<Placed>)
  {
    forall i, j :: 0 <= i < j < |ps| ==>
      ps[i].section <= ps[j].section && (ps[i].section == ps[j].section ==> ps[i].title == ps[j].title)
  }

  /** No paragraph lies beyond the given section, and those in it carry the given title. */
  ghost predicate UpTo(ps: seq<Placed>, section: nat, title: Option<string>)
  {
    forall i :: 0 <= i < |ps| ==> ps[i].section <= section && (ps[i].section == section ==> ps[i].title == title)
  }

  lemma OrderedAppend(ps: seq<Placed>, p: Placed)
    requires Ordered(ps) && UpTo(ps, p.section, p.title)
    ensures Ordered(ps + [p]) && UpTo(ps + [p], p.section, p.title)
  {
  }

  lemma {:induction false} PlaceOrdered(paras: seq<Paragraph>)
    ensures Ordered(Place(paras)) && UpTo(Place(paras), HeadingCount(paras), LatestTitle(paras))
  {
    hide Ordered, Strip, Group, AddTo, HeadingCount, LatestTitle;
    if paras == [] {
      NothingPlaced();
    } else {
      var front, last := paras[..|paras| - 1], paras[|paras| - 1];
      PlaceOrdered(front);
      assert paras == front + [last];
      PlaceAppend(front, last);
      if IsBody(last) {
        OrderedAppend(Place(front), Placed(HeadingCount(front), LatestTitle(front), last.text));
      }
    }
  }

  lemma NothingPlaced()
    ensures Ordered([])
  {
  }

  lemma {:induction false} FlattenAddTo(groups: seq<seq<Placed>>, p: Placed)
    requires NonEmpty(groups)
    ensures Flatten(AddTo(groups, p)) == Flatten(groups) + [p]
  {
    FlattenOne([p]);
    if groups != [] && groups[|groups| - 1][0].section == p.section {
      var front, last := groups[..|groups| - 1], groups[|groups| - 1];
      assert groups == front + [last] && AddTo(groups, p) == front + [last + [p]];
      FlattenConcat(front, [last]);
      FlattenConcat(front, [last + [p]]);
      FlattenOne(last);
      FlattenOne(last + [p]);
    } else {
      FlattenConcat(groups, [[p]]);
    }
  }

  lemma FlattenOne(part: seq<Placed>)
    ensures Flatten([part]) == part
  {
    assert [part][1..] == [];
  }

  lemma {:induction false} SectionedAddTo(groups: seq<seq<Placed>>, p: Placed)
    requires NonEmpty(groups) && Sectioned(groups)
    requires groups != [] ==>
      var last := groups[|groups| - 1][0];
      last.section <= p.section && (last.section == p.section ==> last.title == p.title)
    ensures var r := AddTo(groups, p);
            Sectioned(r) && r[|r| - 1][0].section == p.section && r[|r| - 1][0].title == p.title
  {
    AddToShape(groups, p);
    var r := AddTo(groups, p);
    var last := r[|r| - 1];
    assert OneSection(last);
    forall i | 0 <= i < |r| ensures OneSection(r[i]) {
      if i < |r| - 1 { assert r[i] == groups[i]; }
    }
    assert forall i :: 0 <= i < |groups| ==> r[i][0] == groups[i][0];
  }

  lemma NothingGrouped()
    ensures Sectioned([]) && Flatten<Placed>([]) == []
  {
  }

  lemma {:induction false} GroupSectioned(ps: seq<Placed>)
    requires Ordered(ps)
    ensures Sectioned(Group(ps)) && Flatten(Group(ps)) == ps
    ensures ps != [] ==> var last := Group(ps)[|Group(ps)| - 1][0];
                         last.section == ps[|ps| - 1].section && last.title == ps[|ps| - 1].title
  {
    hide Sectioned, AddTo, Flatten;
    if ps == [] {
      NothingGrouped();
    } else {
      var front, p := ps[..|ps| - 1], ps[|ps| - 1];
      GroupSectioned(front);
      assert front != [] ==> front[|front| - 1] == ps[|ps| - 2];
      SectionedAddTo(Group(front), p);
      FlattenAddTo(Group(front), p);
      assert front + [p] == ps;
    }
  }

  lemma {:induction false} PlacedTexts(paras: seq<Paragraph>)
    ensures |Place(paras)| == |Retain(paras, IsBody)|
    ensures forall i :: 0 <= i < |Place(paras)| ==>
      Place(paras)[i].text == Retain(paras, IsBody)[i].text && Strip(Place(paras)[i].text) != []
  {
    hide Strip, HeadingCount, LatestTitle;
    if paras != [] {
      var front, last := paras[..|paras| - 1], paras[|paras| - 1];
      PlacedTexts(front);
      assert paras == front + [last];
      RetainConcat(front, [last], IsBody);
      assert Retain([last], IsBody) == if IsBody(last) then [last] else [];
    }
  }

  /** `title` is the text of the last heading before position j that is not blank, or there is none. */
  ghost predicate TitleAt(paras: seq<Paragraph>, j: nat, title: Option<string>)
    requires j <= |paras|
  {
    match title
    case None => forall m :: 0 <= m < j && "Heading" <= paras[m].style ==> Strip(paras[m].text) == []
    case Some(t) =>
      exists h :: 0 <= h < j && "Heading" <= paras[h].style && t == Strip(paras[h].text) != []
        && forall m :: h < m < j && "Heading" <= paras[m].style ==> Strip(paras[m].text) == []
  }

  lemma TitleInFront(paras: seq<Paragraph>, n: nat, j: nat, title: Option<string>)
    requires j <= n <= |paras| && TitleAt(paras[..n], j, title)
    ensures TitleAt(paras, j, title)
  {
    hide Strip;
    var front := paras[..n];
    assert forall m :: 0 <= m < n ==> paras[m] == front[m];
    if title.Some? {
      var h :| 0 <= h < j && "Heading" <= front[h].style && title.value == Strip(front[h].text) != []
               && forall m :: h < m < j && "Heading" <= front[m].style ==> Strip(front[m].text) == [];
      assert "Heading" <= paras[h].style;
    }
  }

  lemma TitleStays(paras: seq<Paragraph>, j: nat, title: Option<string>)
    requires j < |paras| && TitleAt(paras, j, title)
    requires "Heading" <= paras[j].style ==> Strip(paras[j].text) == []
    ensures TitleAt(paras, j + 1, title)
  {
    hide Strip;
  }

  lemma TitleTaken(paras: seq<Paragraph>, j: nat)
    requires j < |paras| && "Heading" <= paras[j].style && Strip(paras[j].text) != []
    ensures TitleAt(paras, j + 1, Some(Strip(paras[j].text)))
  {
    hide Strip;
  }

  lemma {:induction false} LatestTitleIs(paras: seq<Paragraph>)
    ensures TitleAt(paras, |paras|, LatestTitle(paras))
  {
    hide Strip, TitleAt;
    if paras == [] {
      NoTitleYet();
    } else {
      var n := |paras| - 1;
      if IsHeading(paras[n]) && Strip(paras[n].text) != [] {
        TitleTaken(paras, n);
      } else {
        LatestTitleIs(paras[..n]);
        TitleInFront(paras, n, n, LatestTitle(paras[..n]));
        TitleStays(paras, n, LatestTitle(paras[..n]));
      }
    }
  }

  lemma NoTitleYet()
    ensures TitleAt([], 0, None)
  {
  }

  /** Paragraph j of the document is the k-th placed one: a body paragraph, under the latest title before it, after as many headings as its section says. */
  ghost predicate PlacedAt(paras: seq<Paragraph>, k: nat, j: nat)
  {
    && j < |paras| && k < |Place(paras)|
    && !("Heading" <= paras[j].style) && Strip(paras[j].text) != []
    && Place(paras)[k].text == paras[j].text
    && Place(paras)[k].section == |set m | 0 <= m < j && "Heading" <= paras[m].style|
    && TitleAt(paras, j, Place(paras)[k].title)
  }

  ghost predicate Stands(paras: seq<Paragraph>, k: nat)
  {
    exists j: nat :: PlacedAt(paras, k, j)
  }

  lemma HeadingCountIs(paras: seq<Paragraph>)
    ensures HeadingCount(paras) == |set m | 0 <= m < |paras| && "Heading" <= paras[m].style|
  {
    RetainCounts(paras, IsHeading);
    assert Positions(paras, IsHeading) == set m | 0 <= m < |paras| && "Heading" <= paras[m].style;
  }

  /** Each placed paragraph stands somewhere in the document, with the section and title that its place gives it. */
  lemma {:induction false} PlacedSomewhere(paras: seq<Paragraph>, k: nat)
    requires k < |Place(paras)|
    ensures Stands(paras, k)
    decreases |paras|
  {
    hide Strip, HeadingCount, LatestTitle, TitleAt;
    var n := |paras| - 1;
    var front := paras[..n];
    HeadingCountIs(front);
    if k < |Place(front)| {
      PlacedSomewhere(front, k);
      var j: nat :| PlacedAt(front, k, j);
      TitleInFront(paras, n, j, Place(front)[k].title);
      assert (set m | 0 <= m < j && "Heading" <= paras[m].style) == (set m | 0 <= m < j && "Heading" <= front[m].style);
      assert PlacedAt(paras, k, j);
    } else {
      LatestTitleIs(front);
      TitleInFront(paras, n, n, LatestTitle(front));
      assert (set m | 0 <= m < n && "Heading" <= paras[m].style) == (set m | 0 <= m < n && "Heading" <= front[m].style);
      assert PlacedAt(paras, k, n);
    }
  }

  lemma AllStand(paras: seq<Paragraph>)
    ensures forall k: nat :: k < |Place(paras)| ==> Stands(paras, k)
  {
    forall k: nat | k < |Place(paras)| ensures Stands(paras, k) {
      PlacedSomewhere(paras, k);
    }
  }

  /**
   The body paragraphs land in the pages exactly once and in document order; two share a
   page exactly when no heading stands between them; a page's title is the latest
   non-blank heading before its paragraphs; pages are numbered 1..n.
   */
  lemma {:induction false} PagesAreTheSections(paras: seq<Paragraph>) returns (groups: seq<seq<Placed>>)
    ensures NonEmpty(groups) && Sectioned(groups) && Flatten(groups) == Place(paras)
    ensures |Place(paras)| == |Retain(paras, IsBody)|
    ensures forall k :: 0 <= k < |Place(paras)| ==> Place(paras)[k].text == Retain(paras, IsBody)[k].text
    ensures forall k: nat :: k < |Place(paras)| ==> Stands(paras, k)
    ensures groups == [] <==> forall p :: p in paras ==> !IsBody(p)
    ensures if groups == [] then DocxPages(paras) == [RawPage("", 1, None)]
            else
              && |DocxPages(paras)| == |groups|
              && forall i :: 0 <= i < |groups| ==>
                   DocxPages(paras)[i] == RawPage(Join('\n', Texts(groups[i])), i + 1, groups[i][0].title)
  {
    hide Group, Place, Sectioned, Retain, IsBody, Join, Texts, Stands, NonEmpty, Ordered, HeadingCount, LatestTitle, Flatten, Strip;
    AllStand(paras);
    groups := Group(Place(paras));
    PlaceOrdered(paras);
    GroupSectioned(Place(paras));
    PlacedTexts(paras);
    NoneKeptIff(paras, IsBody);
  }
}
