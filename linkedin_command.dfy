/**
 * The LinkedIn profile extractor of internal/linkedin/command.go: the public
 * profile page is read into an ordered table of four-column rows, three
 * scalar rows (name, title, location) followed by one row per experience
 * card and one row per position of an experience group.
 */
module LinkedInCommand {
  import opened Base
  import opened Strings
  import opened Dom

  const NameSelector := ".top-card-layout__title"
  const HeadlineSelector := ".top-card-layout__headline"
  const LocationSelector := ".top-card__subline-item"
  /** The items of the experience list; also the selector waited on. */
  const ExperienceSelector := ".experience__list > li"
  /** The class marker of a single-position experience item. */
  const CardMarker := "profile-section-card"
  /** The class marker of an item grouping several positions at one company. */
  const GroupMarker := "experience-group"
  /** Where a card names its company: a link, or else a plain heading. */
  const CardCompanySelectors := [".profile-section-card__subtitle > a", "h4.profile-section-card__subtitle"]
  const TitleSelector := "h3.profile-section-card__title"
  const TimeSelector := ".date-range > time"
  const GroupCompanySelector := "h4.experience-group-header__company"
  const PositionSelector := ".experience-group-position"
  /** What the dates of a time range are joined with. */
  const RangeSeparator := " - "

  /** A row of the result: a label or `""`, then three values. */
  type Row = seq<string>

  /** `getFieldData`: the text of the first element matching `selector` in the page, `""` when there is none or its text cannot be read. */
  function FieldData(doc: Element, selector: string): (value: string)
    ensures FindElement(doc, selector).Err? ==> value == ""
    ensures FindElement(doc, selector).Ok? ==> value == OrEmpty(FindElement(doc, selector).value.text)
  {
    match FindElement(doc, selector)
    case Err(_) => ""
    case Ok(element) => OrEmpty(element.text)
  }

  /** One selector of a fallback chain: find the element under `elm`, then read its `innerText`. */
  function Attempt(elm: Element, selector: string): Result<string>
  {
    match FindElement(elm, selector)
    case Err(e) => Err(e)
    case Ok(dom) => dom.innerText
  }

  /** The `(value, err)` pair `getText` returns. */
  datatype Lookup = Lookup(value: string, err: Option<Error>)

  /**
   * What `getText` returns: the text of the first selector whose lookup and
   * read both succeed, with no error; otherwise `""` and the error of the
   * last selector tried, or no error when there was no selector at all.
   */
  function TextLookup(elm: Element, selectors: seq<string>): (r: Lookup)
    ensures r.err.Some? ==> r.value == ""
    ensures selectors == [] ==> r == Lookup("", None)
  {
    if selectors == [] then Lookup("", None)
    else
      match Attempt(elm, selectors[0])
      case Ok(v) => Lookup(v, None)
      case Err(e) => if |selectors| == 1 then Lookup("", Some(e)) else TextLookup(elm, selectors[1..])
  }

  /** The first selector that works decides the result, with no error. */
  lemma {:induction false} FirstSuccessWins(elm: Element, selectors: seq<string>, k: nat)
    requires k < |selectors| && Attempt(elm, selectors[k]).Ok?
    requires forall j :: 0 <= j < k ==> Attempt(elm, selectors[j]).Err?
    ensures TextLookup(elm, selectors) == Lookup(Attempt(elm, selectors[k]).value, None)
  {
    if k > 0 {
      FirstSuccessWins(elm, selectors[1..], k - 1);
    }
  }

  /** When every selector fails, the value is empty and the error is the last selector's. */
  lemma {:induction false} AllFailReportsLast(elm: Element, selectors: seq<string>)
    requires |selectors| > 0
    requires forall j :: 0 <= j < |selectors| ==> Attempt(elm, selectors[j]).Err?
    ensures TextLookup(elm, selectors) == Lookup("", Some(Attempt(elm, selectors[|selectors| - 1]).error))
  {
    if |selectors| > 1 {
      AllFailReportsLast(elm, selectors[1..]);
    }
  }

  /** Once a selector has worked, the selectors after it are never tried. */
  lemma {:induction false} LaterSelectorsIgnored(elm: Element, tried: seq<string>, later: seq<string>, k: nat)
    requires k < |tried| && Attempt(elm, tried[k]).Ok?
    ensures TextLookup(elm, tried + later) == TextLookup(elm, tried)
  {
    if Attempt(elm, tried[0]).Err? {
      assert (tried + later)[1..] == tried[1..] + later;
      LaterSelectorsIgnored(elm, tried[1..], later, k - 1);
    }
  }

  /** `getText`: try the selectors in order and stop at the first whose element and text can both be read. */
  method GetText(elm: Element, selectors: seq<string>) returns (value: string, err: Option<Error>)
    ensures Lookup(value, err) == TextLookup(elm, selectors)
  {
    value, err := "", None;
    var i := 0;
    while i < |selectors|
      invariant 0 <= i <= |selectors|
      invariant value == ""
      invariant TextLookup(elm, selectors) == if i < |selectors| then TextLookup(elm, selectors[i..]) else Lookup("", err)
    {
      assert selectors[i..][1..] == selectors[i + 1..];
      var dom := FindElement(elm, selectors[i]);
      if dom.Err? {
        err := Some(dom.error);
        i := i + 1;
        continue;
      }
      var text := dom.value.innerText;
      if text.Err? {
        value, err := "", Some(text.error);
        i := i + 1;
        continue;
      }
      value, err := text.value, None;
      break;
    }
  }

  /** The `innerText` of each time element, `""` for one that cannot be read. */
  function TimeTexts(times: seq<Element>): (texts: seq<string>)
    ensures |texts| == |times|
  {
    seq(|times|, k requires 0 <= k < |times| => OrEmpty(times[k].innerText))
  }

  /** The loop that collects the dates of a time range. */
  method TimeRanges(times: seq<Element>) returns (ranges: seq<string>)
    ensures ranges == TimeTexts(times)
  {
    ranges := [];
    var i := 0;
    while i < |times|
      invariant 0 <= i <= |times|
      invariant ranges == TimeTexts(times[..i])
    {
      var text := OrEmpty(times[i].innerText);
      ranges := ranges + [text];
      i := i + 1;
    }
    assert times[..i] == times;
  }

  /** How an experience item is handled, decided from its class attribute. */
  datatype Kind = Card | Group | Other

  /** The card test comes first, so a class naming both markers is a card. */
  function Classify(cls: string): (kind: Kind)
    ensures kind == Card <==> Contains(cls, CardMarker)
    ensures kind == Group <==> !Contains(cls, CardMarker) && Contains(cls, GroupMarker)
  {
    if Contains(cls, CardMarker) then Card
    else if Contains(cls, GroupMarker) then Group
    else Other
  }

  /** The three scalar rows, in the order name, title, location. */
  function ScalarRows(doc: Element): (rows: seq<Row>)
    ensures |rows| == 3
    ensures rows[0] == ["name", FieldData(doc, NameSelector), "", ""]
    ensures rows[1] == ["title", FieldData(doc, HeadlineSelector), "", ""]
    ensures rows[2] == ["location", FieldData(doc, LocationSelector), "", ""]
  {
    [["name", FieldData(doc, NameSelector), "", ""],
     ["title", FieldData(doc, HeadlineSelector), "", ""],
     ["location", FieldData(doc, LocationSelector), "", ""]]
  }

  /** The row of an experience card: company, title, and its dates joined by `" - "`. */
  function CardRow(elm: Element): (row: Row)
    ensures |row| == 4 && row[0] == ""
    ensures row[1] == TextLookup(elm, CardCompanySelectors).value
    ensures row[2] == TextLookup(elm, [TitleSelector]).value
    ensures row[3] == Join(TimeTexts(FindElements(elm, TimeSelector)), RangeSeparator)
    ensures FindElements(elm, TimeSelector) == [] ==> row[3] == ""
  {
    ["", TextLookup(elm, CardCompanySelectors).value, TextLookup(elm, [TitleSelector]).value,
     Join(TimeTexts(FindElements(elm, TimeSelector)), RangeSeparator)]
  }

  /** The row of one position of a group, under the group's company. */
  function PositionRow(company: string, position: Element): (row: Row)
    ensures |row| == 4 && row[0] == "" && row[1] == company
    ensures row[2] == TextLookup(position, [TitleSelector]).value
    ensures row[3] == Join(TimeTexts(FindElements(position, TimeSelector)), RangeSeparator)
  {
    ["", company, TextLookup(position, [TitleSelector]).value,
     Join(TimeTexts(FindElements(position, TimeSelector)), RangeSeparator)]
  }

  /**
   * The rows of an experience group: one per position found in the whole
   * page (not only inside the group), each under the group's company.
   */
  function GroupRows(doc: Element, elm: Element): (rows: seq<Row>)
    ensures |rows| == |FindElements(doc, PositionSelector)|
    ensures forall k :: 0 <= k < |rows| ==>
      |rows[k]| == 4 && rows[k][0] == "" && rows[k][1] == TextLookup(elm, [GroupCompanySelector]).value
    ensures forall k :: 0 <= k < |rows| ==>
      var p := FindElements(doc, PositionSelector)[k];
      rows[k][2] == TextLookup(p, [TitleSelector]).value
      && rows[k][3] == Join(TimeTexts(FindElements(p, TimeSelector)), RangeSeparator)
  {
    var company := TextLookup(elm, [GroupCompanySelector]).value;
    var positions := FindElements(doc, PositionSelector);
    seq(|positions|, k requires 0 <= k < |positions| => PositionRow(company, positions[k]))
  }

  /** The rows one experience item contributes: none when its class cannot be read or names neither marker. */
  function ItemRows(doc: Element, elm: Element): (rows: seq<Row>)
    ensures elm.cls.Err? ==> rows == []
    ensures elm.cls.Ok? && Classify(elm.cls.value) == Card ==> rows == [CardRow(elm)]
    ensures elm.cls.Ok? && Classify(elm.cls.value) == Group ==> rows == GroupRows(doc, elm)
    ensures elm.cls.Ok? && Classify(elm.cls.value) == Other ==> rows == []
  {
    match elm.cls
    case Err(_) => []
    case Ok(cls) =>
      match Classify(cls)
      case Card => [CardRow(elm)]
      case Group => GroupRows(doc, elm)
      case Other => []
  }

  /** The rows of the experience items, item after item. */
  function ExperienceRows(doc: Element, elms: seq<Element>): (rows: seq<Row>)
    ensures elms == [] ==> rows == []
    ensures |elms| == 1 ==> rows == ItemRows(doc, elms[0])
  {
    if elms == [] then [] else ExperienceRows(doc, elms[..|elms| - 1]) + ItemRows(doc, elms[|elms| - 1])
  }

  /** The table `extractUserProfile` builds: the scalar rows, then the experience rows if the list became visible. */
  function ProfileRows(page: Page): (rows: seq<Row>)
    ensures |rows| >= 3 && rows[..3] == ScalarRows(page.document)
    ensures !page.experienceVisible ==> rows == ScalarRows(page.document)
  {
    var doc := page.document;
    ScalarRows(doc) + (if page.experienceVisible then ExperienceRows(doc, FindElements(doc, ExperienceSelector)) else [])
  }

  /**
   * The body of the loop over experience items: append the rows of one item
   * to `data`, skipping an item whose class cannot be read or names neither marker.
   */
  method AppendItem(doc: Element, data: seq<Row>, elm: Element) returns (data': seq<Row>)
    ensures data' == data + ItemRows(doc, elm)
  {
    data' := data;
    if elm.cls.Err? {
      return;
    }
    var cls := elm.cls.value;

    if Contains(cls, CardMarker) {
      var company, companyErr := GetText(elm, CardCompanySelectors);
      var title, titleErr := GetText(elm, [TitleSelector]);
      var ranges := TimeRanges(FindElements(elm, TimeSelector));
      data' := data' + [["", company, title, Join(ranges, RangeSeparator)]];
      return;
    }

    if Contains(cls, GroupMarker) {
      var company, companyErr := GetText(elm, [GroupCompanySelector]);
      var positions := FindElements(doc, PositionSelector);
      ghost var rows := GroupRows(doc, elm);
      var j := 0;
      while j < |positions|
        invariant 0 <= j <= |positions|
        invariant data' == data + rows[..j]
      {
        var position := positions[j];
        var title, titleErr := GetText(position, [TitleSelector]);
        var ranges := TimeRanges(FindElements(position, TimeSelector));
        assert rows[..j + 1] == rows[..j] + [PositionRow(company, position)];
        data' := data' + [["", company, title, Join(ranges, RangeSeparator)]];
        j := j + 1;
      }
      assert rows[..j] == rows;
      return;
    }
    assert data + [] == data;
  }

  /** The rows of the first `i + 1` items: those of the first `i`, then those of item `i`. */
  lemma ExperienceRowsSnoc(doc: Element, elms: seq<Element>, i: nat)
    requires i < |elms|
    ensures ExperienceRows(doc, elms[..i + 1]) == ExperienceRows(doc, elms[..i]) + ItemRows(doc, elms[i])
  {
    assert elms[..i + 1][..i] == elms[..i];
  }

  /** `extractUserProfile`: the scalar rows, the wait for the experience list, then the items in document order. */
  method ExtractUserProfile(page: Page) returns (data: seq<Row>)
    ensures data == ProfileRows(page)
  {
    var doc := page.document;
    data := [
      ["name", FieldData(doc, NameSelector), "", ""],
      ["title", FieldData(doc, HeadlineSelector), "", ""],
      ["location", FieldData(doc, LocationSelector), "", ""]
    ];
    if !page.experienceVisible {
      return;
    }

    var elms := FindElements(doc, ExperienceSelector);
    var i := 0;
    while i < |elms|
      invariant 0 <= i <= |elms|
      invariant data == ScalarRows(doc) + ExperienceRows(doc, elms[..i])
    {
      ghost var done := ExperienceRows(doc, elms[..i]);
      ExperienceRowsSnoc(doc, elms, i);
      data := AppendItem(doc, data, elms[i]);
      AppendAssociates(ScalarRows(doc), done, ItemRows(doc, elms[i]));
      i := i + 1;
    }
    assert elms[..i] == elms;
  }

  /** The experience rows of two runs of items are those of the first followed by those of the second. */
  lemma {:induction false} ExperienceRowsAppend(doc: Element, a: seq<Element>, b: seq<Element>)
    ensures ExperienceRows(doc, a + b) == ExperienceRows(doc, a) + ExperienceRows(doc, b)
    decreases |b|
  {
    if b != [] {
      var front := b[..|b| - 1];
      assert (a + b)[..|a + b| - 1] == a + front;
      ExperienceRowsAppend(doc, a, front);
    } else {
      assert a + b == a;
    }
  }

  /** Rows are only ever appended: the rows of the first `k` items begin the rows of all of them. */
  lemma ExperienceRowsGrow(doc: Element, elms: seq<Element>, k: nat)
    requires k <= |elms|
    ensures var rows := ExperienceRows(doc, elms[..k]);
      |rows| <= |ExperienceRows(doc, elms)| && ExperienceRows(doc, elms)[..|rows|] == rows
  {
    assert elms == elms[..k] + elms[k..];
    ExperienceRowsAppend(doc, elms[..k], elms[k..]);
  }

  /** An item whose class cannot be read, or names neither marker, leaves the rows as if it were absent. */
  lemma SkippedItemAddsNothing(doc: Element, before: seq<Element>, elm: Element, after: seq<Element>)
    requires elm.cls.Err? || Classify(elm.cls.value) == Other
    ensures ExperienceRows(doc, before + [elm] + after) == ExperienceRows(doc, before + after)
  {
    var grown := before + [elm];
    assert grown[..|grown| - 1] == before;
    assert ItemRows(doc, elm) == [];
    assert ExperienceRows(doc, grown) == ExperienceRows(doc, before);
    assert grown + after == before + [elm] + after;
    ExperienceRowsAppend(doc, grown, after);
    ExperienceRowsAppend(doc, before, after);
  }

  /** Every row of the experience part has four columns, the first empty. */
  lemma {:induction false} ExperienceRowsShape(doc: Element, elms: seq<Element>)
    ensures forall r :: r in ExperienceRows(doc, elms) ==> |r| == 4 && r[0] == ""
  {
    if elms != [] {
      ExperienceRowsShape(doc, elms[..|elms| - 1]);
    }
  }

  /** Every row of the table has four columns. */
  lemma RowsHaveFourColumns(page: Page)
    ensures forall r :: r in ProfileRows(page) ==> |r| == 4
  {
    ExperienceRowsShape(page.document, FindElements(page.document, ExperienceSelector));
  }

  /**
   * The positions of a group are looked up in the whole page: two groups
   * whose company reads the same yield the same rows, whatever positions each
   * one holds itself.
   */
  lemma GroupPositionsArePageWide(doc: Element, g1: Element, g2: Element)
    requires TextLookup(g1, [GroupCompanySelector]) == TextLookup(g2, [GroupCompanySelector])
    ensures GroupRows(doc, g1) == GroupRows(doc, g2)
  {
  }

  /** The rows of two items are those of the first, then those of the second. */
  lemma ExperienceRowsPair(doc: Element, first: Element, second: Element)
    ensures ExperienceRows(doc, [first, second]) == ItemRows(doc, first) + ItemRows(doc, second)
  {
    assert [first, second][..1] == [first];
  }

  /** A card followed by a group over a page with two positions gives one card row and two position rows. */
  lemma CardThenGroup(doc: Element, card: Element, group: Element)
    requires card.cls.Ok? && Classify(card.cls.value) == Card
    requires group.cls.Ok? && Classify(group.cls.value) == Group
    requires |FindElements(doc, PositionSelector)| == 2
    ensures var rows := ExperienceRows(doc, [card, group]);
      |rows| == 3 && rows[0] == CardRow(card) && rows[1][1] == rows[2][1] == TextLookup(group, [GroupCompanySelector]).value
      && rows[1][2] == TextLookup(FindElements(doc, PositionSelector)[0], [TitleSelector]).value
      && rows[2][2] == TextLookup(FindElements(doc, PositionSelector)[1], [TitleSelector]).value
  {
    ExperienceRowsPair(doc, card, group);
    assert ItemRows(doc, card) == [CardRow(card)];
    assert ItemRows(doc, group) == GroupRows(doc, group);
  }
}
