/** Page orientation rules of the merger's rotate_pdf_if_needed and
    optimize_timesheet_orientation. A page is its MediaBox width and height
    and its /Rotate entry; turning a page adds 90 to /Rotate and leaves the
    MediaBox alone (ISO 32000-1, section 7.7.3.3). Every rule reads only the
    MediaBox. Dimensions are integers: the float comparisons w > 1.5*h,
    w > 1.2*h and w < 0.8*h are written as 2w > 3h, 5w > 6h and 5w < 4h. */
module Pages {

  datatype Page = Page(width: int, height: int, rotate: int)

  /** Which orientation test a revision applies to each page. */
  datatype Rule =
    | Landscape   // w > h
    | Wide15      // w > h, elif w > 1.5*h
    | Optimize12  // w > h, elif w > 1.2*h, elif w < 0.8*h
    | OptimizeStandard  // w > h, or taller than twice its width

  /** Whether the rule turns the page by 90 degrees. */
  predicate NeedsTurn(rule: Rule, p: Page)
  {
    var w, h := p.width, p.height;
    match rule
    case Landscape => w > h
    case Wide15 => w > h || 2 * w > 3 * h
    case Optimize12 => w > h || 5 * w > 6 * h || 5 * w < 4 * h
    case OptimizeStandard => w > h || 2 * w < h
  }

  /** page.rotate(90). */
  function Turn(p: Page): (r: Page)
    ensures r.width == p.width && r.height == p.height
    ensures r.rotate == p.rotate + 90
  {
    p.(rotate := p.rotate + 90)
  }

  /** One page after the rule was applied to it. */
  function Oriented(rule: Rule, p: Page): Page
  {
    if NeedsTurn(rule, p) then Turn(p) else p
  }

  /** The pages the writer receives: every page, in order, each oriented. */
  function Normalized(rule: Rule, pages: seq<Page>): (r: seq<Page>)
    ensures |r| == |pages|
  {
    if pages == [] then [] else [Oriented(rule, pages[0])] + Normalized(rule, pages[1..])
  }

  /** The i-th written page is the i-th source page, oriented. */
  lemma {:induction false} NormalizedIndex(rule: Rule, pages: seq<Page>, i: int)
    requires 0 <= i < |pages|
    ensures Normalized(rule, pages)[i] == Oriented(rule, pages[i])
  {
    if i > 0 {
      NormalizedIndex(rule, pages[1..], i - 1);
    }
  }

  /** The loop over reader.pages that hands each page to writer.add_page. */
  method OrientPages(rule: Rule, pages: seq<Page>) returns (written: seq<Page>)
    ensures written == Normalized(rule, pages)
  {
    written := [];
    var i := 0;
    while i < |pages|
      invariant 0 <= i <= |pages| && |written| == i
      invariant forall k :: 0 <= k < i ==> written[k] == Oriented(rule, pages[k])
    {
      written := written + [Oriented(rule, pages[i])];
      i := i + 1;
    }
    forall k | 0 <= k < |pages| ensures written[k] == Normalized(rule, pages)[k] {
      NormalizedIndex(rule, pages, k);
    }
  }

  /** Each written page keeps the source page's MediaBox and is turned exactly
      when the rule says so. */
  lemma NormalizedAt(rule: Rule, pages: seq<Page>, i: int)
    requires 0 <= i < |pages|
    ensures Normalized(rule, pages)[i].width == pages[i].width
    ensures Normalized(rule, pages)[i].height == pages[i].height
    ensures Normalized(rule, pages)[i].rotate
            == if NeedsTurn(rule, pages[i]) then pages[i].rotate + 90 else pages[i].rotate
  {
    NormalizedIndex(rule, pages, i);
  }

  /** The width and height a viewer shows once /Rotate is applied. */
  function Displayed(p: Page): (r: (int, int))
    ensures p.rotate % 180 == 0 ==> r == (p.width, p.height)
    ensures p.rotate % 180 != 0 ==> r == (p.height, p.width)
  {
    if p.rotate % 180 == 0 then (p.width, p.height) else (p.height, p.width)
  }

  predicate ShowsLandscape(p: Page)
  {
    Displayed(p).0 > Displayed(p).1
  }

  /** A quarter turn swaps the width and height a viewer shows (/Rotate is a
      multiple of 90). */
  lemma TurnSwapsShown(p: Page)
    requires p.rotate % 90 == 0
    ensures Displayed(Turn(p)) == (Displayed(p).1, Displayed(p).0)
  {
    assert p.rotate % 180 == 0 || p.rotate % 180 == 90;
  }

  /** Two quarter turns show the page as it was shown before. */
  lemma {:induction false} HalfTurnShowsSame(p: Page)
    requires p.rotate % 90 == 0
    ensures Displayed(Turn(Turn(p))) == Displayed(p)
  {
    TurnSwapsShown(p);
    TurnSwapsShown(Turn(p));
  }

  /** An upright page (rotate a multiple of 180) never shows as landscape after
      the w > h rule. */
  lemma LandscapeRuleGivesPortrait(p: Page)
    requires p.rotate % 180 == 0
    ensures !ShowsLandscape(Oriented(Landscape, p))
  {
    if NeedsTurn(Landscape, p) {
      assert Oriented(Landscape, p).rotate % 180 == 90;
    }
  }

  /** Under the w > h rule, no page of the written file shows as landscape
      where the source page was upright. */
  lemma {:induction false} NormalizedUprightShowsPortrait(pages: seq<Page>)
    ensures forall i :: 0 <= i < |pages| && pages[i].rotate % 180 == 0 ==>
              !ShowsLandscape(Normalized(Landscape, pages)[i])
  {
    forall i | 0 <= i < |pages| && pages[i].rotate % 180 == 0
      ensures !ShowsLandscape(Normalized(Landscape, pages)[i])
    {
      NormalizedIndex(Landscape, pages, i);
      LandscapeRuleGivesPortrait(pages[i]);
    }
  }

  /** The rules look only at the MediaBox: a page whose /Rotate already shows
      it as portrait is turned again, so a second pass turns a landscape
      MediaBox a second time. */
  lemma RotateEntryIgnored(rule: Rule, p: Page)
    requires p.width > p.height
    ensures Oriented(rule, Oriented(rule, p)).rotate == p.rotate + 180
    ensures Oriented(rule, Oriented(rule, p)).width == p.width
  {
  }

  /** A landscape MediaBox whose /Rotate already shows it as portrait is
      turned by every rule all the same, and then shows as landscape. */
  lemma AlreadyTurnedPageShownLandscape(rule: Rule, p: Page)
    requires p.width > p.height && p.rotate % 180 == 90
    ensures !ShowsLandscape(p)
    ensures Oriented(rule, p) == Turn(p)
    ensures ShowsLandscape(Oriented(rule, p))
  {
    assert Turn(p).rotate % 180 == 0;
  }

  /** For a non-negative height the w > 1.5*h branch of the wide rule can never
      be the one that fires: the rule is the plain w > h rule. */
  lemma WideBranchUnreachable(p: Page)
    requires p.height >= 0
    ensures NeedsTurn(Wide15, p) <==> NeedsTurn(Landscape, p)
  {
  }

  /** With a negative MediaBox height the extra branch does fire on a page the
      w > h test leaves alone. */
  lemma WideBranchNegativeHeight()
    ensures NeedsTurn(Wide15, Page(-4, -3, 0)) && !NeedsTurn(Landscape, Page(-4, -3, 0))
  {
  }

  /** For a non-negative height the optimising rule turns a page exactly when
      it is landscape or taller than 1.25 times its width; its w > 1.2*h branch
      never fires. */
  lemma OptimizeRuleExact(p: Page)
    requires p.height >= 0
    ensures NeedsTurn(Optimize12, p) <==> (p.width > p.height || 5 * p.width < 4 * p.height)
  {
  }

  /** The optimising rule turns a tall upright page, which then shows as
      landscape. */
  lemma OptimizeTurnsTallPage(p: Page)
    requires p.rotate % 180 == 0 && p.width >= 0 && 5 * p.width < 4 * p.height
    ensures ShowsLandscape(Oriented(Optimize12, p))
  {
    assert Oriented(Optimize12, p).rotate % 180 == 90;
  }

  /** Only near-square portrait pages, no taller than 1.25 times their width,
      are left as they are. */
  lemma OptimizeKeepsNearSquarePortrait(p: Page)
    requires 0 <= p.width <= p.height && 4 * p.height <= 5 * p.width
    ensures Oriented(Optimize12, p) == p
  {
  }

  /** Upright A4 (595 x 842 pt) and Letter (612 x 792 pt) portrait pages. */
  const A4Portrait: Page := Page(595, 842, 0)
  const LetterPortrait: Page := Page(612, 792, 0)

  /** As written, the w < 0.8*h branch turns both standard portrait formats,
      which then show as landscape, although the rule means to keep them. */
  lemma StandardPortraitTurnedAsWritten()
    ensures NeedsTurn(Optimize12, A4Portrait) && ShowsLandscape(Oriented(Optimize12, A4Portrait))
    ensures NeedsTurn(Optimize12, LetterPortrait) && ShowsLandscape(Oriented(Optimize12, LetterPortrait))
  {
    OptimizeTurnsTallPage(A4Portrait);
    OptimizeTurnsTallPage(LetterPortrait);
  }

  /** The corrected rule keeps every upright portrait page up to twice as tall
      as it is wide, A4 and Letter among them, and still turns every landscape
      MediaBox. */
  lemma {:induction false} OptimizeStandardKeepsPortrait(p: Page)
    requires 0 <= p.width
    ensures p.width <= p.height <= 2 * p.width ==> Oriented(OptimizeStandard, p) == p
    ensures p.width > p.height ==> Oriented(OptimizeStandard, p) == Turn(p)
    ensures Oriented(OptimizeStandard, A4Portrait) == A4Portrait
    ensures Oriented(OptimizeStandard, LetterPortrait) == LetterPortrait
  {
    assert !NeedsTurn(OptimizeStandard, A4Portrait);
    assert !NeedsTurn(OptimizeStandard, LetterPortrait);
  }
}
