/**
 * What the pitch-deck story promises: eleven pages separated by ten page
 * breaks, each page opened by its background and banner, backgrounds cycling
 * through the palette, banners in fixed order, exactly three two-row tables,
 * list fields that contribute nothing when empty, and fields that are never
 * rendered.
 */
module StoryProperties {
  import opened Values
  import opened DataModels
  import opened PdfGenerator

  // ---------------------------------------------------------------------
  // Observing a story: the elements a projection picks out, in order.

  /** The results of `f` on the elements it accepts, in story order. */
  function Pick<T>(s: seq<Flowable>, f: Flowable -> Option<T>): seq<T> {
    if s == [] then []
    else
      var last := f(s[|s| - 1]);
      Pick(s[..|s| - 1], f) + (if last.Some? then [last.value] else [])
  }

  function ColorOf(e: Flowable): Option<nat> {
    if e.Background? then Some(e.colorIdx) else None
  }

  function BannerOf(e: Flowable): Option<string> {
    if e.Banner? then Some(e.text) else None
  }

  function RowsOf(e: Flowable): Option<seq<(string, string)>> {
    if e.Table? then Some(e.rows) else None
  }

  function BreakOf(e: Flowable): Option<bool> {
    if e.PageBreak? then Some(true) else None
  }

  /** The background colours of a story, in order. */
  function Colors(s: seq<Flowable>): seq<nat> {
    Pick(s, ColorOf)
  }

  /** The banner texts of a story, in order. */
  function BannerTexts(s: seq<Flowable>): seq<string> {
    Pick(s, BannerOf)
  }

  /** The rows of each table of a story, in order. */
  function Tables(s: seq<Flowable>): seq<seq<(string, string)>> {
    Pick(s, RowsOf)
  }

  /** The number of page breaks in a story. */
  function BreakCount(s: seq<Flowable>): nat {
    |Pick(s, BreakOf)|
  }

  lemma {:induction false} PickAppend<T>(a: seq<Flowable>, b: seq<Flowable>, f: Flowable -> Option<T>)
    ensures Pick(a + b, f) == Pick(a, f) + Pick(b, f)
    decreases |b|
  {
    if b != [] {
      var n := |b| - 1;
      assert (a + b)[..|a + b| - 1] == a + b[..n];
      assert (a + b)[|a + b| - 1] == b[n];
      PickAppend(a, b[..n], f);
    } else {
      assert a + b == a;
    }
  }

  /** A projection that accepts none of the elements picks nothing. */
  lemma {:induction false} PickNone<T>(s: seq<Flowable>, f: Flowable -> Option<T>)
    requires forall j :: 0 <= j < |s| ==> f(s[j]).None?
    ensures Pick(s, f) == []
    decreases |s|
  {
    if s != [] {
      PickNone(s[..|s| - 1], f);
    }
  }

  lemma PickOne<T>(e: Flowable, f: Flowable -> Option<T>)
    ensures Pick([e], f) == if f(e).Some? then [f(e).value] else []
  {
    assert [e][..0] == [];
  }

  // ---------------------------------------------------------------------
  // Page shape: background, banner, then body elements only.

  /** The elements a page shows below its banner. */
  predicate IsBody(e: Flowable) {
    e.Para? || e.Separator? || e.Table? || e.Spacer?
  }

  predicate AllBody(s: seq<Flowable>) {
    forall j :: 0 <= j < |s| ==> IsBody(s[j])
  }

  predicate AllPara(s: seq<Flowable>) {
    forall j :: 0 <= j < |s| ==> s[j].Para?
  }

  predicate PageShape(p: seq<Flowable>) {
    |p| >= 2 && p[0].Background? && p[1].Banner? && AllBody(p[2..])
  }

  /** Page `k` of a deck: well shaped, with background `k` mod 4 and the `k`-th banner. */
  predicate PageOK(p: seq<Flowable>, k: nat)
    requires k < |BannerTitles|
  {
    PageShape(p) && p[0] == Background(k % 4) && p[1] == Banner(BannerTitles[k])
  }

  /** How many elements a list field contributes. */
  function ListCost(items: seq<string>): nat {
    if items == [] then 0 else |items| + 1
  }

  lemma OptionalListFacts(heading: string, items: seq<string>)
    ensures AllPara(OptionalList(heading, items))
    ensures |OptionalList(heading, items)| == ListCost(items)
    ensures Tables(OptionalList(heading, items)) == []
  {
    PickNone(OptionalList(heading, items), RowsOf);
  }

  lemma PhaseBlockFacts(fases: seq<string>)
    ensures AllPara(PhaseBlock(fases))
    ensures |PhaseBlock(fases)| == ListCost(fases)
  {
  }

  lemma ParasAreBody(s: seq<Flowable>)
    requires AllPara(s)
    ensures AllBody(s)
    ensures Tables(s) == []
  {
    PickNone(s, RowsOf);
  }

  /** A page header alone is a well-shaped page without tables. */
  lemma HeaderFacts(idx: nat, banner: string)
    ensures var h := PageHeader(idx, banner);
      PageShape(h) && h[0] == Background(idx % 4) && h[1] == Banner(banner) &&
      Tables(h) == [] && |h| == 2
  {
    PickNone(PageHeader(idx, banner), RowsOf);
  }

  /** Appending body elements keeps a page well shaped and adds their tables. */
  lemma ExtendPage(p: seq<Flowable>, tail: seq<Flowable>)
    requires PageShape(p)
    requires AllBody(tail)
    ensures PageShape(p + tail)
    ensures (p + tail)[0] == p[0] && (p + tail)[1] == p[1]
    ensures Tables(p + tail) == Tables(p) + Tables(tail)
  {
    var q := p + tail;
    forall j | 0 <= j < |q| - 2 ensures IsBody(q[2..][j]) {
      if j + 2 < |p| {
        assert q[2..][j] == p[2..][j];
      } else {
        assert q[2..][j] == tail[j + 2 - |p|];
      }
    }
    PickAppend(p, tail, RowsOf);
  }

  /** Appending a list field. */
  lemma ExtendPageList(p: seq<Flowable>, heading: string, items: seq<string>)
    requires PageShape(p)
    ensures PageShape(p + OptionalList(heading, items))
    ensures (p + OptionalList(heading, items))[0] == p[0]
    ensures (p + OptionalList(heading, items))[1] == p[1]
    ensures Tables(p + OptionalList(heading, items)) == Tables(p)
    ensures |p + OptionalList(heading, items)| == |p| + ListCost(items)
  {
    OptionalListFacts(heading, items);
    ParasAreBody(OptionalList(heading, items));
    ExtendPage(p, OptionalList(heading, items));
  }

  /** Appending one body element. */
  lemma ExtendPageOne(p: seq<Flowable>, e: Flowable)
    requires PageShape(p)
    requires IsBody(e)
    ensures PageShape(p + [e])
    ensures (p + [e])[0] == p[0] && (p + [e])[1] == p[1]
    ensures Tables(p + [e]) == Tables(p) + (if e.Table? then [e.rows] else [])
  {
    ExtendPage(p, [e]);
    PickOne(e, RowsOf);
  }

  lemma NarrativePageFacts(idx: nat, slide: Slide, titleStyle: Style)
    requires idx < |BannerTitles|
    ensures var p := NarrativePage(idx, BannerTitles[idx], slide, titleStyle);
      PageOK(p, idx) && Tables(p) == [] && |p| == 5 + ListCost(slide.pontosChave)
  {
    var h := PageHeader(idx, BannerTitles[idx]);
    var fixed := [Para(slide.titulo, titleStyle), SeparatorLine(), Para(slide.conteudo, NormalStyle)];
    HeaderFacts(idx, BannerTitles[idx]);
    PickNone(fixed, RowsOf);
    ExtendPage(h, fixed);
    ExtendPageList(h + fixed, "Pontos-chave:", slide.pontosChave);
  }

  lemma MarketPageFacts(m: AnaliseMercado)
    ensures var p := MarketPage(3, m);
      PageOK(p, 3) && Tables(p) == [MarketRows(m)] &&
      |p| == 4 + ListCost(m.segmentosAlvo) + ListCost(m.tendencias) + ListCost(m.oportunidades)
  {
    var h := PageHeader(3, BannerTitles[3]);
    var p0 := h + [Table(MarketRows(m)), Spacer(30)];
    HeaderFacts(3, BannerTitles[3]);
    ExtendPageOne(h, Table(MarketRows(m)));
    ExtendPageOne(h + [Table(MarketRows(m))], Spacer(30));
    assert h + [Table(MarketRows(m))] + [Spacer(30)] == p0;
    var p1 := p0 + OptionalList("Segmentos Alvo:", m.segmentosAlvo);
    ExtendPageList(p0, "Segmentos Alvo:", m.segmentosAlvo);
    var p2 := p1 + OptionalList("Tendências:", m.tendencias);
    ExtendPageList(p1, "Tendências:", m.tendencias);
    ExtendPageList(p2, "Oportunidades:", m.oportunidades);
  }

  lemma BusinessPageFacts(b: ModeloNegocio)
    ensures var p := BusinessPage(4, b);
      PageOK(p, 4) && Tables(p) == [ProjectionRows(b)] &&
      |p| == 3 + ListCost(b.estrategiaMonetizacao) + ListCost(b.fontesReceita) + ListCost(b.custosEstimados)
  {
    var h := PageHeader(4, BannerTitles[4]);
    HeaderFacts(4, BannerTitles[4]);
    var p1 := h + OptionalList("Estratégia de Monetização:", b.estrategiaMonetizacao);
    ExtendPageList(h, "Estratégia de Monetização:", b.estrategiaMonetizacao);
    var p2 := p1 + OptionalList("Fontes de Receita:", b.fontesReceita);
    ExtendPageList(p1, "Fontes de Receita:", b.fontesReceita);
    var p3 := p2 + OptionalList("Custos Estimados:", b.custosEstimados);
    ExtendPageList(p2, "Custos Estimados:", b.custosEstimados);
    ExtendPageOne(p3, Table(ProjectionRows(b)));
  }

  lemma RoadmapPageFacts(r: RoadmapDesenvolvimento)
    ensures var p := RoadmapPage(6, r);
      PageOK(p, 6) && Tables(p) == [] &&
      |p| == 3 + ListCost(r.fases) + ListCost(r.marcosPrincipais) + ListCost(r.riscos)
  {
    var h := PageHeader(6, BannerTitles[6]);
    HeaderFacts(6, BannerTitles[6]);
    PhaseBlockFacts(r.fases);
    ParasAreBody(PhaseBlock(r.fases));
    var p1 := h + PhaseBlock(r.fases);
    ExtendPage(h, PhaseBlock(r.fases));
    var p2 := p1 + [Para("Cronograma: " + r.cronograma, SubtitleStyle)];
    ExtendPageOne(p1, Para("Cronograma: " + r.cronograma, SubtitleStyle));
    var p3 := p2 + OptionalList("Marcos Principais:", r.marcosPrincipais);
    ExtendPageList(p2, "Marcos Principais:", r.marcosPrincipais);
    ExtendPageList(p3, "Riscos Identificados:", r.riscos);
  }

  lemma InfoPageFacts(d: PitchDeck)
    ensures var p := InfoPage(10, d);
      PageOK(p, 10) && Tables(p) == [InfoRows(d)] &&
      |p| == 5 + ListCost(d.dicasApresentacao) &&
      p[|p| - 2] == Spacer(60) && p[|p| - 1] == ClosingMark
  {
    var h := PageHeader(10, BannerTitles[10]);
    HeaderFacts(10, BannerTitles[10]);
    var p1 := h + [Table(InfoRows(d))];
    ExtendPageOne(h, Table(InfoRows(d)));
    var p2 := p1 + OptionalList("Dicas de Apresentação:", d.dicasApresentacao);
    ExtendPageList(p1, "Dicas de Apresentação:", d.dicasApresentacao);
    var tail := [Spacer(60), ClosingMark];
    PickNone(tail, RowsOf);
    ExtendPage(p2, tail);
  }

  /** The tables of page `k` of a deck. */
  function PageTablesOf(d: PitchDeck, k: nat): seq<seq<(string, string)>> {
    if k == 3 then [MarketRows(d.slideMercado)]
    else if k == 4 then [ProjectionRows(d.slideModeloNegocio)]
    else if k == 10 then [InfoRows(d)]
    else []
  }

  lemma PageFactsAt(d: PitchDeck, k: nat)
    requires k < 11
    ensures |Pages(d)| == 11
    ensures PageOK(Pages(d)[k], k)
    ensures Tables(Pages(d)[k]) == PageTablesOf(d, k)
  {
    var p := Pages(d);
    if k == 0 {
      NarrativePageFacts(0, d.slideTitulo, TitleStyle);
    } else if k == 1 {
      NarrativePageFacts(1, d.slideProblema, SubtitleStyle);
    } else if k == 2 {
      NarrativePageFacts(2, d.slideSolucao, SubtitleStyle);
    } else if k == 3 {
      MarketPageFacts(d.slideMercado);
    } else if k == 4 {
      BusinessPageFacts(d.slideModeloNegocio);
    } else if k == 5 {
      NarrativePageFacts(5, d.slideDiferencacao, SubtitleStyle);
    } else if k == 6 {
      RoadmapPageFacts(d.slideRoadmap);
    } else if k == 7 {
      NarrativePageFacts(7, d.slideEquipe, SubtitleStyle);
    } else if k == 8 {
      NarrativePageFacts(8, d.slideFinanceiro, SubtitleStyle);
    } else if k == 9 {
      NarrativePageFacts(9, d.slideCallAction, SubtitleStyle);
    } else {
      InfoPageFacts(d);
    }
  }

  /** Every page of every deck is well shaped and carries its background and banner. */
  lemma PagesOK(d: PitchDeck)
    ensures |Pages(d)| == 11
    ensures forall k :: 0 <= k < 11 ==> PageOK(Pages(d)[k], k)
    ensures forall k :: 0 <= k < 11 ==> Tables(Pages(d)[k]) == PageTablesOf(d, k)
  {
    forall k | 0 <= k < 11
      ensures PageOK(Pages(d)[k], k) && Tables(Pages(d)[k]) == PageTablesOf(d, k)
    {
      PageFactsAt(d, k);
    }
    PageFactsAt(d, 0);
  }

  lemma ShapedPages(d: PitchDeck)
    ensures |Pages(d)| == 11
    ensures forall k :: 0 <= k < |Pages(d)| ==> PageShape(Pages(d)[k])
  {
    PagesOK(d);
    forall k | 0 <= k < 11 ensures PageShape(Pages(d)[k]) {
      assert PageOK(Pages(d)[k], k);
    }
  }

  // ---------------------------------------------------------------------
  // Joining pages and splitting a story at its page breaks.

  /** The position of the last occurrence of `x`. */
  function LastIndexOf(s: seq<Flowable>, x: Flowable): (i: nat)
    requires x in s
    ensures i < |s| && s[i] == x
    ensures forall j :: i < j < |s| ==> s[j] != x
  {
    if s[|s| - 1] == x then |s| - 1 else LastIndexOf(s[..|s| - 1], x)
  }

  /** The page segments of a story: cut at every page break. */
  function SplitPages(s: seq<Flowable>): seq<seq<Flowable>>
    decreases |s|
  {
    if PageBreak !in s then [s]
    else
      var i := LastIndexOf(s, PageBreak);
      SplitPages(s[..i]) + [s[i + 1..]]
  }

  lemma ShapedPageHasNoBreak(p: seq<Flowable>)
    requires PageShape(p)
    ensures PageBreak !in p
  {
    forall j | 0 <= j < |p| ensures p[j] != PageBreak {
      if j >= 2 {
        assert p[j] == p[2..][j - 2];
      }
    }
  }

  /** The last page break of a join of two or more pages is the one before the last page. */
  lemma LastBreakOfJoin(ps: seq<seq<Flowable>>)
    requires |ps| > 1
    requires PageBreak !in ps[|ps| - 1]
    ensures var s, f := Join(ps), Join(ps[..|ps| - 1]);
      PageBreak in s && LastIndexOf(s, PageBreak) == |f| &&
      s[..|f|] == f && s[|f| + 1..] == ps[|ps| - 1]
  {
    var f, last := Join(ps[..|ps| - 1]), ps[|ps| - 1];
    var s := Join(ps);
    assert s == f + [PageBreak] + last;
    var i := |f|;
    assert s[i] == PageBreak;
    forall j | i < j < |s| ensures s[j] != PageBreak {
      assert s[j] == last[j - i - 1];
    }
    LastIndexIsLast(s, PageBreak, i);
    assert s[..i] == f;
    assert s[i + 1..] == last;
  }

  /** The only position of `x` with no later `x` is the last index. */
  lemma LastIndexIsLast(s: seq<Flowable>, x: Flowable, i: nat)
    requires i < |s| && s[i] == x
    requires forall j :: i < j < |s| ==> s[j] != x
    ensures LastIndexOf(s, x) == i
  {
  }

  /** Splitting pages that hold no page break undoes `Join`. */
  lemma {:induction false} SplitJoin(ps: seq<seq<Flowable>>)
    requires |ps| >= 1
    requires forall k :: 0 <= k < |ps| ==> PageBreak !in ps[k]
    ensures SplitPages(Join(ps)) == ps
    decreases |ps|
  {
    if |ps| > 1 {
      var front := ps[..|ps| - 1];
      LastBreakOfJoin(ps);
      assert forall k :: 0 <= k < |front| ==> PageBreak !in front[k] by {
        forall k | 0 <= k < |front| ensures PageBreak !in front[k] {
          assert front[k] == ps[k];
        }
      }
      SplitJoin(front);
      assert front + [ps[|ps| - 1]] == ps;
    }
  }

  /** Pages without page breaks are joined by exactly one fewer page break. */
  lemma {:induction false} JoinBreakCount(ps: seq<seq<Flowable>>)
    requires |ps| >= 1
    requires forall k :: 0 <= k < |ps| ==> PageBreak !in ps[k]
    ensures BreakCount(Join(ps)) == |ps| - 1
    decreases |ps|
  {
    if |ps| == 1 {
      PickNone(ps[0], BreakOf);
    } else {
      var front, last := ps[..|ps| - 1], ps[|ps| - 1];
      PickAppend(Join(front) + [PageBreak], last, BreakOf);
      PickAppend(Join(front), [PageBreak], BreakOf);
      PickOne(PageBreak, BreakOf);
      PickNone(last, BreakOf);
      JoinBreakCount(front);
    }
  }

  /** A page's only background and only banner are its first two elements. */
  lemma HeaderPicks(p: seq<Flowable>)
    requires PageShape(p)
    ensures Colors(p) == [p[0].colorIdx]
    ensures BannerTexts(p) == [p[1].text]
  {
    var h, body := p[..2], p[2..];
    assert p == h + body;
    assert h == [p[0]] + [p[1]];
    PickNone(body, ColorOf);
    PickNone(body, BannerOf);
    PickAppend(h, body, ColorOf);
    PickAppend(h, body, BannerOf);
    PickAppend([p[0]], [p[1]], ColorOf);
    PickAppend([p[0]], [p[1]], BannerOf);
    PickOne(p[0], ColorOf);
    PickOne(p[1], ColorOf);
    PickOne(p[0], BannerOf);
    PickOne(p[1], BannerOf);
  }

  lemma AllShapedFront(ps: seq<seq<Flowable>>, front: seq<seq<Flowable>>)
    requires |ps| >= 1 && front == ps[..|ps| - 1]
    requires forall k :: 0 <= k < |ps| ==> PageShape(ps[k])
    ensures forall k :: 0 <= k < |front| ==> PageShape(front[k])
    ensures PageShape(ps[|ps| - 1])
  {
    forall k | 0 <= k < |front| ensures PageShape(front[k]) {
      assert front[k] == ps[k];
    }
  }

  /** A projection that ignores page breaks sees the last page appended to the others. */
  lemma PickJoinStep<T>(ps: seq<seq<Flowable>>, f: Flowable -> Option<T>)
    requires |ps| > 1
    requires f(PageBreak).None?
    ensures Pick(Join(ps), f) == Pick(Join(ps[..|ps| - 1]), f) + Pick(ps[|ps| - 1], f)
  {
    var front, last := ps[..|ps| - 1], ps[|ps| - 1];
    PickAppend(Join(front) + [PageBreak], last, f);
    PickAppend(Join(front), [PageBreak], f);
    PickOne(PageBreak, f);
  }

  /** Joining well-shaped pages keeps one colour per page, in page order. */
  lemma {:induction false} JoinColors(ps: seq<seq<Flowable>>)
    requires forall k :: 0 <= k < |ps| ==> PageShape(ps[k])
    ensures |Colors(Join(ps))| == |ps|
    ensures forall k :: 0 <= k < |ps| ==> PageShape(ps[k]) && Colors(Join(ps))[k] == ps[k][0].colorIdx
    decreases |ps|
  {
    if |ps| == 1 {
      assert PageShape(ps[0]);
      HeaderPicks(ps[0]);
    } else if |ps| > 1 {
      var front, last := ps[..|ps| - 1], ps[|ps| - 1];
      AllShapedFront(ps, front);
      JoinColors(front);
      HeaderPicks(last);
      PickJoinStep(ps, ColorOf);
      var c := Colors(Join(ps));
      assert c == Colors(Join(front)) + [last[0].colorIdx];
      forall k | 0 <= k < |ps| ensures PageShape(ps[k]) && c[k] == ps[k][0].colorIdx {
        if k < |front| {
          assert front[k] == ps[k];
          assert PageShape(front[k]);
        }
      }
    }
  }

  /** Joining well-shaped pages keeps one banner per page, in page order. */
  lemma {:induction false} JoinBanners(ps: seq<seq<Flowable>>)
    requires forall k :: 0 <= k < |ps| ==> PageShape(ps[k])
    ensures |BannerTexts(Join(ps))| == |ps|
    ensures forall k :: 0 <= k < |ps| ==> PageShape(ps[k]) && BannerTexts(Join(ps))[k] == ps[k][1].text
    decreases |ps|
  {
    if |ps| == 1 {
      assert PageShape(ps[0]);
      HeaderPicks(ps[0]);
    } else if |ps| > 1 {
      var front, last := ps[..|ps| - 1], ps[|ps| - 1];
      AllShapedFront(ps, front);
      JoinBanners(front);
      HeaderPicks(last);
      PickJoinStep(ps, BannerOf);
      var b := BannerTexts(Join(ps));
      assert b == BannerTexts(Join(front)) + [last[1].text];
      forall k | 0 <= k < |ps| ensures PageShape(ps[k]) && b[k] == ps[k][1].text {
        if k < |front| {
          assert front[k] == ps[k];
          assert PageShape(front[k]);
        }
      }
    }
  }

  /** Every background in `s` is directly followed by a banner. */
  predicate BannerAfterEachBackground(s: seq<Flowable>) {
    forall i :: 0 <= i < |s| && s[i].Background? ==> i + 1 < |s| && s[i + 1].Banner?
  }

  lemma ShapedPageBannerAfterBackground(p: seq<Flowable>)
    requires PageShape(p)
    ensures BannerAfterEachBackground(p)
  {
    forall j | 2 <= j < |p| ensures !p[j].Background? {
      assert p[j] == p[2..][j - 2];
    }
  }

  /** In a join of well-shaped pages every background is directly followed by a banner. */
  lemma {:induction false} JoinBackgroundThenBanner(ps: seq<seq<Flowable>>)
    requires forall k :: 0 <= k < |ps| ==> PageShape(ps[k])
    ensures BannerAfterEachBackground(Join(ps))
    decreases |ps|
  {
    if |ps| == 1 {
      assert PageShape(ps[0]);
      ShapedPageBannerAfterBackground(ps[0]);
    } else if |ps| > 1 {
      var front, last := ps[..|ps| - 1], ps[|ps| - 1];
      AllShapedFront(ps, front);
      JoinBackgroundThenBanner(front);
      ShapedPageBannerAfterBackground(last);
      var f := Join(front);
      var s := Join(ps);
      assert s == f + [PageBreak] + last;
      forall i | 0 <= i < |s| && s[i].Background? ensures i + 1 < |s| && s[i + 1].Banner? {
        if i < |f| {
          assert s[i] == f[i];
          assert i + 1 < |f|;
          assert s[i + 1] == f[i + 1];
        } else if i > |f| {
          var j := i - |f| - 1;
          assert s[i] == last[j];
          assert s[i + 1] == last[j + 1];
        }
      }
    }
  }

  /** The length of pages laid end to end with a break between consecutive ones. */
  function JoinedLength(ps: seq<seq<Flowable>>): nat {
    if |ps| == 0 then 0
    else if |ps| == 1 then |ps[0]|
    else JoinedLength(ps[..|ps| - 1]) + 1 + |ps[|ps| - 1]|
  }

  /** The results of `f` on each page, concatenated in page order. */
  function PickEach<T>(ps: seq<seq<Flowable>>, f: Flowable -> Option<T>): seq<T> {
    if ps == [] then [] else PickEach(ps[..|ps| - 1], f) + Pick(ps[|ps| - 1], f)
  }

  /** A projection that ignores page breaks sees a join as its pages one after another. */
  lemma {:induction false} PickJoin<T>(ps: seq<seq<Flowable>>, f: Flowable -> Option<T>)
    requires f(PageBreak).None?
    ensures Pick(Join(ps), f) == PickEach(ps, f)
    decreases |ps|
  {
    if |ps| == 1 {
      assert ps[..0] == [];
    } else if |ps| > 1 {
      var front, last := ps[..|ps| - 1], ps[|ps| - 1];
      PickJoin(front, f);
      PickJoinStep(ps, f);
    }
  }

  lemma PickEachEleven<T>(ps: seq<seq<Flowable>>, f: Flowable -> Option<T>)
    requires |ps| == 11
    ensures PickEach(ps, f) ==
      [] + Pick(ps[0], f) + Pick(ps[1], f) + Pick(ps[2], f) + Pick(ps[3], f) + Pick(ps[4], f)
      + Pick(ps[5], f) + Pick(ps[6], f) + Pick(ps[7], f) + Pick(ps[8], f) + Pick(ps[9], f)
      + Pick(ps[10], f)
  {
    assert PickEach(ps[..1], f) == [] + Pick(ps[0], f) by { assert ps[..1][..0] == []; }
    assert PickEach(ps[..2], f) == PickEach(ps[..1], f) + Pick(ps[1], f) by { assert ps[..2][..1] == ps[..1]; }
    assert PickEach(ps[..3], f) == PickEach(ps[..2], f) + Pick(ps[2], f) by { assert ps[..3][..2] == ps[..2]; }
    assert PickEach(ps[..4], f) == PickEach(ps[..3], f) + Pick(ps[3], f) by { assert ps[..4][..3] == ps[..3]; }
    assert PickEach(ps[..5], f) == PickEach(ps[..4], f) + Pick(ps[4], f) by { assert ps[..5][..4] == ps[..4]; }
    assert PickEach(ps[..6], f) == PickEach(ps[..5], f) + Pick(ps[5], f) by { assert ps[..6][..5] == ps[..5]; }
    assert PickEach(ps[..7], f) == PickEach(ps[..6], f) + Pick(ps[6], f) by { assert ps[..7][..6] == ps[..6]; }
    assert PickEach(ps[..8], f) == PickEach(ps[..7], f) + Pick(ps[7], f) by { assert ps[..8][..7] == ps[..7]; }
    assert PickEach(ps[..9], f) == PickEach(ps[..8], f) + Pick(ps[8], f) by { assert ps[..9][..8] == ps[..8]; }
    assert PickEach(ps[..10], f) == PickEach(ps[..9], f) + Pick(ps[9], f) by { assert ps[..10][..9] == ps[..9]; }
    assert PickEach(ps, f) == PickEach(ps[..10], f) + Pick(ps[10], f);
  }

  // ---------------------------------------------------------------------
  // The story of a deck.

  /** The story splits at its page breaks into exactly the eleven pages. */
  lemma StorySplitsIntoPages(d: PitchDeck)
    ensures SplitPages(PitchDeckStory(d)) == Pages(d)
    ensures |SplitPages(PitchDeckStory(d))| == 11
  {
    PagesOK(d);
    var p := Pages(d);
    forall k | 0 <= k < 11 ensures PageBreak !in p[k] {
      ShapedPageHasNoBreak(p[k]);
    }
    SplitJoin(p);
  }

  /** Ten page breaks: one after each of slides 1 to 10, none after the last page. */
  lemma StoryPageBreaks(d: PitchDeck)
    ensures BreakCount(PitchDeckStory(d)) == 10
    ensures PitchDeckStory(d)[|PitchDeckStory(d)| - 1] != PageBreak
  {
    PagesOK(d);
    var p := Pages(d);
    forall k | 0 <= k < 11 ensures PageBreak !in p[k] {
      ShapedPageHasNoBreak(p[k]);
    }
    JoinBreakCount(p);
    StoryEnding(d);
  }

  /** Slide 1 shows its title in the title style, the other narrative slides in the subtitle style. */
  function NarrativeTitleStyle(k: nat): Style {
    if k == 0 then TitleStyle else SubtitleStyle
  }

  /** Page `p` is page `k` opening with the title, separator and content of `slide`. */
  predicate NarrativeOpening(p: seq<Flowable>, k: nat, slide: Slide)
    requires k < |BannerTitles|
  {
    |p| >= 5 &&
    p[0] == Background(k % 4) && p[1] == Banner(BannerTitles[k]) &&
    p[2] == Para(slide.titulo, NarrativeTitleStyle(k)) &&
    p[3] == SeparatorLine() && p[4] == Para(slide.conteudo, NormalStyle)
  }

  lemma NarrativePageOpening(idx: nat, slide: Slide)
    requires idx < |BannerTitles|
    ensures NarrativeOpening(NarrativePage(idx, BannerTitles[idx], slide, NarrativeTitleStyle(idx)), idx, slide)
  {
  }

  /**
   * Each narrative page of the story opens with its background and banner,
   * then the slide's title (title style on slide 1, subtitle style elsewhere),
   * a separator and the content.
   */
  lemma StoryNarrativeSlides(d: PitchDeck)
    ensures var ps := SplitPages(PitchDeckStory(d));
      |ps| == 11 &&
      NarrativeOpening(ps[0], 0, d.slideTitulo) && NarrativeOpening(ps[1], 1, d.slideProblema) &&
      NarrativeOpening(ps[2], 2, d.slideSolucao) && NarrativeOpening(ps[5], 5, d.slideDiferencacao) &&
      NarrativeOpening(ps[7], 7, d.slideEquipe) && NarrativeOpening(ps[8], 8, d.slideFinanceiro) &&
      NarrativeOpening(ps[9], 9, d.slideCallAction)
  {
    StorySplitsIntoPages(d);
    NarrativePageOpening(0, d.slideTitulo);
    NarrativePageOpening(1, d.slideProblema);
    NarrativePageOpening(2, d.slideSolucao);
    NarrativePageOpening(5, d.slideDiferencacao);
    NarrativePageOpening(7, d.slideEquipe);
    NarrativePageOpening(8, d.slideFinanceiro);
    NarrativePageOpening(9, d.slideCallAction);
  }

  /** Eleven backgrounds; the one of page k has palette index k mod 4. */
  lemma StoryBackgrounds(d: PitchDeck)
    ensures Colors(PitchDeckStory(d)) == seq(11, k => k % 4)
  {
    PagesOK(d);
    ShapedPages(d);
    JoinColors(Pages(d));
  }

  /** The banners, in order: slides 1 to 10, then the information page. */
  lemma StoryBanners(d: PitchDeck)
    ensures BannerTexts(PitchDeckStory(d)) == BannerTitles
  {
    PagesOK(d);
    ShapedPages(d);
    JoinBanners(Pages(d));
  }

  /** Every background of the story is immediately followed by a banner. */
  lemma StoryBackgroundThenBanner(d: PitchDeck)
    ensures BannerAfterEachBackground(PitchDeckStory(d))
  {
    ShapedPages(d);
    JoinBackgroundThenBanner(Pages(d));
  }

  /**
   * Page k of the story opens with background k mod 4, immediately followed by
   * the k-th banner, and shows only body elements after them.
   */
  lemma StoryPageHeaders(d: PitchDeck)
    ensures |SplitPages(PitchDeckStory(d))| == 11
    ensures forall k :: 0 <= k < 11 ==> PageOK(SplitPages(PitchDeckStory(d))[k], k)
  {
    StorySplitsIntoPages(d);
    PagesOK(d);
  }

  /** A join ends with its last page. */
  lemma JoinEndsWithLast(ps: seq<seq<Flowable>>)
    requires |ps| >= 1
    ensures var s, last := Join(ps), ps[|ps| - 1];
      |s| >= |last| && s[|s| - |last|..] == last
  {
  }

  /** The story ends with a spacer and then the closing mark. */
  lemma StoryEnding(d: PitchDeck)
    ensures var s := PitchDeckStory(d);
      |s| >= 2 && s[|s| - 2] == Spacer(60) && s[|s| - 1] == ClosingMark
  {
    var p := Pages(d);
    InfoPageFacts(d);
    assert |p| == 11 && p[10] == InfoPage(10, d);
    JoinEndsWithLast(p);
    var s, last := Join(p), p[10];
    assert s[|s| - 2] == s[|s| - |last|..][|last| - 2];
    assert s[|s| - 1] == s[|s| - |last|..][|last| - 1];
  }

  /** A list field adds a heading and one bullet per item, or nothing at all when empty. */
  lemma OptionalListContribution(heading: string, items: seq<string>)
    ensures OptionalList(heading, items) == [] <==> items == []
    ensures |OptionalList(heading, items)| == if items == [] then 0 else |items| + 1
    ensures items != [] ==>
      OptionalList(heading, items)[0] == Para(heading, SubtitleStyle) &&
      forall i :: 0 <= i < |items| ==>
        OptionalList(heading, items)[i + 1] == Para("• " + items[i], BulletStyle)
  {
  }

  lemma {:induction false} JoinLength(ps: seq<seq<Flowable>>)
    ensures |Join(ps)| == JoinedLength(ps)
    decreases |ps|
  {
    if |ps| > 1 {
      JoinLength(ps[..|ps| - 1]);
    }
  }

  lemma JoinedLengthEleven(ps: seq<seq<Flowable>>)
    requires |ps| == 11
    ensures JoinedLength(ps) ==
      |ps[0]| + |ps[1]| + |ps[2]| + |ps[3]| + |ps[4]| + |ps[5]|
      + |ps[6]| + |ps[7]| + |ps[8]| + |ps[9]| + |ps[10]| + 10
  {
    assert JoinedLength(ps[..1]) == |ps[0]|;
    assert JoinedLength(ps[..2]) == JoinedLength(ps[..1]) + 1 + |ps[1]| by { assert ps[..2][..1] == ps[..1]; }
    assert JoinedLength(ps[..3]) == JoinedLength(ps[..2]) + 1 + |ps[2]| by { assert ps[..3][..2] == ps[..2]; }
    assert JoinedLength(ps[..4]) == JoinedLength(ps[..3]) + 1 + |ps[3]| by { assert ps[..4][..3] == ps[..3]; }
    assert JoinedLength(ps[..5]) == JoinedLength(ps[..4]) + 1 + |ps[4]| by { assert ps[..5][..4] == ps[..4]; }
    assert JoinedLength(ps[..6]) == JoinedLength(ps[..5]) + 1 + |ps[5]| by { assert ps[..6][..5] == ps[..5]; }
    assert JoinedLength(ps[..7]) == JoinedLength(ps[..6]) + 1 + |ps[6]| by { assert ps[..7][..6] == ps[..6]; }
    assert JoinedLength(ps[..8]) == JoinedLength(ps[..7]) + 1 + |ps[7]| by { assert ps[..8][..7] == ps[..7]; }
    assert JoinedLength(ps[..9]) == JoinedLength(ps[..8]) + 1 + |ps[8]| by { assert ps[..9][..8] == ps[..8]; }
    assert JoinedLength(ps[..10]) == JoinedLength(ps[..9]) + 1 + |ps[9]| by { assert ps[..10][..9] == ps[..9]; }
    assert JoinedLength(ps) == JoinedLength(ps[..10]) + 1 + |ps[10]|;
  }

  /** Sixty fixed elements, plus what each non-empty list field adds. */
  lemma StoryLength(d: PitchDeck)
    ensures var m, b, r := d.slideMercado, d.slideModeloNegocio, d.slideRoadmap;
      |PitchDeckStory(d)| ==
        60
        + ListCost(d.slideTitulo.pontosChave) + ListCost(d.slideProblema.pontosChave)
        + ListCost(d.slideSolucao.pontosChave) + ListCost(d.slideDiferencacao.pontosChave)
        + ListCost(d.slideEquipe.pontosChave) + ListCost(d.slideFinanceiro.pontosChave)
        + ListCost(d.slideCallAction.pontosChave)
        + ListCost(m.segmentosAlvo) + ListCost(m.tendencias) + ListCost(m.oportunidades)
        + ListCost(b.estrategiaMonetizacao) + ListCost(b.fontesReceita) + ListCost(b.custosEstimados)
        + ListCost(r.fases) + ListCost(r.marcosPrincipais) + ListCost(r.riscos)
        + ListCost(d.dicasApresentacao)
  {
    var p := Pages(d);
    JoinLength(p);
    JoinedLengthEleven(p);
    NarrativePageFacts(0, d.slideTitulo, TitleStyle);
    NarrativePageFacts(1, d.slideProblema, SubtitleStyle);
    NarrativePageFacts(2, d.slideSolucao, SubtitleStyle);
    MarketPageFacts(d.slideMercado);
    BusinessPageFacts(d.slideModeloNegocio);
    NarrativePageFacts(5, d.slideDiferencacao, SubtitleStyle);
    RoadmapPageFacts(d.slideRoadmap);
    NarrativePageFacts(7, d.slideEquipe, SubtitleStyle);
    NarrativePageFacts(8, d.slideFinanceiro, SubtitleStyle);
    NarrativePageFacts(9, d.slideCallAction, SubtitleStyle);
    InfoPageFacts(d);
  }

  /** The number a string of decimal digits denotes. */
  function DigitsValue(s: string): nat
    requires forall i :: 0 <= i < |s| ==> '0' <= s[i] <= '9'
  {
    if s == [] then 0 else DigitsValue(s[..|s| - 1]) * 10 + (s[|s| - 1] - '0') as nat
  }

  /** The phase numbers are the decimal numerals of their values. */
  lemma {:induction false} NatToStringValue(n: nat)
    ensures DigitsValue(NatToString(n)) == n
  {
    var digit := ['0' + (n % 10) as char];
    if n < 10 {
      assert digit[..0] == [];
    } else {
      var s := NatToString(n / 10);
      NatToStringValue(n / 10);
      assert (s + digit)[..|s + digit| - 1] == s;
    }
  }

  /** Distinct phase numbers are written differently. */
  lemma NatToStringInjective(m: nat, n: nat)
    requires m != n
    ensures NatToString(m) != NatToString(n)
  {
    NatToStringValue(m);
    NatToStringValue(n);
  }

  /** The phase block: numbered phases only when there are phases. */
  lemma PhaseBlockLayout(fases: seq<string>)
    ensures PhaseBlock(fases) == [] <==> fases == []
    ensures fases != [] ==>
      PhaseBlock(fases)[0] == Para("Fases de Desenvolvimento:", SubtitleStyle) &&
      forall i :: 0 <= i < |fases| ==>
        PhaseBlock(fases)[i + 1] == Para("Fase " + NatToString(i + 1) + ": " + fases[i], BulletStyle)
  {
  }

  /** The roadmap page always shows its schedule line, directly after the phase block. */
  lemma RoadmapShowsSchedule(idx: nat, r: RoadmapDesenvolvimento)
    ensures var p, c := RoadmapPage(idx, r), Para("Cronograma: " + r.cronograma, SubtitleStyle);
      |p| > 2 + |PhaseBlock(r.fases)| && p[2 + |PhaseBlock(r.fases)|] == c && c in p
  {
    var c := Para("Cronograma: " + r.cronograma, SubtitleStyle);
    var q := PageHeader(idx, BannerTitles[6]) + PhaseBlock(r.fases) + [c];
    var p := RoadmapPage(idx, r);
    assert p == q + OptionalList("Marcos Principais:", r.marcosPrincipais)
                  + OptionalList("Riscos Identificados:", r.riscos);
    assert q[|q| - 1] == c;
    assert p[|q| - 1] == q[|q| - 1];
  }

  lemma TablesEleven(ps: seq<seq<Flowable>>, d: PitchDeck)
    requires |ps| == 11
    requires forall k :: 0 <= k < 11 ==> Tables(ps[k]) == PageTablesOf(d, k)
    ensures Tables(Join(ps)) == [MarketRows(d.slideMercado), ProjectionRows(d.slideModeloNegocio), InfoRows(d)]
  {
    PickJoin(ps, RowsOf);
    PickEachEleven(ps, RowsOf);
    assert Tables(ps[0]) == [] && Tables(ps[1]) == [] && Tables(ps[2]) == [];
    assert Tables(ps[5]) == [] && Tables(ps[6]) == [] && Tables(ps[7]) == [];
    assert Tables(ps[8]) == [] && Tables(ps[9]) == [];
    assert Tables(ps[3]) == PageTablesOf(d, 3) && Tables(ps[4]) == PageTablesOf(d, 4);
    assert Tables(ps[10]) == PageTablesOf(d, 10);
  }

  /**
   * The story holds exactly three tables, in this order: the market data, the
   * revenue projection and the presentation information, two rows each.
   */
  lemma StoryTables(d: PitchDeck)
    ensures Tables(PitchDeckStory(d)) ==
      [MarketRows(d.slideMercado), ProjectionRows(d.slideModeloNegocio), InfoRows(d)]
    ensures forall t :: t in Tables(PitchDeckStory(d)) ==> |t| == 2
  {
    PagesOK(d);
    TablesEleven(Pages(d), d);
  }

  // ---------------------------------------------------------------------
  // Fields that are never rendered.

  /** A deck with `visual_sugerido` and `recursos_necessarios` blanked out. */
  function RenderedPart(d: PitchDeck): PitchDeck {
    d.(slideTitulo := d.slideTitulo.(visualSugerido := ""),
       slideProblema := d.slideProblema.(visualSugerido := ""),
       slideSolucao := d.slideSolucao.(visualSugerido := ""),
       slideDiferencacao := d.slideDiferencacao.(visualSugerido := ""),
       slideEquipe := d.slideEquipe.(visualSugerido := ""),
       slideFinanceiro := d.slideFinanceiro.(visualSugerido := ""),
       slideCallAction := d.slideCallAction.(visualSugerido := ""),
       slideRoadmap := d.slideRoadmap.(recursosNecessarios := []))
  }

  /** Decks differing only in suggested visuals or needed resources have the same story. */
  lemma StoryIgnoresUnrenderedFields(d1: PitchDeck, d2: PitchDeck)
    requires RenderedPart(d1) == RenderedPart(d2)
    ensures PitchDeckStory(d1) == PitchDeckStory(d2)
  {
    assert Pages(d1) == Pages(RenderedPart(d1));
    assert Pages(d2) == Pages(RenderedPart(d2));
  }
}
