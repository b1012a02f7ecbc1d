/**
 * The pitch-deck PDF generator (utils/pdf_generator.py), modelled up to the
 * "story": the ordered list of layout elements handed to the report-layout
 * library, which then paginates and draws it. Styles are tags, colours are
 * indices into the four-colour slide palette.
 */
module PdfGenerator {
  import opened DataModels

  /** Page geometry: one 16:9 slide of 1920 by 1080 points. */
  const SlideWidth: nat := 1920
  const SlideHeight: nat := 1080

  /** The slide background colours, cycled slide by slide. */
  const Palette: seq<string> := ["whitesmoke", "#e3f2fd", "#f3e5f5", "#e8f5e9"]

  /** The paragraph styles the generator sets up. */
  datatype Style =
    | TitleStyle
    | SlideTitleStyle
    | SubtitleStyle
    | NormalStyle
    | BulletStyle
    | HighlightStyle
    | SeparatorStyle

  /** One element of the story. */
  datatype Flowable =
    | Background(colorIdx: nat)        // a full-slide rectangle in Palette[colorIdx]
    | Banner(text: string)             // the bold slide title, in SlideTitleStyle
    | Para(text: string, style: Style)
    | Separator(rule: string)          // a paragraph in SeparatorStyle
    | Table(rows: seq<(string, string)>)
    | Spacer(height: nat)
    | PageBreak

  /** The banner of each of the eleven pages, in order. */
  const BannerTitles: seq<string> := [
    "SLIDE 1: TÍTULO E APRESENTAÇÃO",
    "SLIDE 2: PROBLEMA/OPORTUNIDADE",
    "SLIDE 3: SOLUÇÃO/CONCEITO DO JOGO",
    "SLIDE 4: ANÁLISE DE MERCADO",
    "SLIDE 5: MODELO DE NEGÓCIO",
    "SLIDE 6: DIFERENCIAÇÃO/COMPETIÇÃO",
    "SLIDE 7: ROADMAP DE DESENVOLVIMENTO",
    "SLIDE 8: EQUIPE/RECURSOS",
    "SLIDE 9: PROJEÇÕES FINANCEIRAS",
    "SLIDE 10: CALL TO ACTION",
    "INFORMAÇÕES ADICIONAIS"]

  /** The closing mark at the end of the last page. */
  const ClosingMark: Flowable :=
    Para("<font color='#bdbdbd'>--- Gerado pelo Game Concept Forge ---</font>", HighlightStyle)

  // ---------------------------------------------------------------------
  // The helpers.

  /** Python's `c * n` for a one-character string. */
  function Repeat(c: char, n: nat): (r: string)
    ensures |r| == n
    ensures forall i :: 0 <= i < n ==> r[i] == c
  {
    if n == 0 then [] else [c] + Repeat(c, n - 1)
  }

  /** `_separator`: a paragraph of forty horizontal bars. */
  function SeparatorLine(): (f: Flowable)
    ensures f.Separator? && |f.rule| == 40
    ensures forall i :: 0 <= i < 40 ==> f.rule[i] == '―'
  {
    Separator(Repeat('―', 40))
  }

  /** `_slide_background(idx)`: the palette entry `idx` modulo the palette size. */
  function SlideBackground(idx: nat): (f: Flowable)
    ensures f.Background? && f.colorIdx < |Palette|
    ensures f.colorIdx == idx % 4
  {
    Background(idx % |Palette|)
  }

  /** `_create_bullet_list`: one bullet paragraph per item, in order. */
  function BulletList(items: seq<string>): (r: seq<Flowable>)
    ensures |r| == |items|
    ensures forall i :: 0 <= i < |items| ==> r[i] == Para("• " + items[i], BulletStyle)
  {
    if items == [] then [] else [Para("• " + items[0], BulletStyle)] + BulletList(items[1..])
  }

  /** A list field: a heading and its bullets when the list is non-empty, nothing otherwise. */
  function OptionalList(heading: string, items: seq<string>): seq<Flowable> {
    if |items| > 0 then [Para(heading, SubtitleStyle)] + BulletList(items) else []
  }

  /** Python's `str(n)` for a natural number. */
  function NatToString(n: nat): (r: string)
    ensures |r| > 0
    ensures forall i :: 0 <= i < |r| ==> '0' <= r[i] <= '9'
    ensures |r| > 1 ==> r[0] != '0'
    ensures n > 0 ==> r[0] != '0'
  {
    var digit := ['0' + (n % 10) as char];
    if n < 10 then digit else NatToString(n / 10) + digit
  }

  /** The roadmap line of phase number `number`. */
  function PhaseLine(number: nat, fase: string): Flowable {
    Para("Fase " + NatToString(number) + ": " + fase, BulletStyle)
  }

  /** The phases numbered from 1, in input order. */
  function PhaseLines(fases: seq<string>): (r: seq<Flowable>)
    ensures |r| == |fases|
    ensures forall i :: 0 <= i < |fases| ==> r[i] == PhaseLine(i + 1, fases[i])
  {
    if fases == [] then []
    else PhaseLines(fases[..|fases| - 1]) + [PhaseLine(|fases|, fases[|fases| - 1])]
  }

  function MarketRows(m: AnaliseMercado): seq<(string, string)> {
    [("Tamanho do Mercado", m.tamanhoMercado), ("Crescimento", m.crescimentoMercado)]
  }

  function ProjectionRows(b: ModeloNegocio): seq<(string, string)> {
    [("Projeção de Receita", b.projecaoReceita), ("Break-even", b.breakEven)]
  }

  function InfoRows(d: PitchDeck): seq<(string, string)> {
    [("Público-alvo do Pitch", d.publicoAlvoPitch),
     ("Duração da Apresentação", d.duracaoApresentacao)]
  }

  // ---------------------------------------------------------------------
  // The pages of the story, each without its closing page break.

  /** The first two elements of every page. */
  function PageHeader(idx: nat, banner: string): seq<Flowable> {
    [SlideBackground(idx), Banner(banner)]
  }

  /** Slides 1-3, 6 and 8-10: title, separator, content, key points. */
  function NarrativePage(idx: nat, banner: string, slide: Slide, titleStyle: Style): seq<Flowable> {
    PageHeader(idx, banner)
    + [Para(slide.titulo, titleStyle), SeparatorLine(), Para(slide.conteudo, NormalStyle)]
    + OptionalList("Pontos-chave:", slide.pontosChave)
  }

  /** Slide 4. */
  function MarketPage(idx: nat, m: AnaliseMercado): seq<Flowable> {
    PageHeader(idx, BannerTitles[3])
    + [Table(MarketRows(m)), Spacer(30)]
    + OptionalList("Segmentos Alvo:", m.segmentosAlvo)
    + OptionalList("Tendências:", m.tendencias)
    + OptionalList("Oportunidades:", m.oportunidades)
  }

  /** Slide 5. */
  function BusinessPage(idx: nat, b: ModeloNegocio): seq<Flowable> {
    PageHeader(idx, BannerTitles[4])
    + OptionalList("Estratégia de Monetização:", b.estrategiaMonetizacao)
    + OptionalList("Fontes de Receita:", b.fontesReceita)
    + OptionalList("Custos Estimados:", b.custosEstimados)
    + [Table(ProjectionRows(b))]
  }

  /** The phase block of slide 7: a heading and numbered phases, or nothing. */
  function PhaseBlock(fases: seq<string>): seq<Flowable> {
    if |fases| > 0 then [Para("Fases de Desenvolvimento:", SubtitleStyle)] + PhaseLines(fases) else []
  }

  /** Slide 7. */
  function RoadmapPage(idx: nat, r: RoadmapDesenvolvimento): seq<Flowable> {
    PageHeader(idx, BannerTitles[6])
    + PhaseBlock(r.fases)
    + [Para("Cronograma: " + r.cronograma, SubtitleStyle)]
    + OptionalList("Marcos Principais:", r.marcosPrincipais)
    + OptionalList("Riscos Identificados:", r.riscos)
  }

  /** The closing information page. */
  function InfoPage(idx: nat, d: PitchDeck): seq<Flowable> {
    PageHeader(idx, BannerTitles[10])
    + [Table(InfoRows(d))]
    + OptionalList("Dicas de Apresentação:", d.dicasApresentacao)
    + [Spacer(60), ClosingMark]
  }

  /** The eleven pages of a deck, in order; page k has background index k. */
  function Pages(d: PitchDeck): seq<seq<Flowable>> {
    [NarrativePage(0, BannerTitles[0], d.slideTitulo, TitleStyle),
     NarrativePage(1, BannerTitles[1], d.slideProblema, SubtitleStyle),
     NarrativePage(2, BannerTitles[2], d.slideSolucao, SubtitleStyle),
     MarketPage(3, d.slideMercado),
     BusinessPage(4, d.slideModeloNegocio),
     NarrativePage(5, BannerTitles[5], d.slideDiferencacao, SubtitleStyle),
     RoadmapPage(6, d.slideRoadmap),
     NarrativePage(7, BannerTitles[7], d.slideEquipe, SubtitleStyle),
     NarrativePage(8, BannerTitles[8], d.slideFinanceiro, SubtitleStyle),
     NarrativePage(9, BannerTitles[9], d.slideCallAction, SubtitleStyle),
     InfoPage(10, d)]
  }

  /** Pages laid end to end, a page break between consecutive pages. */
  function Join(pages: seq<seq<Flowable>>): seq<Flowable> {
    if |pages| == 0 then []
    else if |pages| == 1 then pages[0]
    else Join(pages[..|pages| - 1]) + [PageBreak] + pages[|pages| - 1]
  }

  /** The story `generate_pitch_deck_pdf` hands to the layout library. */
  function PitchDeckStory(d: PitchDeck): seq<Flowable> {
    Join(Pages(d))
  }

  // ---------------------------------------------------------------------
  // The generator: the story grown element by element.

  /** Appending to a story in two steps is appending the two pieces at once. */
  lemma AppendAssoc(story: seq<Flowable>, page: seq<Flowable>, piece: seq<Flowable>)
    ensures story + page + piece == story + (page + piece)
  {
  }

  /** Slides 1-3, 6 and 8-10 (the block the source repeats seven times). */
  method AppendNarrativeSlide(story: seq<Flowable>, slideIdx: nat, banner: string, slide: Slide, titleStyle: Style)
    returns (story': seq<Flowable>, slideIdx': nat)
    ensures story' == story + NarrativePage(slideIdx, banner, slide, titleStyle)
    ensures slideIdx' == slideIdx + 1
  {
    story' := story + [SlideBackground(slideIdx)];
    slideIdx' := slideIdx + 1;
    story' := story' + [Banner(banner)];
    ghost var page := PageHeader(slideIdx, banner);
    assert story' == story + page;
    story' := story' + [Para(slide.titulo, titleStyle)];
    story' := story' + [SeparatorLine()];
    story' := story' + [Para(slide.conteudo, NormalStyle)];
    ghost var fixed := [Para(slide.titulo, titleStyle), SeparatorLine(), Para(slide.conteudo, NormalStyle)];
    assert story' == story + page + fixed;
    AppendAssoc(story, page, fixed);
    page := page + fixed;
    story' := AppendList(story', "Pontos-chave:", slide.pontosChave);
    AppendAssoc(story, page, OptionalList("Pontos-chave:", slide.pontosChave));
  }

  /** `story.append(heading); story.extend(bullets)` when the list is non-empty. */
  method AppendList(story: seq<Flowable>, heading: string, items: seq<string>) returns (story': seq<Flowable>)
    ensures story' == story + OptionalList(heading, items)
  {
    story' := story;
    if |items| > 0 {
      story' := story' + [Para(heading, SubtitleStyle)];
      story' := story' + BulletList(items);
    }
  }

  method AppendMarketSlide(story: seq<Flowable>, slideIdx: nat, m: AnaliseMercado)
    returns (story': seq<Flowable>, slideIdx': nat)
    ensures story' == story + MarketPage(slideIdx, m)
    ensures slideIdx' == slideIdx + 1
  {
    story' := story + [SlideBackground(slideIdx)];
    slideIdx' := slideIdx + 1;
    story' := story' + [Banner(BannerTitles[3])];
    ghost var page := PageHeader(slideIdx, BannerTitles[3]);
    assert story' == story + page;
    story' := story' + [Table(MarketRows(m))];
    story' := story' + [Spacer(30)];
    assert story' == story + page + [Table(MarketRows(m)), Spacer(30)];
    AppendAssoc(story, page, [Table(MarketRows(m)), Spacer(30)]);
    page := page + [Table(MarketRows(m)), Spacer(30)];
    story' := AppendList(story', "Segmentos Alvo:", m.segmentosAlvo);
    AppendAssoc(story, page, OptionalList("Segmentos Alvo:", m.segmentosAlvo));
    page := page + OptionalList("Segmentos Alvo:", m.segmentosAlvo);
    story' := AppendList(story', "Tendências:", m.tendencias);
    AppendAssoc(story, page, OptionalList("Tendências:", m.tendencias));
    page := page + OptionalList("Tendências:", m.tendencias);
    story' := AppendList(story', "Oportunidades:", m.oportunidades);
    AppendAssoc(story, page, OptionalList("Oportunidades:", m.oportunidades));
  }

  method AppendBusinessSlide(story: seq<Flowable>, slideIdx: nat, b: ModeloNegocio)
    returns (story': seq<Flowable>, slideIdx': nat)
    ensures story' == story + BusinessPage(slideIdx, b)
    ensures slideIdx' == slideIdx + 1
  {
    story' := story + [SlideBackground(slideIdx)];
    slideIdx' := slideIdx + 1;
    story' := story' + [Banner(BannerTitles[4])];
    ghost var page := PageHeader(slideIdx, BannerTitles[4]);
    assert story' == story + page;
    story' := AppendList(story', "Estratégia de Monetização:", b.estrategiaMonetizacao);
    AppendAssoc(story, page, OptionalList("Estratégia de Monetização:", b.estrategiaMonetizacao));
    page := page + OptionalList("Estratégia de Monetização:", b.estrategiaMonetizacao);
    story' := AppendList(story', "Fontes de Receita:", b.fontesReceita);
    AppendAssoc(story, page, OptionalList("Fontes de Receita:", b.fontesReceita));
    page := page + OptionalList("Fontes de Receita:", b.fontesReceita);
    story' := AppendList(story', "Custos Estimados:", b.custosEstimados);
    AppendAssoc(story, page, OptionalList("Custos Estimados:", b.custosEstimados));
    page := page + OptionalList("Custos Estimados:", b.custosEstimados);
    story' := story' + [Table(ProjectionRows(b))];
    AppendAssoc(story, page, [Table(ProjectionRows(b))]);
  }

  /** `for i, fase in enumerate(fases, 1): story.append(...)`. */
  method AppendPhases(story: seq<Flowable>, fases: seq<string>) returns (story': seq<Flowable>)
    ensures story' == story + PhaseLines(fases)
  {
    story' := story;
    var i := 0;
    while i < |fases|
      invariant 0 <= i <= |fases|
      invariant story' == story + PhaseLines(fases[..i])
    {
      assert fases[..i + 1][..i] == fases[..i];
      story' := story' + [PhaseLine(i + 1, fases[i])];
      i := i + 1;
    }
    assert fases[..i] == fases;
  }

  /** The phase block: its heading and the numbered phases, when there are phases. */
  method AppendPhaseBlock(story: seq<Flowable>, fases: seq<string>) returns (story': seq<Flowable>)
    ensures story' == story + PhaseBlock(fases)
  {
    story' := story;
    if |fases| > 0 {
      story' := story' + [Para("Fases de Desenvolvimento:", SubtitleStyle)];
      story' := AppendPhases(story', fases);
    }
  }

  method AppendRoadmapSlide(story: seq<Flowable>, slideIdx: nat, r: RoadmapDesenvolvimento)
    returns (story': seq<Flowable>, slideIdx': nat)
    ensures story' == story + RoadmapPage(slideIdx, r)
    ensures slideIdx' == slideIdx + 1
  {
    story' := story + [SlideBackground(slideIdx)];
    slideIdx' := slideIdx + 1;
    story' := story' + [Banner(BannerTitles[6])];
    ghost var page := PageHeader(slideIdx, BannerTitles[6]);
    assert story' == story + page;
    story' := AppendPhaseBlock(story', r.fases);
    AppendAssoc(story, page, PhaseBlock(r.fases));
    page := page + PhaseBlock(r.fases);
    story' := story' + [Para("Cronograma: " + r.cronograma, SubtitleStyle)];
    AppendAssoc(story, page, [Para("Cronograma: " + r.cronograma, SubtitleStyle)]);
    page := page + [Para("Cronograma: " + r.cronograma, SubtitleStyle)];
    story' := AppendList(story', "Marcos Principais:", r.marcosPrincipais);
    AppendAssoc(story, page, OptionalList("Marcos Principais:", r.marcosPrincipais));
    page := page + OptionalList("Marcos Principais:", r.marcosPrincipais);
    story' := AppendList(story', "Riscos Identificados:", r.riscos);
    AppendAssoc(story, page, OptionalList("Riscos Identificados:", r.riscos));
  }

  method AppendInfoSlide(story: seq<Flowable>, slideIdx: nat, d: PitchDeck)
    returns (story': seq<Flowable>, slideIdx': nat)
    ensures story' == story + InfoPage(slideIdx, d)
    ensures slideIdx' == slideIdx + 1
  {
    story' := story + [SlideBackground(slideIdx)];
    slideIdx' := slideIdx + 1;
    story' := story' + [Banner(BannerTitles[10])];
    ghost var page := PageHeader(slideIdx, BannerTitles[10]);
    assert story' == story + page;
    story' := story' + [Table(InfoRows(d))];
    AppendAssoc(story, page, [Table(InfoRows(d))]);
    page := page + [Table(InfoRows(d))];
    story' := AppendList(story', "Dicas de Apresentação:", d.dicasApresentacao);
    AppendAssoc(story, page, OptionalList("Dicas de Apresentação:", d.dicasApresentacao));
    page := page + OptionalList("Dicas de Apresentação:", d.dicasApresentacao);
    story' := story' + [Spacer(60)];
    story' := story' + [ClosingMark];
    assert story' == story + page + [Spacer(60), ClosingMark];
    AppendAssoc(story, page, [Spacer(60), ClosingMark]);
  }

  /**
   * `generate_pitch_deck_pdf` up to `doc.build(story)`: the story of a deck.
   * The file name argument is accepted and not used, as in the source.
   */
  method GeneratePitchDeckPdf(deck: PitchDeck, filename: string) returns (story: seq<Flowable>)
    ensures story == PitchDeckStory(deck)
  {
    story := [];
    var slideIdx: nat := 0;
    story, slideIdx := AppendNarrativeSlide(story, slideIdx, BannerTitles[0], deck.slideTitulo, TitleStyle);
    story := story + [PageBreak];
    story, slideIdx := AppendNarrativeSlide(story, slideIdx, BannerTitles[1], deck.slideProblema, SubtitleStyle);
    story := story + [PageBreak];
    story, slideIdx := AppendNarrativeSlide(story, slideIdx, BannerTitles[2], deck.slideSolucao, SubtitleStyle);
    story := story + [PageBreak];
    story, slideIdx := AppendMarketSlide(story, slideIdx, deck.slideMercado);
    story := story + [PageBreak];
    story, slideIdx := AppendBusinessSlide(story, slideIdx, deck.slideModeloNegocio);
    story := story + [PageBreak];
    story, slideIdx := AppendNarrativeSlide(story, slideIdx, BannerTitles[5], deck.slideDiferencacao, SubtitleStyle);
    story := story + [PageBreak];
    story, slideIdx := AppendRoadmapSlide(story, slideIdx, deck.slideRoadmap);
    story := story + [PageBreak];
    story, slideIdx := AppendNarrativeSlide(story, slideIdx, BannerTitles[7], deck.slideEquipe, SubtitleStyle);
    story := story + [PageBreak];
    story, slideIdx := AppendNarrativeSlide(story, slideIdx, BannerTitles[8], deck.slideFinanceiro, SubtitleStyle);
    story := story + [PageBreak];
    story, slideIdx := AppendNarrativeSlide(story, slideIdx, BannerTitles[9], deck.slideCallAction, SubtitleStyle);
    story := story + [PageBreak];
    story, slideIdx := AppendInfoSlide(story, slideIdx, deck);
    assert slideIdx == 11;
    StoryUnfolds(deck);
  }

  /** The story written out page by page. */
  lemma StoryUnfolds(d: PitchDeck)
    ensures var p := Pages(d);
      PitchDeckStory(d) ==
        [] + p[0] + [PageBreak] + p[1] + [PageBreak] + p[2] + [PageBreak] + p[3] + [PageBreak]
        + p[4] + [PageBreak] + p[5] + [PageBreak] + p[6] + [PageBreak] + p[7] + [PageBreak]
        + p[8] + [PageBreak] + p[9] + [PageBreak] + p[10]
  {
    JoinEleven(Pages(d));
  }

  lemma JoinEleven(p: seq<seq<Flowable>>)
    requires |p| == 11
    ensures Join(p) ==
        [] + p[0] + [PageBreak] + p[1] + [PageBreak] + p[2] + [PageBreak] + p[3] + [PageBreak]
        + p[4] + [PageBreak] + p[5] + [PageBreak] + p[6] + [PageBreak] + p[7] + [PageBreak]
        + p[8] + [PageBreak] + p[9] + [PageBreak] + p[10]
  {
    assert [] + p[0] == p[0];
    assert Join(p[..1]) == p[0];
    assert Join(p[..2]) == Join(p[..2][..1]) + [PageBreak] + p[1] by { assert p[..2][..1] == p[..1]; }
    assert Join(p[..3]) == Join(p[..2]) + [PageBreak] + p[2] by { assert p[..3][..2] == p[..2]; }
    assert Join(p[..4]) == Join(p[..3]) + [PageBreak] + p[3] by { assert p[..4][..3] == p[..3]; }
    assert Join(p[..5]) == Join(p[..4]) + [PageBreak] + p[4] by { assert p[..5][..4] == p[..4]; }
    assert Join(p[..6]) == Join(p[..5]) + [PageBreak] + p[5] by { assert p[..6][..5] == p[..5]; }
    assert Join(p[..7]) == Join(p[..6]) + [PageBreak] + p[6] by { assert p[..7][..6] == p[..6]; }
    assert Join(p[..8]) == Join(p[..7]) + [PageBreak] + p[7] by { assert p[..8][..7] == p[..7]; }
    assert Join(p[..9]) == Join(p[..8]) + [PageBreak] + p[8] by { assert p[..9][..8] == p[..8]; }
    assert Join(p[..10]) == Join(p[..9]) + [PageBreak] + p[9] by { assert p[..10][..9] == p[..9]; }
    assert Join(p) == Join(p[..10]) + [PageBreak] + p[10];
  }
}
