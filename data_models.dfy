/**
 * The pitch-deck records (utils/data_models.py) and the JSON response schema
 * the pitch-deck page asks the language model to follow
 * (pages/05_pitch_deck_creator.py). A deck reaches the PDF generator as a
 * parsed JSON dict that is indexed directly. `DecodePitchDeck` reads such a
 * dict as a `PitchDeck` record: `None` unless the value has the full record
 * shape, every declared field present with its declared type.
 */
module DataModels {
  import opened Values

  /** A narrative slide. */
  datatype Slide = Slide(
    titulo: string,
    conteudo: string,
    pontosChave: seq<string>,
    visualSugerido: string)

  /** Slide 4: market analysis. */
  datatype AnaliseMercado = AnaliseMercado(
    tamanhoMercado: string,
    crescimentoMercado: string,
    segmentosAlvo: seq<string>,
    tendencias: seq<string>,
    oportunidades: seq<string>)

  /** Slide 5: business model. */
  datatype ModeloNegocio = ModeloNegocio(
    estrategiaMonetizacao: seq<string>,
    fontesReceita: seq<string>,
    custosEstimados: seq<string>,
    projecaoReceita: string,
    breakEven: string)

  /** Slide 7: development roadmap. */
  datatype RoadmapDesenvolvimento = RoadmapDesenvolvimento(
    fases: seq<string>,
    cronograma: string,
    marcosPrincipais: seq<string>,
    recursosNecessarios: seq<string>,
    riscos: seq<string>)

  /** The ten-slide deck and its three pieces of presentation metadata. */
  datatype PitchDeck = PitchDeck(
    slideTitulo: Slide,
    slideProblema: Slide,
    slideSolucao: Slide,
    slideMercado: AnaliseMercado,
    slideModeloNegocio: ModeloNegocio,
    slideDiferencacao: Slide,
    slideRoadmap: RoadmapDesenvolvimento,
    slideEquipe: Slide,
    slideFinanceiro: Slide,
    slideCallAction: Slide,
    publicoAlvoPitch: string,
    duracaoApresentacao: string,
    dicasApresentacao: seq<string>)

  // ---------------------------------------------------------------------
  // The key names of each record, in declaration order.

  const SlideKeys: seq<string> := ["titulo", "conteudo", "pontos_chave", "visual_sugerido"]
  const MercadoKeys: seq<string> :=
    ["tamanho_mercado", "crescimento_mercado", "segmentos_alvo", "tendencias", "oportunidades"]
  const ModeloKeys: seq<string> :=
    ["estrategia_monetizacao", "fontes_receita", "custos_estimados", "projecao_receita", "break_even"]
  const RoadmapKeys: seq<string> :=
    ["fases", "cronograma", "marcos_principais", "recursos_necessarios", "riscos"]
  const PitchDeckKeys: seq<string> := [
    "slide_titulo", "slide_problema", "slide_solucao", "slide_mercado",
    "slide_modelo_negocio", "slide_diferencacao", "slide_roadmap", "slide_equipe",
    "slide_financeiro", "slide_call_action",
    "publico_alvo_pitch", "duracao_apresentacao", "dicas_apresentacao"]

  // ---------------------------------------------------------------------
  // The response schema: an object lists its properties in order.

  datatype Schema =
    | SString
    | SArray(items: Schema)
    | SObject(properties: seq<(string, Schema)>)

  /** The property names an object schema declares, in order. */
  function PropertyNames(s: Schema): seq<string> {
    if s.SObject? then seq(|s.properties|, i requires 0 <= i < |s.properties| => s.properties[i].0) else []
  }

  const StringList: Schema := SArray(SString)

  function SlideSchema(): Schema {
    SObject([("titulo", SString), ("conteudo", SString),
             ("pontos_chave", StringList), ("visual_sugerido", SString)])
  }

  function MercadoSchema(): Schema {
    SObject([("tamanho_mercado", SString), ("crescimento_mercado", SString),
             ("segmentos_alvo", StringList), ("tendencias", StringList),
             ("oportunidades", StringList)])
  }

  function ModeloSchema(): Schema {
    SObject([("estrategia_monetizacao", StringList), ("fontes_receita", StringList),
             ("custos_estimados", StringList), ("projecao_receita", SString),
             ("break_even", SString)])
  }

  function RoadmapSchema(): Schema {
    SObject([("fases", StringList), ("cronograma", SString),
             ("marcos_principais", StringList), ("recursos_necessarios", StringList),
             ("riscos", StringList)])
  }

  /** The `response_schema` argument of `generate_pitch_deck`. */
  function PitchDeckSchema(): Schema {
    SObject([
      ("slide_titulo", SlideSchema()), ("slide_problema", SlideSchema()),
      ("slide_solucao", SlideSchema()), ("slide_mercado", MercadoSchema()),
      ("slide_modelo_negocio", ModeloSchema()), ("slide_diferencacao", SlideSchema()),
      ("slide_roadmap", RoadmapSchema()), ("slide_equipe", SlideSchema()),
      ("slide_financeiro", SlideSchema()), ("slide_call_action", SlideSchema()),
      ("publico_alvo_pitch", SString), ("duracao_apresentacao", SString),
      ("dicas_apresentacao", StringList)])
  }

  /**
   * A value has the full shape of a schema: the right kind at every level
   * and, for an object, every declared property present (extra keys allowed).
   */
  predicate HasShape(v: Value, s: Schema)
    decreases s
  {
    match s
    case SString => v.VStr?
    case SArray(item) =>
      v.VList? && forall i :: 0 <= i < |v.items| ==> HasShape(v.items[i], item)
    case SObject(props) =>
      v.VDict? &&
      forall i :: 0 <= i < |props| ==>
        props[i].0 in v.fields && HasShape(v.fields[props[i].0], props[i].1)
  }

  /** The schema declares exactly the keys of the record types, in their order. */
  lemma SchemaDeclaresRecordKeys()
    ensures PropertyNames(PitchDeckSchema()) == PitchDeckKeys && |PitchDeckKeys| == 13
    ensures PropertyNames(SlideSchema()) == SlideKeys
    ensures PropertyNames(MercadoSchema()) == MercadoKeys
    ensures PropertyNames(ModeloSchema()) == ModeloKeys
    ensures PropertyNames(RoadmapSchema()) == RoadmapKeys
  {
  }

  // ---------------------------------------------------------------------
  // Direct indexing of a parsed deck, and the deck as the dict it is stored as.

  function GetString(v: Value, key: string): Option<string> {
    if v.VDict? && key in v.fields && v.fields[key].VStr? then Some(v.fields[key].s) else None
  }

  function GetStrings(v: Value, key: string): Option<seq<string>> {
    if v.VDict? && key in v.fields && v.fields[key].VList? then DecodeStrings(v.fields[key].items)
    else None
  }

  function GetField(v: Value, key: string): Option<Value> {
    if v.VDict? && key in v.fields then Some(v.fields[key]) else None
  }

  function DecodeSlide(v: Value): Option<Slide> {
    var titulo :- GetString(v, "titulo");
    var conteudo :- GetString(v, "conteudo");
    var pontos :- GetStrings(v, "pontos_chave");
    var visual :- GetString(v, "visual_sugerido");
    Some(Slide(titulo, conteudo, pontos, visual))
  }

  function DecodeMercado(v: Value): Option<AnaliseMercado> {
    var tamanho :- GetString(v, "tamanho_mercado");
    var crescimento :- GetString(v, "crescimento_mercado");
    var segmentos :- GetStrings(v, "segmentos_alvo");
    var tendencias :- GetStrings(v, "tendencias");
    var oportunidades :- GetStrings(v, "oportunidades");
    Some(AnaliseMercado(tamanho, crescimento, segmentos, tendencias, oportunidades))
  }

  function DecodeModelo(v: Value): Option<ModeloNegocio> {
    var estrategia :- GetStrings(v, "estrategia_monetizacao");
    var fontes :- GetStrings(v, "fontes_receita");
    var custos :- GetStrings(v, "custos_estimados");
    var projecao :- GetString(v, "projecao_receita");
    var breakEven :- GetString(v, "break_even");
    Some(ModeloNegocio(estrategia, fontes, custos, projecao, breakEven))
  }

  function DecodeRoadmap(v: Value): Option<RoadmapDesenvolvimento> {
    var fases :- GetStrings(v, "fases");
    var cronograma :- GetString(v, "cronograma");
    var marcos :- GetStrings(v, "marcos_principais");
    var recursos :- GetStrings(v, "recursos_necessarios");
    var riscos :- GetStrings(v, "riscos");
    Some(RoadmapDesenvolvimento(fases, cronograma, marcos, recursos, riscos))
  }

  function GetSlide(v: Value, key: string): Option<Slide> {
    var f :- GetField(v, key);
    DecodeSlide(f)
  }

  function GetMercado(v: Value, key: string): Option<AnaliseMercado> {
    var f :- GetField(v, key);
    DecodeMercado(f)
  }

  function GetModelo(v: Value, key: string): Option<ModeloNegocio> {
    var f :- GetField(v, key);
    DecodeModelo(f)
  }

  function GetRoadmap(v: Value, key: string): Option<RoadmapDesenvolvimento> {
    var f :- GetField(v, key);
    DecodeRoadmap(f)
  }

  /** Reads a dict as a deck; `None` unless every declared field is present with its declared type. */
  function DecodePitchDeck(v: Value): Option<PitchDeck> {
    var titulo :- GetSlide(v, "slide_titulo");
    var problema :- GetSlide(v, "slide_problema");
    var solucao :- GetSlide(v, "slide_solucao");
    var mercado :- GetMercado(v, "slide_mercado");
    var modelo :- GetModelo(v, "slide_modelo_negocio");
    var diferencacao :- GetSlide(v, "slide_diferencacao");
    var roadmap :- GetRoadmap(v, "slide_roadmap");
    var equipe :- GetSlide(v, "slide_equipe");
    var financeiro :- GetSlide(v, "slide_financeiro");
    var callAction :- GetSlide(v, "slide_call_action");
    var publico :- GetString(v, "publico_alvo_pitch");
    var duracao :- GetString(v, "duracao_apresentacao");
    var dicas :- GetStrings(v, "dicas_apresentacao");
    Some(PitchDeck(titulo, problema, solucao, mercado, modelo, diferencacao, roadmap,
                   equipe, financeiro, callAction, publico, duracao, dicas))
  }

  function EncodeSlide(s: Slide): Value {
    VDict(map["titulo" := VStr(s.titulo), "conteudo" := VStr(s.conteudo),
              "pontos_chave" := StringsValue(s.pontosChave),
              "visual_sugerido" := VStr(s.visualSugerido)])
  }

  function EncodeMercado(m: AnaliseMercado): Value {
    VDict(map["tamanho_mercado" := VStr(m.tamanhoMercado),
              "crescimento_mercado" := VStr(m.crescimentoMercado),
              "segmentos_alvo" := StringsValue(m.segmentosAlvo),
              "tendencias" := StringsValue(m.tendencias),
              "oportunidades" := StringsValue(m.oportunidades)])
  }

  function EncodeModelo(m: ModeloNegocio): Value {
    VDict(map["estrategia_monetizacao" := StringsValue(m.estrategiaMonetizacao),
              "fontes_receita" := StringsValue(m.fontesReceita),
              "custos_estimados" := StringsValue(m.custosEstimados),
              "projecao_receita" := VStr(m.projecaoReceita),
              "break_even" := VStr(m.breakEven)])
  }

  function EncodeRoadmap(r: RoadmapDesenvolvimento): Value {
    VDict(map["fases" := StringsValue(r.fases), "cronograma" := VStr(r.cronograma),
              "marcos_principais" := StringsValue(r.marcosPrincipais),
              "recursos_necessarios" := StringsValue(r.recursosNecessarios),
              "riscos" := StringsValue(r.riscos)])
  }

  /** A deck as the JSON dict the response schema describes. */
  function EncodePitchDeck(d: PitchDeck): (v: Value)
    ensures v.VDict?
  {
    VDict(map[
      "slide_titulo" := EncodeSlide(d.slideTitulo),
      "slide_problema" := EncodeSlide(d.slideProblema),
      "slide_solucao" := EncodeSlide(d.slideSolucao),
      "slide_mercado" := EncodeMercado(d.slideMercado),
      "slide_modelo_negocio" := EncodeModelo(d.slideModeloNegocio),
      "slide_diferencacao" := EncodeSlide(d.slideDiferencacao),
      "slide_roadmap" := EncodeRoadmap(d.slideRoadmap),
      "slide_equipe" := EncodeSlide(d.slideEquipe),
      "slide_financeiro" := EncodeSlide(d.slideFinanceiro),
      "slide_call_action" := EncodeSlide(d.slideCallAction),
      "publico_alvo_pitch" := VStr(d.publicoAlvoPitch),
      "duracao_apresentacao" := VStr(d.duracaoApresentacao),
      "dicas_apresentacao" := StringsValue(d.dicasApresentacao)])
  }

  // ---------------------------------------------------------------------
  // Shape, decoding and encoding agree.

  lemma StringListShape(v: Value)
    ensures HasShape(v, StringList) <==> v.VList? && DecodeStrings(v.items).Some?
  {
    if v.VList? {
      DecodeStringsSucceeds(v.items);
    }
  }

  /** A value indexes as a slide exactly when it has the slide schema's shape. */
  lemma SlideShapeIffDecodes(v: Value)
    ensures HasShape(v, SlideSchema()) <==> DecodeSlide(v).Some?
  {
    var props := SlideSchema().properties;
    if v.VDict? {
      if "pontos_chave" in v.fields {
        StringListShape(v.fields["pontos_chave"]);
      }
      if HasShape(v, SlideSchema()) {
        assert props[0].0 in v.fields && HasShape(v.fields[props[0].0], props[0].1);
        assert props[1].0 in v.fields && HasShape(v.fields[props[1].0], props[1].1);
        assert props[2].0 in v.fields && HasShape(v.fields[props[2].0], props[2].1);
        assert props[3].0 in v.fields && HasShape(v.fields[props[3].0], props[3].1);
      }
      if DecodeSlide(v).Some? {
        forall i | 0 <= i < |props|
          ensures props[i].0 in v.fields && HasShape(v.fields[props[i].0], props[i].1)
        {
          if i == 0 {} else if i == 1 {} else if i == 2 {} else {}
        }
      }
    }
  }

  lemma StringsFieldShape(v: Value, key: string)
    requires v.VDict?
    ensures (key in v.fields && HasShape(v.fields[key], StringList)) <==> GetStrings(v, key).Some?
  {
    if key in v.fields {
      StringListShape(v.fields[key]);
    }
  }

  lemma MercadoShapeIffDecodes(v: Value)
    ensures HasShape(v, MercadoSchema()) <==> DecodeMercado(v).Some?
  {
    var props := MercadoSchema().properties;
    if v.VDict? {
      StringsFieldShape(v, "segmentos_alvo");
      StringsFieldShape(v, "tendencias");
      StringsFieldShape(v, "oportunidades");
      if HasShape(v, MercadoSchema()) {
        assert props[0].0 in v.fields && HasShape(v.fields[props[0].0], props[0].1);
        assert props[1].0 in v.fields && HasShape(v.fields[props[1].0], props[1].1);
        assert props[2].0 in v.fields && HasShape(v.fields[props[2].0], props[2].1);
        assert props[3].0 in v.fields && HasShape(v.fields[props[3].0], props[3].1);
        assert props[4].0 in v.fields && HasShape(v.fields[props[4].0], props[4].1);
      }
      if DecodeMercado(v).Some? {
        forall i | 0 <= i < |props|
          ensures props[i].0 in v.fields && HasShape(v.fields[props[i].0], props[i].1)
        {
          if i == 0 {} else if i == 1 {} else if i == 2 {} else if i == 3 {} else {}
        }
      }
    }
  }

  lemma ModeloShapeIffDecodes(v: Value)
    ensures HasShape(v, ModeloSchema()) <==> DecodeModelo(v).Some?
  {
    var props := ModeloSchema().properties;
    if v.VDict? {
      StringsFieldShape(v, "estrategia_monetizacao");
      StringsFieldShape(v, "fontes_receita");
      StringsFieldShape(v, "custos_estimados");
      if HasShape(v, ModeloSchema()) {
        assert props[0].0 in v.fields && HasShape(v.fields[props[0].0], props[0].1);
        assert props[1].0 in v.fields && HasShape(v.fields[props[1].0], props[1].1);
        assert props[2].0 in v.fields && HasShape(v.fields[props[2].0], props[2].1);
        assert props[3].0 in v.fields && HasShape(v.fields[props[3].0], props[3].1);
        assert props[4].0 in v.fields && HasShape(v.fields[props[4].0], props[4].1);
      }
      if DecodeModelo(v).Some? {
        forall i | 0 <= i < |props|
          ensures props[i].0 in v.fields && HasShape(v.fields[props[i].0], props[i].1)
        {
          if i == 0 {} else if i == 1 {} else if i == 2 {} else if i == 3 {} else {}
        }
      }
    }
  }

  lemma RoadmapShapeIffDecodes(v: Value)
    ensures HasShape(v, RoadmapSchema()) <==> DecodeRoadmap(v).Some?
  {
    var props := RoadmapSchema().properties;
    if v.VDict? {
      StringsFieldShape(v, "fases");
      StringsFieldShape(v, "marcos_principais");
      StringsFieldShape(v, "recursos_necessarios");
      StringsFieldShape(v, "riscos");
      if HasShape(v, RoadmapSchema()) {
        assert props[0].0 in v.fields && HasShape(v.fields[props[0].0], props[0].1);
        assert props[1].0 in v.fields && HasShape(v.fields[props[1].0], props[1].1);
        assert props[2].0 in v.fields && HasShape(v.fields[props[2].0], props[2].1);
        assert props[3].0 in v.fields && HasShape(v.fields[props[3].0], props[3].1);
        assert props[4].0 in v.fields && HasShape(v.fields[props[4].0], props[4].1);
      }
      if DecodeRoadmap(v).Some? {
        forall i | 0 <= i < |props|
          ensures props[i].0 in v.fields && HasShape(v.fields[props[i].0], props[i].1)
        {
          if i == 0 {} else if i == 1 {} else if i == 2 {} else if i == 3 {} else {}
        }
      }
    }
  }

  /** The property at index `i` of an object schema is present with its shape. */
  predicate PropertyHolds(v: Value, s: Schema, i: nat)
    requires v.VDict? && s.SObject? && i < |s.properties|
  {
    s.properties[i].0 in v.fields && HasShape(v.fields[s.properties[i].0], s.properties[i].1)
  }

  lemma PropertyShape(v: Value, i: nat)
    requires v.VDict? && i < 13
    ensures var s := PitchDeckSchema();
      PropertyHolds(v, s, i) <==>
        match i
        case 0 => GetSlide(v, "slide_titulo").Some?
        case 1 => GetSlide(v, "slide_problema").Some?
        case 2 => GetSlide(v, "slide_solucao").Some?
        case 3 => GetMercado(v, "slide_mercado").Some?
        case 4 => GetModelo(v, "slide_modelo_negocio").Some?
        case 5 => GetSlide(v, "slide_diferencacao").Some?
        case 6 => GetRoadmap(v, "slide_roadmap").Some?
        case 7 => GetSlide(v, "slide_equipe").Some?
        case 8 => GetSlide(v, "slide_financeiro").Some?
        case 9 => GetSlide(v, "slide_call_action").Some?
        case 10 => GetString(v, "publico_alvo_pitch").Some?
        case 11 => GetString(v, "duracao_apresentacao").Some?
        case _ => GetStrings(v, "dicas_apresentacao").Some?
  {
    var key := PitchDeckSchema().properties[i].0;
    if key in v.fields {
      var f := v.fields[key];
      if i == 3 {
        MercadoShapeIffDecodes(f);
      } else if i == 4 {
        ModeloShapeIffDecodes(f);
      } else if i == 6 {
        RoadmapShapeIffDecodes(f);
      } else if i == 12 {
        StringListShape(f);
      } else if i < 10 {
        SlideShapeIffDecodes(f);
      }
    }
  }

  lemma ObjectShape(v: Value, s: Schema)
    requires v.VDict? && s.SObject?
    ensures HasShape(v, s) <==> forall i :: 0 <= i < |s.properties| ==> PropertyHolds(v, s, i)
  {
    var props := s.properties;
    if forall i :: 0 <= i < |props| ==> PropertyHolds(v, s, i) {
      forall i | 0 <= i < |props|
        ensures props[i].0 in v.fields && HasShape(v.fields[props[i].0], props[i].1)
      {
        assert PropertyHolds(v, s, i);
      }
    }
  }

  /**
   * A parsed response reads as a `PitchDeck` record exactly when it has the
   * full shape of the response schema.
   */
  lemma PitchDeckShapeIffDecodes(v: Value)
    ensures HasShape(v, PitchDeckSchema()) <==> DecodePitchDeck(v).Some?
  {
    var s := PitchDeckSchema();
    if v.VDict? {
      ObjectShape(v, s);
      PropertyShape(v, 0); PropertyShape(v, 1); PropertyShape(v, 2); PropertyShape(v, 3);
      PropertyShape(v, 4); PropertyShape(v, 5); PropertyShape(v, 6); PropertyShape(v, 7);
      PropertyShape(v, 8); PropertyShape(v, 9); PropertyShape(v, 10); PropertyShape(v, 11);
      PropertyShape(v, 12);
      if DecodePitchDeck(v).Some? {
        forall i | 0 <= i < 13 ensures PropertyHolds(v, s, i) {
          PropertyShape(v, i);
        }
      }
    }
  }

  lemma DecodeEncodeSlide(s: Slide)
    ensures DecodeSlide(EncodeSlide(s)) == Some(s)
  {
    DecodeStringsValue(s.pontosChave);
  }

  /** Storing a deck as a dict and indexing it again gives the same deck. */
  lemma DecodeEncodePitchDeck(d: PitchDeck)
    ensures DecodePitchDeck(EncodePitchDeck(d)) == Some(d)
  {
    EncodedSlidesRead(d);
    EncodedRecordsRead(d);
  }

  /** The seven narrative slides read back from an encoded deck. */
  lemma EncodedSlidesRead(d: PitchDeck)
    ensures var v := EncodePitchDeck(d);
      && GetSlide(v, "slide_titulo") == Some(d.slideTitulo)
      && GetSlide(v, "slide_problema") == Some(d.slideProblema)
      && GetSlide(v, "slide_solucao") == Some(d.slideSolucao)
      && GetSlide(v, "slide_diferencacao") == Some(d.slideDiferencacao)
      && GetSlide(v, "slide_equipe") == Some(d.slideEquipe)
      && GetSlide(v, "slide_financeiro") == Some(d.slideFinanceiro)
      && GetSlide(v, "slide_call_action") == Some(d.slideCallAction)
  {
    DecodeEncodeSlide(d.slideTitulo);
    DecodeEncodeSlide(d.slideProblema);
    DecodeEncodeSlide(d.slideSolucao);
    DecodeEncodeSlide(d.slideDiferencacao);
    DecodeEncodeSlide(d.slideEquipe);
    DecodeEncodeSlide(d.slideFinanceiro);
    DecodeEncodeSlide(d.slideCallAction);
    EncodedFirstSlideFields(d);
    EncodedSlideFields(d);
    EncodedLaterSlideFields(d);
  }

  /** The market, business and roadmap records and the metadata read back from an encoded deck. */
  lemma EncodedRecordsRead(d: PitchDeck)
    ensures var v := EncodePitchDeck(d);
      && GetMercado(v, "slide_mercado") == Some(d.slideMercado)
      && GetModelo(v, "slide_modelo_negocio") == Some(d.slideModeloNegocio)
      && GetRoadmap(v, "slide_roadmap") == Some(d.slideRoadmap)
      && GetString(v, "publico_alvo_pitch") == Some(d.publicoAlvoPitch)
      && GetString(v, "duracao_apresentacao") == Some(d.duracaoApresentacao)
      && GetStrings(v, "dicas_apresentacao") == Some(d.dicasApresentacao)
  {
    DecodeEncodeMercado(d.slideMercado);
    DecodeEncodeModelo(d.slideModeloNegocio);
    DecodeEncodeRoadmap(d.slideRoadmap);
    DecodeStringsValue(d.dicasApresentacao);
    EncodedRecordFields(d);
    EncodedMetadataFields(d);
  }

  lemma EncodedFirstSlideFields(d: PitchDeck)
    ensures var f := EncodePitchDeck(d).fields;
      && f["slide_titulo"] == EncodeSlide(d.slideTitulo)
      && f["slide_problema"] == EncodeSlide(d.slideProblema)
  {
  }

  lemma EncodedSlideFields(d: PitchDeck)
    ensures var f := EncodePitchDeck(d).fields;
      && f["slide_solucao"] == EncodeSlide(d.slideSolucao)
      && f["slide_diferencacao"] == EncodeSlide(d.slideDiferencacao)
  {
  }

  lemma EncodedLaterSlideFields(d: PitchDeck)
    ensures var f := EncodePitchDeck(d).fields;
      && f["slide_equipe"] == EncodeSlide(d.slideEquipe)
      && f["slide_financeiro"] == EncodeSlide(d.slideFinanceiro)
      && f["slide_call_action"] == EncodeSlide(d.slideCallAction)
  {
  }

  lemma EncodedRecordFields(d: PitchDeck)
    ensures var f := EncodePitchDeck(d).fields;
      && f["slide_mercado"] == EncodeMercado(d.slideMercado)
      && f["slide_modelo_negocio"] == EncodeModelo(d.slideModeloNegocio)
      && f["slide_roadmap"] == EncodeRoadmap(d.slideRoadmap)
  {
  }

  lemma EncodedMetadataFields(d: PitchDeck)
    ensures var f := EncodePitchDeck(d).fields;
      && f["publico_alvo_pitch"] == VStr(d.publicoAlvoPitch)
      && f["duracao_apresentacao"] == VStr(d.duracaoApresentacao)
      && f["dicas_apresentacao"] == StringsValue(d.dicasApresentacao)
  {
  }

  lemma DecodeEncodeMercado(m: AnaliseMercado)
    ensures DecodeMercado(EncodeMercado(m)) == Some(m)
  {
    DecodeStringsValue(m.segmentosAlvo);
    DecodeStringsValue(m.tendencias);
    DecodeStringsValue(m.oportunidades);
  }

  lemma DecodeEncodeModelo(b: ModeloNegocio)
    ensures DecodeModelo(EncodeModelo(b)) == Some(b)
  {
    DecodeStringsValue(b.estrategiaMonetizacao);
    DecodeStringsValue(b.fontesReceita);
    DecodeStringsValue(b.custosEstimados);
  }

  lemma DecodeEncodeRoadmap(r: RoadmapDesenvolvimento)
    ensures DecodeRoadmap(EncodeRoadmap(r)) == Some(r)
  {
    DecodeStringsValue(r.fases);
    DecodeStringsValue(r.marcosPrincipais);
    DecodeStringsValue(r.recursosNecessarios);
    DecodeStringsValue(r.riscos);
  }

  /** Every stored deck conforms to the response schema. */
  lemma EncodedPitchDeckHasShape(d: PitchDeck)
    ensures HasShape(EncodePitchDeck(d), PitchDeckSchema())
  {
    DecodeEncodePitchDeck(d);
    PitchDeckShapeIffDecodes(EncodePitchDeck(d));
  }
}
