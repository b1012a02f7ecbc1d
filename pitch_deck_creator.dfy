/**
 * The non-interface logic of the pitch-deck page (pages/05_pitch_deck_creator.py):
 * the download file names, the settings written into the current concept,
 * the pitch-deck history record and what one click on the generate button
 * does to the session.
 */
module PitchDeckCreator {
  import opened Values
  import opened Sidebar

  // ---------------------------------------------------------------------
  // File names.

  /** `str.lower` on one character, for ASCII letters. */
  function LowerChar(c: char): char {
    if 'A' <= c <= 'Z' then (c as int + 32) as char else c
  }

  /** `str.lower`, for ASCII letters. */
  function Lower(s: string): (r: string)
    ensures |r| == |s|
    ensures forall i :: 0 <= i < |s| ==> r[i] == LowerChar(s[i])
  {
    seq(|s|, i requires 0 <= i < |s| => LowerChar(s[i]))
  }

  /** `str.replace(' ', '_')`. */
  function ReplaceSpaces(s: string): (r: string)
    ensures |r| == |s|
    ensures forall i :: 0 <= i < |s| ==> r[i] == if s[i] == ' ' then '_' else s[i]
  {
    seq(|s|, i requires 0 <= i < |s| => if s[i] == ' ' then '_' else s[i])
  }

  /** The title as it appears in a file name. */
  function NormalizeTitle(t: string): string {
    Lower(ReplaceSpaces(t))
  }

  /** A normalised title has no spaces and no upper-case ASCII letters. */
  lemma NormalizeTitleClean(t: string)
    ensures |NormalizeTitle(t)| == |t|
    ensures ' ' !in NormalizeTitle(t)
    ensures forall i :: 0 <= i < |t| ==> !('A' <= NormalizeTitle(t)[i] <= 'Z')
  {
    var r := NormalizeTitle(t);
    forall i | 0 <= i < |r| ensures r[i] != ' ' {
    }
  }

  /** Normalising a normalised title changes nothing. */
  lemma NormalizeTitleIdempotent(t: string)
    ensures NormalizeTitle(NormalizeTitle(t)) == NormalizeTitle(t)
  {
  }

  /** The default title needs no normalising. */
  lemma JogoIsNormal()
    ensures NormalizeTitle("jogo") == "jogo"
  {
    forall i | 0 <= i < 4 ensures NormalizeTitle("jogo")[i] == "jogo"[i] {
      if i == 0 {
      } else if i == 1 {
      } else if i == 2 {
      } else {
      }
    }
  }

  /**
   * `concept_data.get('titulo_provisorio', default)` used as a string;
   * `None` when the stored title is not a string (the `.replace` call fails).
   */
  function TitleOr(concept: map<string, Value>, default: string): Option<string> {
    var v := GetOr(concept, "titulo_provisorio", VStr(default));
    if v.VStr? then Some(v.s) else None
  }

  /** The name of the downloaded PDF of the current deck. */
  function DownloadFileName(concept: map<string, Value>): Option<string> {
    var title :- TitleOr(concept, "jogo");
    Some("pitch_deck_" + NormalizeTitle(title) + ".pdf")
  }

  const Prefix: string := "pitch_deck_"
  const Suffix: string := ".pdf"

  /**
   * The download name exists unless a non-string title is stored; it is the
   * prefix, the normalised title (or "jogo") and the suffix, with no spaces.
   */
  lemma DownloadFileNameShape(concept: map<string, Value>)
    ensures DownloadFileName(concept).Some? <==>
      ("titulo_provisorio" !in concept || concept["titulo_provisorio"].VStr?)
    ensures "titulo_provisorio" !in concept ==> DownloadFileName(concept) == Some("pitch_deck_jogo.pdf")
    ensures DownloadFileName(concept).Some? ==>
      var name, title := DownloadFileName(concept).value, TitleOr(concept, "jogo").value;
      |name| == |Prefix| + |title| + |Suffix| &&
      name[..|Prefix|] == Prefix &&
      name[|Prefix|..|name| - |Suffix|] == NormalizeTitle(title) &&
      name[|name| - |Suffix|..] == Suffix &&
      ' ' !in name
  {
    if "titulo_provisorio" !in concept {
      JogoIsNormal();
      assert "pitch_deck_" + "jogo" + ".pdf" == "pitch_deck_jogo.pdf";
    }
    if DownloadFileName(concept).Some? {
      var name, title := DownloadFileName(concept).value, TitleOr(concept, "jogo").value;
      NormalizeTitleClean(title);
      assert name == Prefix + NormalizeTitle(title) + Suffix;
      assert ' ' !in Prefix && ' ' !in Suffix;
      forall i | 0 <= i < |name| ensures name[i] != ' ' {
        if i < |Prefix| {
          assert name[i] == Prefix[i];
        } else if i < |Prefix| + |title| {
          assert name[i] == NormalizeTitle(title)[i - |Prefix|];
        } else {
          assert name[i] == Suffix[i - |Prefix| - |title|];
        }
      }
    }
  }

  /** Two concepts get the same download name exactly when their titles normalise alike. */
  lemma DownloadFileNameInjective(c1: map<string, Value>, c2: map<string, Value>)
    requires DownloadFileName(c1).Some? && DownloadFileName(c2).Some?
    ensures DownloadFileName(c1) == DownloadFileName(c2) <==>
      NormalizeTitle(TitleOr(c1, "jogo").value) == NormalizeTitle(TitleOr(c2, "jogo").value)
  {
    DownloadFileNameShape(c1);
    DownloadFileNameShape(c2);
  }

  /**
   * The name of the PDF downloaded from a history entry; `None` when the entry
   * lacks its title or audience, or holds non-strings there.
   */
  function HistoryFileName(entry: map<string, Value>): Option<string> {
    if "concept_title" !in entry || "publico_alvo" !in entry then None
    else if !entry["concept_title"].VStr? || !entry["publico_alvo"].VStr? then None
    else
      Some(Prefix + NormalizeTitle(entry["concept_title"].s) + "_" + Lower(entry["publico_alvo"].s) + Suffix)
  }

  /**
   * A history file name exists exactly when the entry holds a string title and
   * a string audience; it is the prefix, the normalised title, `_`, the
   * lower-cased audience and the suffix.
   */
  lemma HistoryFileNameShape(entry: map<string, Value>)
    ensures HistoryFileName(entry).Some? <==>
      "concept_title" in entry && entry["concept_title"].VStr? &&
      "publico_alvo" in entry && entry["publico_alvo"].VStr?
    ensures HistoryFileName(entry).Some? ==>
      var name, t, p := HistoryFileName(entry).value, entry["concept_title"].s, entry["publico_alvo"].s;
      |name| == |Prefix| + |t| + 1 + |p| + |Suffix| &&
      name[..|Prefix|] == Prefix &&
      name[|Prefix|..|Prefix| + |t|] == NormalizeTitle(t) &&
      name[|Prefix| + |t|] == '_' &&
      name[|Prefix| + |t| + 1..|name| - |Suffix|] == Lower(p) &&
      name[|name| - |Suffix|..] == Suffix
  {
    if HistoryFileName(entry).Some? {
      var t, p := entry["concept_title"].s, entry["publico_alvo"].s;
      NormalizeTitleClean(t);
      var name := HistoryFileName(entry).value;
      assert name == Prefix + NormalizeTitle(t) + "_" + Lower(p) + Suffix;
    }
  }

  /**
   * The audience is lower-cased but its spaces are kept: a history file name
   * holds a space exactly when the audience does.
   */
  lemma HistoryFileNameSpaces(entry: map<string, Value>)
    requires HistoryFileName(entry).Some?
    ensures ' ' in HistoryFileName(entry).value <==> ' ' in entry["publico_alvo"].s
  {
    var t, p := entry["concept_title"].s, entry["publico_alvo"].s;
    var name := HistoryFileName(entry).value;
    var head := Prefix + NormalizeTitle(t) + "_";
    NormalizeTitleClean(t);
    assert name == head + Lower(p) + Suffix;
    assert ' ' !in head by {
      forall i | 0 <= i < |head| ensures head[i] != ' ' {
        if |Prefix| <= i < |Prefix| + |t| {
          assert head[i] == NormalizeTitle(t)[i - |Prefix|];
        }
      }
    }
    if ' ' in p {
      var i :| 0 <= i < |p| && p[i] == ' ';
      assert name[|head| + i] == ' ';
    }
    if ' ' in name {
      var i :| 0 <= i < |name| && name[i] == ' ';
      assert |head| <= i < |head| + |p|;
      assert p[i - |head|] == ' ';
    }
  }

  /** With the picker's "Todos os públicos" the history file name contains spaces. */
  lemma AllAudiencesNameHasSpaces(entry: map<string, Value>)
    requires "concept_title" in entry && entry["concept_title"].VStr?
    requires "publico_alvo" in entry && entry["publico_alvo"] == VStr("Todos os públicos")
    ensures HistoryFileName(entry).Some? && ' ' in HistoryFileName(entry).value
  {
    var audience := entry["publico_alvo"].s;
    assert audience[5] == ' ';
    HistoryFileNameSpaces(entry);
  }

  // ---------------------------------------------------------------------
  // The concept settings and the pitch-deck history.

  /** The four settings written into the current concept before generation. */
  function WithPitchSettings(concept: map<string, Value>, publico: string, duracao: string,
                             foco: string, nivel: string): map<string, Value> {
    concept["publico_alvo_pitch" := VStr(publico)]["duracao_apresentacao" := VStr(duracao)]
           ["foco_principal" := VStr(foco)]["nivel_detalhe" := VStr(nivel)]
  }

  /** Exactly the four settings are added or overwritten; every other key keeps its value. */
  lemma PitchSettingsWritten(concept: map<string, Value>, publico: string, duracao: string,
                             foco: string, nivel: string)
    ensures var c := WithPitchSettings(concept, publico, duracao, foco, nivel);
      c.Keys == concept.Keys + {"publico_alvo_pitch", "duracao_apresentacao", "foco_principal", "nivel_detalhe"} &&
      c["publico_alvo_pitch"] == VStr(publico) && c["duracao_apresentacao"] == VStr(duracao) &&
      c["foco_principal"] == VStr(foco) && c["nivel_detalhe"] == VStr(nivel) &&
      forall k :: (k in concept &&
                   k !in {"publico_alvo_pitch", "duracao_apresentacao", "foco_principal", "nivel_detalhe"}) ==>
        c[k] == concept[k]
  {
  }

  /** The record appended to `pitch_deck_history`. */
  function PitchDeckEntry(concept: map<string, Value>, publico: string, duracao: string,
                          foco: string, deck: Value): (e: Value)
    ensures e.VDict? && e.fields.Keys == {"concept_title", "publico_alvo", "duracao", "foco", "pitch_deck"}
    ensures e.fields["concept_title"] == GetOr(concept, "titulo_provisorio", VStr("Sem título"))
    ensures e.fields["publico_alvo"] == VStr(publico) && e.fields["duracao"] == VStr(duracao)
    ensures e.fields["foco"] == VStr(foco) && e.fields["pitch_deck"] == deck
  {
    VDict(map["concept_title" := GetOr(concept, "titulo_provisorio", VStr("Sem título")),
              "publico_alvo" := VStr(publico), "duracao" := VStr(duracao),
              "foco" := VStr(foco), "pitch_deck" := deck])
  }

  /** On a truthy deck: append its entry to the history and make it the current deck. */
  function WithPitchDeckRecorded(m: map<string, Value>, entry: Value, deck: Value): map<string, Value>
    requires HistoryIsList(m, "pitch_deck_history")
  {
    if Truthy(deck) then WithAppended(m, "pitch_deck_history", entry)["current_pitch_deck" := deck]
    else m
  }

  /**
   * A truthy deck grows the history by exactly its entry and becomes the
   * current deck; a falsy one changes nothing.
   */
  lemma PitchDeckRecorded(m: map<string, Value>, entry: Value, deck: Value)
    requires HistoryIsList(m, "pitch_deck_history")
    ensures var r := WithPitchDeckRecorded(m, entry, deck);
      HistoryIsList(r, "pitch_deck_history") &&
      (Truthy(deck) ==>
        |Items(r, "pitch_deck_history")| == |Items(m, "pitch_deck_history")| + 1 &&
        Items(r, "pitch_deck_history") == Items(m, "pitch_deck_history") + [entry] &&
        r["current_pitch_deck"] == deck &&
        r.Keys == m.Keys + {"pitch_deck_history", "current_pitch_deck"} &&
        forall k :: k in m && k != "pitch_deck_history" && k != "current_pitch_deck" ==> r[k] == m[k]) &&
      (!Truthy(deck) ==> r == m)
  {
    if Truthy(deck) {
      AppendedHistory(m, "pitch_deck_history", entry);
      var a := WithAppended(m, "pitch_deck_history", entry);
      var r := a["current_pitch_deck" := deck];
      assert r["pitch_deck_history"] == a["pitch_deck_history"];
    }
  }

  /** `generate_pitch_deck`: the model's response, or `None` when the call raised. */
  function GenerationResult(response: Option<Value>): (deck: Value)
    ensures response.None? ==> deck == VNone && !Truthy(deck)
    ensures response.Some? ==> deck == response.value
  {
    if response.Some? then response.value else VNone
  }

  // ---------------------------------------------------------------------
  // One click on the generate button.

  /** How a click on the generate button ends. */
  datatype ClickOutcome =
    | NoConcept           // no current concept, or an empty one
    | InvalidConcept      // the current concept is not a dict
    | ClientUnavailable   // the language-model client could not be created
    | GenerationFailed    // the call raised, or returned something falsy
    | Generated(deck: Value)

  /** The outcome of a click, from the session and the client's behaviour. */
  function ClickResult(m: map<string, Value>, clientAvailable: bool, response: Option<Value>): ClickOutcome {
    if "current_gdd" !in m || !Truthy(m["current_gdd"]) then NoConcept
    else if !m["current_gdd"].VDict? then InvalidConcept
    else if !clientAvailable then ClientUnavailable
    else
      var deck := GenerationResult(response);
      if Truthy(deck) then Generated(deck) else GenerationFailed
  }

  /**
   * The session after a click: the settings land in the current concept (the
   * page edits the stored dict in place), then a truthy deck is recorded.
   */
  function AfterClick(m: map<string, Value>, clientAvailable: bool, publico: string, duracao: string,
                      foco: string, nivel: string, response: Option<Value>): map<string, Value>
    requires HistoryIsList(m, "pitch_deck_history")
  {
    match ClickResult(m, clientAvailable, response)
    case NoConcept => m
    case InvalidConcept => m
    case ClientUnavailable => m
    case _ =>
      var concept := WithPitchSettings(m["current_gdd"].fields, publico, duracao, foco, nivel);
      var deck := GenerationResult(response);
      var updated := m["current_gdd" := VDict(concept)];
      WithPitchDeckRecorded(updated, PitchDeckEntry(concept, publico, duracao, foco, deck), deck)
  }

  /**
   * What a click promises: nothing changes before the client exists; once it
   * does, the current concept holds the four settings. A failed generation
   * changes nothing else; a generated deck grows the history by one entry
   * naming it, becomes the current deck, and leaves every other key alone.
   */
  lemma ClickEffects(m: map<string, Value>, clientAvailable: bool, publico: string, duracao: string,
                     foco: string, nivel: string, response: Option<Value>)
    requires HistoryIsList(m, "pitch_deck_history")
    ensures var r, o := AfterClick(m, clientAvailable, publico, duracao, foco, nivel, response),
                        ClickResult(m, clientAvailable, response);
      HistoryIsList(r, "pitch_deck_history") &&
      (o.NoConcept? || o.InvalidConcept? || o.ClientUnavailable? ==> r == m) &&
      (o.Generated? || o.GenerationFailed? ==>
        "current_gdd" in r && r["current_gdd"].VDict? &&
        r["current_gdd"].fields == WithPitchSettings(m["current_gdd"].fields, publico, duracao, foco, nivel)) &&
      (o.GenerationFailed? ==>
        r == m["current_gdd" := VDict(WithPitchSettings(m["current_gdd"].fields, publico, duracao, foco, nivel))]) &&
      (o.Generated? ==>
        r.Keys == m.Keys + {"pitch_deck_history", "current_pitch_deck"} &&
        (forall k :: k in m && k != "current_gdd" && k != "pitch_deck_history" && k != "current_pitch_deck" ==>
          r[k] == m[k]) &&
        |Items(r, "pitch_deck_history")| == |Items(m, "pitch_deck_history")| + 1 &&
        Items(r, "pitch_deck_history")[..|Items(m, "pitch_deck_history")|] == Items(m, "pitch_deck_history") &&
        r["current_pitch_deck"] == o.deck &&
        Items(r, "pitch_deck_history")[|Items(m, "pitch_deck_history")|].fields["pitch_deck"] == o.deck &&
        Items(r, "pitch_deck_history")[|Items(m, "pitch_deck_history")|].fields["publico_alvo"] == VStr(publico))
  {
    var o := ClickResult(m, clientAvailable, response);
    if o.Generated? || o.GenerationFailed? {
      var concept := WithPitchSettings(m["current_gdd"].fields, publico, duracao, foco, nivel);
      var deck := GenerationResult(response);
      var updated := m["current_gdd" := VDict(concept)];
      assert Items(updated, "pitch_deck_history") == Items(m, "pitch_deck_history");
      var entry := PitchDeckEntry(concept, publico, duracao, foco, deck);
      PitchDeckRecorded(updated, entry, deck);
    }
  }

  /** Reopening entry `i` of the shown history makes its deck the current one. */
  function WithHistoryEntryLoaded(m: map<string, Value>, i: nat): Option<map<string, Value>>
    requires HistoryIsList(m, "pitch_deck_history")
  {
    var view := HistoryView(m, "pitch_deck_history");
    if 1 <= i <= |view| && view[i - 1].1.VDict? && "pitch_deck" in view[i - 1].1.fields
    then Some(m["current_pitch_deck" := view[i - 1].1.fields["pitch_deck"]])
    else None
  }

  /** Loading the newest shown entry of a non-empty history brings back that entry's deck. */
  lemma LoadNewest(m: map<string, Value>)
    requires HistoryIsList(m, "pitch_deck_history") && Items(m, "pitch_deck_history") != []
    requires var h := Items(m, "pitch_deck_history");
      h[|h| - 1].VDict? && "pitch_deck" in h[|h| - 1].fields
    ensures var h, view := Items(m, "pitch_deck_history"), HistoryView(m, "pitch_deck_history");
      1 <= |view| <= 3 &&
      WithHistoryEntryLoaded(m, |view|) == Some(m["current_pitch_deck" := h[|h| - 1].fields["pitch_deck"]])
  {
    HistoryViewShowsNewest(m, "pitch_deck_history");
  }

  /** After a successful click the session holds the settings-updated concept and the new entry. */
  lemma GeneratedSession(m: map<string, Value>, clientAvailable: bool, publico: string, duracao: string,
                         foco: string, nivel: string, response: Option<Value>)
    requires HistoryIsList(m, "pitch_deck_history")
    requires ClickResult(m, clientAvailable, response).Generated?
    ensures var concept := WithPitchSettings(m["current_gdd"].fields, publico, duracao, foco, nivel);
      var deck := ClickResult(m, clientAvailable, response).deck;
      var entry := PitchDeckEntry(concept, publico, duracao, foco, deck);
      var r := AfterClick(m, clientAvailable, publico, duracao, foco, nivel, response);
      HistoryIsList(r, "pitch_deck_history") &&
      Items(r, "pitch_deck_history") == Items(m, "pitch_deck_history") + [entry] &&
      r["current_pitch_deck"] == deck
  {
    var concept := WithPitchSettings(m["current_gdd"].fields, publico, duracao, foco, nivel);
    var updated := m["current_gdd" := VDict(concept)];
    assert Items(updated, "pitch_deck_history") == Items(m, "pitch_deck_history");
  }

  /**
   * Loading the newest shown entry of a history recorded by a click brings
   * back the deck that click generated.
   */
  lemma LoadNewestAfterClick(m: map<string, Value>, clientAvailable: bool, publico: string, duracao: string,
                             foco: string, nivel: string, response: Option<Value>)
    requires HistoryIsList(m, "pitch_deck_history")
    requires ClickResult(m, clientAvailable, response).Generated?
    ensures var r := AfterClick(m, clientAvailable, publico, duracao, foco, nivel, response);
      var view := HistoryView(r, "pitch_deck_history");
      HistoryIsList(r, "pitch_deck_history") && 1 <= |view| <= 3 &&
      WithHistoryEntryLoaded(r, |view|).Some? &&
      WithHistoryEntryLoaded(r, |view|).value["current_pitch_deck"] == ClickResult(m, clientAvailable, response).deck
  {
    GeneratedSession(m, clientAvailable, publico, duracao, foco, nivel, response);
    var r := AfterClick(m, clientAvailable, publico, duracao, foco, nivel, response);
    LoadNewest(r);
  }

  /**
   * The generate button of `main`: the page's checks, the settings written
   * into the stored concept, generation, and the history update on success.
   * Whether the client can be created and what the model answers are inputs.
   */
  method OnGenerateClicked(session: SessionState, clientAvailable: bool, publico: string, duracao: string,
                           foco: string, nivel: string, response: Option<Value>)
    returns (outcome: ClickOutcome)
    modifies session
    requires HistoryIsList(session.entries, "pitch_deck_history")
    ensures outcome == ClickResult(old(session.entries), clientAvailable, response)
    ensures session.entries == AfterClick(old(session.entries), clientAvailable, publico, duracao, foco, nivel, response)
  {
    if "current_gdd" !in session.entries || !Truthy(session.entries["current_gdd"]) {
      return NoConcept;
    }
    var stored := session.entries["current_gdd"];
    if !stored.VDict? {
      return InvalidConcept;
    }
    if !clientAvailable {
      return ClientUnavailable;
    }
    var concept := stored.fields;
    concept := concept["publico_alvo_pitch" := VStr(publico)];
    concept := concept["duracao_apresentacao" := VStr(duracao)];
    concept := concept["foco_principal" := VStr(foco)];
    concept := concept["nivel_detalhe" := VStr(nivel)];
    session.entries := session.entries["current_gdd" := VDict(concept)];
    var deck := GenerationResult(response);
    if Truthy(deck) {
      if "pitch_deck_history" !in session.entries {
        session.entries := session.entries["pitch_deck_history" := VList([])];
      }
      var entry := PitchDeckEntry(concept, publico, duracao, foco, deck);
      var history := session.entries["pitch_deck_history"].items;
      session.entries := session.entries["pitch_deck_history" := VList(history + [entry])];
      session.entries := session.entries["current_pitch_deck" := deck];
      outcome := Generated(deck);
    } else {
      outcome := GenerationFailed;
    }
  }
}
