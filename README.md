# Game Concept Forge — pitch-deck core in Dafny

Game Concept Forge is a Streamlit application that uses a hosted language model
to draft game concepts. This project models its pitch-deck core, which has four parts:

- **The record types** of a pitch deck (`utils/data_models.py`): `Slide`,
  `AnaliseMercado`, `ModeloNegocio`, `RoadmapDesenvolvimento` and `PitchDeck`.
  The pitch-deck page sends the language model a JSON response schema, and
  that schema is modelled too. A deck arrives as a parsed JSON dict and is
  indexed directly. Module `Values` defines the Python/JSON value type and
  Python truthiness. Module `DataModels` holds the records and the schema.
  `DataModels.DecodePitchDeck` reads such a dict as a `PitchDeck` record.
  It returns `None` unless the value has the full record shape: every
  declared field present, holding its declared type.
- **The PDF story builder** (`utils/pdf_generator.py`):
  - `generate_pitch_deck_pdf` builds a "story", the ordered list of layout
    elements that the report-layout library then paginates.
  - Module `PdfGenerator` specifies that story as the eleven pages of a deck
    joined by page breaks (`PitchDeckStory`).
  - The method `GeneratePitchDeckPdf` grows the story element by element, as
    the source does, and is proved equal to that specification.
  - Module `StoryProperties` proves what the story contains: backgrounds,
    banners, page breaks, tables, optional lists, the roadmap phases and the
    closing mark.
- **Session bookkeeping** (`utils/sidebar.py`), in module `Sidebar`:
  - The Streamlit session state is the class `SessionState` over a
    `map<string, Value>`.
  - Clearing, the concept history, the session summary and the
    last-three history window are modelled on that map.
- **The non-interface logic of the pitch-deck page**
  (`pages/05_pitch_deck_creator.py`), in module `PitchDeckCreator`:
  - the download file names;
  - the four settings written into the current concept;
  - the history record and current deck set by one click on the generate
    button;
  - reloading the newest history entry.

Three things are inputs to the model rather than modelled:

- whether the language-model client can be created;
- what the language model answers;
- the history timestamp.

Three behaviours of the generator are worth stating up front:

- An empty list field adds nothing to the PDF. No placeholder text is shown.
- There is no validation error type. Fields are indexed directly, and the
  records are read through `DecodePitchDeck`.
- There is one page geometry, 1920 by 1080 points (`PdfGenerator.SlideWidth`,
  `PdfGenerator.SlideHeight`).

## Model

| member | source | states |
|---|---|---|
| Values.DecodeStringsSucceeds | utils/data_models.py:104 | a JSON array reads as `List[str]` exactly when every item is a string |
| Values.DecodeStringsValue | utils/data_models.py:104 | a list of strings stored as a JSON array reads back unchanged |
| DataModels.SchemaDeclaresRecordKeys | pages/05_pitch_deck_creator.py:85-184 | the response schema declares exactly the keys of `PitchDeck` (13 of them), `Slide`, `AnaliseMercado`, `ModeloNegocio` and `RoadmapDesenvolvimento`, in declaration order |
| DataModels.SlideShapeIffDecodes | utils/data_models.py:100-105 | a value reads as a `Slide` exactly when it has the slide schema's shape |
| DataModels.MercadoShapeIffDecodes | utils/data_models.py:107-113 | a value reads as an `AnaliseMercado` exactly when it has that schema's shape |
| DataModels.ModeloShapeIffDecodes | utils/data_models.py:115-121 | a value reads as a `ModeloNegocio` exactly when it has that schema's shape |
| DataModels.RoadmapShapeIffDecodes | utils/data_models.py:123-129 | a value reads as a `RoadmapDesenvolvimento` exactly when it has that schema's shape |
| DataModels.PitchDeckShapeIffDecodes | utils/data_models.py:131-166 | a parsed response reads as a `PitchDeck` record exactly when it has the full shape of the response schema |
| DataModels.DecodeEncodeSlide | utils/data_models.py:100-105 | a slide stored as a dict reads back unchanged |
| DataModels.DecodeEncodeMercado | utils/data_models.py:107-113 | a market analysis stored as a dict reads back unchanged |
| DataModels.DecodeEncodeModelo | utils/data_models.py:115-121 | a business model stored as a dict reads back unchanged |
| DataModels.DecodeEncodeRoadmap | utils/data_models.py:123-129 | a roadmap stored as a dict reads back unchanged |
| DataModels.DecodeEncodePitchDeck | utils/data_models.py:131-166 | a deck stored as a dict reads back as the same deck |
| DataModels.EncodedPitchDeckHasShape | pages/05_pitch_deck_creator.py:85-184 | every stored deck conforms to the response schema |
| PdfGenerator.Repeat | utils/pdf_generator.py:110-111 | `c * n` has length n and every character is c |
| PdfGenerator.SeparatorLine | utils/pdf_generator.py:110-111 | the separator is exactly forty `―` characters |
| PdfGenerator.SlideBackground | utils/pdf_generator.py:113-115 | slide index `idx` gets palette entry `idx % 4`, always inside the four-colour palette |
| PdfGenerator.BulletList | utils/pdf_generator.py:107-108 | one bullet per item, in input order, each `"• " + item` in the bullet style |
| PdfGenerator.NatToString | utils/pdf_generator.py:240 | `str(n)` is a non-empty string of decimal digits with no leading zero |
| PdfGenerator.PhaseLines | utils/pdf_generator.py:239-240 | one line per phase, in order; line i reads `Fase i+1: <fase>` |
| PdfGenerator.AppendList | utils/pdf_generator.py:133-135 | a list field appends its heading and bullets when non-empty, and nothing otherwise |
| PdfGenerator.AppendNarrativeSlide | utils/pdf_generator.py:128-136 | one narrative slide is appended as its page, and the slide index advances by one |
| PdfGenerator.AppendMarketSlide | utils/pdf_generator.py:161-189 | slide 4 is appended as its page, and the slide index advances by one |
| PdfGenerator.AppendBusinessSlide | utils/pdf_generator.py:193-220 | slide 5 is appended as its page, and the slide index advances by one |
| PdfGenerator.AppendPhases | utils/pdf_generator.py:239-240 | the `enumerate(fases, 1)` loop appends exactly the numbered phase lines |
| PdfGenerator.AppendPhaseBlock | utils/pdf_generator.py:237-240 | the phase heading and lines are appended only when there are phases |
| PdfGenerator.AppendRoadmapSlide | utils/pdf_generator.py:235-247 | slide 7 is appended as its page, and the slide index advances by one |
| PdfGenerator.AppendInfoSlide | utils/pdf_generator.py:284-307 | the information page is appended, closing mark included, and the slide index advances by one |
| PdfGenerator.GeneratePitchDeckPdf | utils/pdf_generator.py:117-311 | the story built step by step is the deck's eleven pages joined by page breaks |
| StoryProperties.StorySplitsIntoPages | utils/pdf_generator.py:136-281 | cutting the story at its page breaks gives back exactly the eleven pages |
| StoryProperties.StoryPageBreaks | utils/pdf_generator.py:136-281 | the story has exactly ten page breaks, and its last element is not one |
| StoryProperties.StoryBackgrounds | utils/pdf_generator.py:113-284 | the story holds eleven backgrounds, and the k-th has palette index k mod 4 |
| StoryProperties.StoryBanners | utils/pdf_generator.py:128-285 | the banners are "SLIDE 1: …" to "SLIDE 10: …", then "INFORMAÇÕES ADICIONAIS", in that order |
| StoryProperties.StoryBackgroundThenBanner | utils/pdf_generator.py:128-285 | every background in the story is immediately followed by a banner |
| StoryProperties.StoryPageHeaders | utils/pdf_generator.py:128-285 | page k of the story opens with background k mod 4, immediately followed by the banner `BannerTitles[k]`, and holds only body elements after them |
| StoryProperties.StoryNarrativeSlides | utils/pdf_generator.py:128-277 | each narrative page opens with background, banner, title (title style on slide 1, subtitle style elsewhere), separator and content |
| StoryProperties.OptionalListContribution | utils/pdf_generator.py:133-305 | a list field adds a heading and one bullet per item when non-empty, and no element at all when empty |
| StoryProperties.PhaseBlockLayout | utils/pdf_generator.py:237-240 | the phase block is empty exactly when there are no phases; otherwise it shows the heading and `Fase i: <fase>` for i = 1..n, in order |
| StoryProperties.RoadmapShowsSchedule | utils/pdf_generator.py:241 | the "Cronograma:" line always appears, directly after the phase block, even with no phases |
| StoryProperties.NatToStringValue | utils/pdf_generator.py:240 | the phase number's digits denote that number |
| StoryProperties.NatToStringInjective | utils/pdf_generator.py:240 | distinct phase numbers are written differently |
| StoryProperties.StoryTables | utils/pdf_generator.py:164-289 | the story holds exactly three tables: market, projection, information, in that order; each has two rows with the fixed labels and the deck's values |
| StoryProperties.StoryEnding | utils/pdf_generator.py:306-307 | the story ends with the 60-point spacer followed by the closing mark |
| StoryProperties.StoryLength | utils/pdf_generator.py:128-307 | the story has 60 fixed elements, plus, for each of the 17 list fields, its length + 1 when non-empty |
| StoryProperties.StoryIgnoresUnrenderedFields | utils/pdf_generator.py:128-248 | `visual_sugerido` and `recursos_necessarios` never influence the story |
| Sidebar.Cleared | utils/sidebar.py:72-87 | a key survives clearing exactly when it is not one of the ten listed keys, and a surviving key keeps its value |
| Sidebar.ClearIdempotent | utils/sidebar.py:85-87 | clearing twice is clearing once |
| Sidebar.ClearKeepsOtherHistories | utils/sidebar.py:72-83 | the concept, analysis, core-loop and flow histories survive clearing with their contents; the pitch-deck history does not |
| Sidebar.SessionState.ClearSessionData | utils/sidebar.py:68-87 | the deletion loop leaves the session equal to `Cleared` of the old session |
| Sidebar.AppendedHistory | utils/sidebar.py:98-101 | appending creates a missing history, grows it by exactly one entry at the end, keeps earlier entries and changes no other key |
| Sidebar.ConceptEntry | utils/sidebar.py:101-106 | the record has exactly the keys title, gdd, concept and date, holding the arguments |
| Sidebar.SessionState.AddToConceptHistory | utils/sidebar.py:89-106 | the session becomes the old one with the concept record appended to `concept_history` |
| Sidebar.SessionSummary | utils/sidebar.py:108-133 | the summary is `None` exactly when the source raises: a history `len` rejects, or a current concept that is not a dict; otherwise each `has_*` flag equals membership of its key; each count is its history's length, or 0 when absent; title and genre are present exactly when a concept is loaded, defaulting to 'Sem título' and 'N/A' |
| Sidebar.SummaryAfterClear | utils/sidebar.py:68-125 | after clearing, every flag is false and the pitch-deck count is 0, while the other four counts are unchanged |
| Sidebar.SummaryAfterConceptAdded | utils/sidebar.py:98-121 | adding a concept raises the concept count by one and leaves the rest of the summary unchanged |
| Sidebar.LastThree | utils/sidebar.py:54 | `h[-3:]` has min(3, n) entries and is a suffix of h |
| Sidebar.Numbered | utils/sidebar.py:54 | `enumerate(w, 1)` pairs entry i with number i + 1 |
| Sidebar.LastThreeAfterAppend | pages/05_pitch_deck_creator.py:496 | after an append, the window gains the new entry and drops its oldest once it already showed three |
| Sidebar.LastThreeIdempotent | utils/sidebar.py:54 | the window of a window is the same window |
| Sidebar.HistoryViewShowsNewest | pages/05_pitch_deck_creator.py:492-497 | a history of n entries shows min(3, n) of them, numbered from 1, oldest first, ending with the newest |
| PitchDeckCreator.Lower | pages/05_pitch_deck_creator.py:457 | lower-casing keeps the length and maps each character by ASCII lower-casing |
| PitchDeckCreator.ReplaceSpaces | pages/05_pitch_deck_creator.py:457 | every space becomes `_`, and every other character stays |
| PitchDeckCreator.NormalizeTitleClean | pages/05_pitch_deck_creator.py:457 | a normalised title keeps its length and holds no space and no upper-case ASCII letter |
| PitchDeckCreator.NormalizeTitleIdempotent | pages/05_pitch_deck_creator.py:457 | normalising twice is normalising once |
| PitchDeckCreator.DownloadFileNameShape | pages/05_pitch_deck_creator.py:457 | a name exists exactly when the stored title is absent or a string; it is `pitch_deck_` + normalised title + `.pdf`, or `pitch_deck_jogo.pdf` when no title is stored, and it contains no space; line 480 uses the same rule |
| PitchDeckCreator.DownloadFileNameInjective | pages/05_pitch_deck_creator.py:457 | two concepts get the same download name exactly when their titles normalise alike |
| PitchDeckCreator.HistoryFileNameShape | pages/05_pitch_deck_creator.py:514 | a history file name exists exactly when the entry holds a string title and a string audience; it is `pitch_deck_` + normalised title + `_` + lower-cased audience + `.pdf` |
| PitchDeckCreator.HistoryFileNameSpaces | pages/05_pitch_deck_creator.py:514 | a history file name contains a space exactly when the audience does, because the audience's spaces are kept |
| PitchDeckCreator.AllAudiencesNameHasSpaces | pages/05_pitch_deck_creator.py:514 | for the picker's "Todos os públicos" audience the history file name contains spaces |
| PitchDeckCreator.PitchSettingsWritten | pages/05_pitch_deck_creator.py:413-416 | the concept gains or overwrites exactly the four setting keys with the chosen values; every other key keeps its value |
| PitchDeckCreator.PitchDeckEntry | pages/05_pitch_deck_creator.py:426-432 | the history record has exactly five keys: the title (default 'Sem título'), audience, duration, focus and the deck |
| PitchDeckCreator.PitchDeckRecorded | pages/05_pitch_deck_creator.py:421-435 | a truthy deck grows the history by exactly its entry and becomes the current deck, touching no other key; a falsy one changes nothing |
| PitchDeckCreator.GenerationResult | pages/05_pitch_deck_creator.py:81-190 | generation yields the model's response, or `None`, which is falsy, when the call raised |
| PitchDeckCreator.ClickEffects | pages/05_pitch_deck_creator.py:341-435 | nothing changes without a concept, with a non-dict concept or without a client; otherwise the concept holds the settings. A failed generation changes nothing else. A generated deck grows the history by one entry naming the deck and audience, becomes the current deck, adds at most those two keys, and leaves every other key unchanged |
| PitchDeckCreator.GeneratedSession | pages/05_pitch_deck_creator.py:419-435 | after a successful click, the history is the old one plus the new entry, and the current deck is the generated one |
| PitchDeckCreator.LoadNewest | pages/05_pitch_deck_creator.py:496-506 | loading the newest shown entry makes its deck the current one |
| PitchDeckCreator.LoadNewestAfterClick | pages/05_pitch_deck_creator.py:496-506 | loading the newest shown entry after a successful click restores the deck that click generated |
| PitchDeckCreator.OnGenerateClicked | pages/05_pitch_deck_creator.py:341-435 | the click's outcome and the new session are those of `ClickResult` and `AfterClick` on the old session |

## Left out

- Drawing is not modelled: reportlab layout, pagination, line breaking, fonts, colours and `TableStyle` are out. Styles are tags, and colours are palette indices.
- The `BytesIO` buffer and `doc.build` are not modelled. The model stops at the story handed to the layout library.
- `GeneratePitchDeckPdf`: the `filename` parameter is accepted and ignored, as in the source.
- The module-level `generate_pitch_deck_pdf` wrapper (utils/pdf_generator.py:314-316) only delegates, so it is not a separate member.
- `SlideBackground.draw`, which paints the canvas, is not modelled.
- `utils/gemini_client.py` is not part of this model. Its network calls, JSON parsing and image decoding are out.
- Whether the language-model client can be created, and what the language model answers, are parameters of the click.
- The prompt text of `generate_pitch_deck` is not modelled.
- All Streamlit rendering is out: the `display_*` functions, `render_sidebar`, the expanders, the buttons and `st.rerun`.
- `app.py`'s clear button deletes only four keys. It is not `clear_session_data` and is not modelled.
- `Sidebar.SessionState.AddToConceptHistory`: the timestamp from `datetime.now()` is a parameter.
- `PitchDeckCreator.Lower`: only ASCII letters are lower-cased. Python's `str.lower` also lower-cases other letters.
- `PitchDeckCreator.OnGenerateClicked`: the page edits the stored concept dict in place (pages/05_pitch_deck_creator.py:413-416). The model writes a new dict back under `current_gdd` instead, so it does not capture aliasing. In the source the concept generator stores the same dict as `current_gdd` and as the newest `concept_history` entry's `gdd` (pages/01_concept_generator.py:206-214). The source's edit therefore also adds the four settings to that history entry; in the model `concept_history` is unchanged.
- `DataModels.DecodePitchDeck` is stricter than the Python generator. It demands every declared field with its declared type. The generator never reads `visual_sugerido` or `recursos_necessarios`, and `f"• {item}"` formats non-string list items without error. A response lacking `recursos_necessarios`, for example, still yields a PDF in Python, while `DecodePitchDeck` returns `None`. Decks are modelled as complete records.
- `Sidebar.SessionSummary` models a raised `TypeError` or `AttributeError` as `None`; the exception itself is not modelled.
- `DataModels.EncodePitchDeck` states only that the result is a dict. Its keys and values are stated through `DecodeEncodePitchDeck` and `EncodedPitchDeckHasShape`.
- The `Copiar JSON`, `Gerar Novo` and download buttons themselves are not modelled, only the file names they offer.
- Loading a history entry other than the newest is modelled by `WithHistoryEntryLoaded`. Only the newest entry has a proved lemma.
