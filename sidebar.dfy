/**
 * Session-state bookkeeping (utils/sidebar.py): the per-user session is a
 * string-keyed map. Clearing removes a fixed set of keys, a concept is
 * appended to the concept history, the summary reads flags and counts off the
 * map, and histories are shown through a window of their last three entries.
 */
module Sidebar {
  import opened Values

  // ---------------------------------------------------------------------
  // Clearing the session.

  /** The keys `clear_session_data` deletes, in the order it deletes them. */
  const KeysToClear: seq<string> := [
    "current_gdd", "current_concept",
    "competitor_analysis", "analysis_concept",
    "core_loop_detailed", "core_loop_concept",
    "game_flow", "flow_concept",
    "pitch_deck_history", "current_pitch_deck"]

  /** The history lists the rest of the application keeps in the session. */
  const HistoryKeys: seq<string> := [
    "concept_history", "analysis_history", "core_loop_history", "flow_history", "pitch_deck_history"]

  function ClearedKeys(): set<string> {
    set k | k in KeysToClear
  }

  /** The session after `clear_session_data`. */
  function Cleared(m: map<string, Value>): (r: map<string, Value>)
    ensures forall k :: k in r <==> k in m && k !in KeysToClear
    ensures forall k :: k in r ==> r[k] == m[k]
  {
    m - ClearedKeys()
  }

  /** Clearing twice is clearing once. */
  lemma ClearIdempotent(m: map<string, Value>)
    ensures Cleared(Cleared(m)) == Cleared(m)
  {
  }

  /**
   * The concept, analysis, core-loop and flow histories survive clearing with
   * their contents; the pitch-deck history does not.
   */
  lemma ClearKeepsOtherHistories(m: map<string, Value>)
    ensures forall i :: 0 <= i < 4 ==>
      (HistoryKeys[i] in Cleared(m) <==> HistoryKeys[i] in m) &&
      (HistoryKeys[i] in m ==> Cleared(m)[HistoryKeys[i]] == m[HistoryKeys[i]])
    ensures "pitch_deck_history" !in Cleared(m)
  {
    forall i | 0 <= i < 4 ensures HistoryKeys[i] !in KeysToClear {
      var k := HistoryKeys[i];
      forall j | 0 <= j < |KeysToClear| ensures KeysToClear[j] != k {
        assert KeysToClear[j][|KeysToClear[j]| - 1] != k[|k| - 1] || |KeysToClear[j]| != |k|;
      }
    }
    assert KeysToClear[8] == "pitch_deck_history";
  }

  // ---------------------------------------------------------------------
  // Histories.

  /** The history under `key` can be appended to: absent, or a list. */
  predicate HistoryIsList(m: map<string, Value>, key: string) {
    key in m ==> m[key].VList?
  }

  /** The entries of the history under `key`; an absent history is empty. */
  function Items(m: map<string, Value>, key: string): seq<Value>
    requires HistoryIsList(m, key)
  {
    if key in m then m[key].items else []
  }

  /** Create the history if absent, then append `e` to it. */
  function WithAppended(m: map<string, Value>, key: string, e: Value): map<string, Value>
    requires HistoryIsList(m, key)
  {
    m[key := VList(Items(m, key) + [e])]
  }

  /** Appending adds exactly one entry at the end and changes nothing else. */
  lemma AppendedHistory(m: map<string, Value>, key: string, e: Value)
    requires HistoryIsList(m, key)
    ensures var r := WithAppended(m, key, e);
      HistoryIsList(r, key) && key in r &&
      |Items(r, key)| == |Items(m, key)| + 1 &&
      Items(r, key)[..|Items(m, key)|] == Items(m, key) &&
      Items(r, key)[|Items(m, key)|] == e &&
      r.Keys == m.Keys + {key} &&
      forall k :: k in m && k != key ==> r[k] == m[k]
  {
    var r := WithAppended(m, key, e);
    assert Items(r, key) == Items(m, key) + [e];
  }

  /** The record `add_to_concept_history` appends; the date is supplied by the caller. */
  function ConceptEntry(title: string, gdd: map<string, Value>, concept: string, date: string): (e: Value)
    ensures e.VDict? && e.fields.Keys == {"title", "gdd", "concept", "date"}
    ensures e.fields["title"] == VStr(title) && e.fields["gdd"] == VDict(gdd)
    ensures e.fields["concept"] == VStr(concept) && e.fields["date"] == VStr(date)
  {
    VDict(map["title" := VStr(title), "gdd" := VDict(gdd), "concept" := VStr(concept), "date" := VStr(date)])
  }

  // ---------------------------------------------------------------------
  // The session summary.

  /** What `get_session_summary` returns; the title and genre only when a concept is loaded. */
  datatype Summary = Summary(
    hasConcept: bool, hasAnalysis: bool, hasCoreLoop: bool, hasFlow: bool, hasPitchDeck: bool,
    conceptCount: nat, analysisCount: nat, coreLoopCount: nat, flowCount: nat, pitchDeckCount: nat,
    currentTitle: Option<Value>, currentGenre: Option<Value>)

  /** Values Python's `len` accepts. */
  predicate Sized(v: Value) {
    v.VStr? || v.VList? || v.VDict?
  }

  function Len(v: Value): nat
    requires Sized(v)
  {
    match v
    case VStr(s) => |s|
    case VList(items) => |items|
    case VDict(fields) => |fields|
  }

  /** `len(session.get(key, []))`. */
  function Count(m: map<string, Value>, key: string): nat
    requires key in m ==> Sized(m[key])
  {
    if key in m then Len(m[key]) else 0
  }

  /** What the summary needs of the session: sized histories and a dict as the current concept. */
  predicate SummaryDefined(m: map<string, Value>) {
    (forall i :: 0 <= i < |HistoryKeys| ==> HistoryKeys[i] in m ==> Sized(m[HistoryKeys[i]])) &&
    ("current_gdd" in m ==> m["current_gdd"].VDict?)
  }

  lemma SummaryDefinedKeys(m: map<string, Value>)
    requires SummaryDefined(m)
    ensures "concept_history" in m ==> Sized(m["concept_history"])
    ensures "analysis_history" in m ==> Sized(m["analysis_history"])
    ensures "core_loop_history" in m ==> Sized(m["core_loop_history"])
    ensures "flow_history" in m ==> Sized(m["flow_history"])
    ensures "pitch_deck_history" in m ==> Sized(m["pitch_deck_history"])
  {
    assert HistoryKeys[0] == "concept_history" && HistoryKeys[1] == "analysis_history";
    assert HistoryKeys[2] == "core_loop_history" && HistoryKeys[3] == "flow_history";
    assert HistoryKeys[4] == "pitch_deck_history";
  }

  /** `n` is the length of the history list under `key`, or 0 when there is none. */
  predicate CountIsLength(m: map<string, Value>, key: string, n: nat) {
    (key !in m ==> n == 0) && (key in m && m[key].VList? ==> n == |m[key].items|)
  }

  /**
   * `get_session_summary`; `None` where it raises: a history that `len` rejects
   * (`TypeError`) or a current concept that is not a dict (`AttributeError` from `.get`).
   */
  function SessionSummary(m: map<string, Value>): (r: Option<Summary>)
    ensures r.Some? <==> SummaryDefined(m)
    ensures r.Some? ==>
      r.value.hasConcept == ("current_gdd" in m) && r.value.hasAnalysis == ("competitor_analysis" in m) &&
      r.value.hasCoreLoop == ("core_loop_detailed" in m) && r.value.hasFlow == ("game_flow" in m) &&
      r.value.hasPitchDeck == ("current_pitch_deck" in m)
    ensures r.Some? ==>
      CountIsLength(m, "concept_history", r.value.conceptCount) &&
      CountIsLength(m, "analysis_history", r.value.analysisCount) &&
      CountIsLength(m, "core_loop_history", r.value.coreLoopCount) &&
      CountIsLength(m, "flow_history", r.value.flowCount) &&
      CountIsLength(m, "pitch_deck_history", r.value.pitchDeckCount)
    ensures r.Some? ==>
      (r.value.currentTitle.Some? <==> r.value.hasConcept) &&
      (r.value.currentGenre.Some? <==> r.value.hasConcept)
    ensures r.Some? && r.value.hasConcept ==>
      var gdd := m["current_gdd"].fields;
      r.value.currentTitle.value == (if "titulo_provisorio" in gdd then gdd["titulo_provisorio"] else VStr("Sem título")) &&
      r.value.currentGenre.value == (if "genero" in gdd then gdd["genero"] else VStr("N/A"))
  {
    if !SummaryDefined(m) then None
    else
      SummaryDefinedKeys(m);
      var hasConcept := "current_gdd" in m;
      Some(Summary(
        hasConcept, "competitor_analysis" in m, "core_loop_detailed" in m, "game_flow" in m,
        "current_pitch_deck" in m,
        Count(m, "concept_history"), Count(m, "analysis_history"), Count(m, "core_loop_history"),
        Count(m, "flow_history"), Count(m, "pitch_deck_history"),
        if hasConcept then Some(GetOr(m["current_gdd"].fields, "titulo_provisorio", VStr("Sem título"))) else None,
        if hasConcept then Some(GetOr(m["current_gdd"].fields, "genero", VStr("N/A"))) else None))
  }

  lemma ClearedSummaryDefined(m: map<string, Value>)
    requires SummaryDefined(m)
    ensures SummaryDefined(Cleared(m))
  {
  }

  /**
   * After clearing, the summary reports nothing loaded and no pitch decks,
   * while the concept, analysis, core-loop and flow counts are unchanged.
   */
  lemma SummaryAfterClear(m: map<string, Value>)
    requires SummaryDefined(m)
    ensures SummaryDefined(Cleared(m))
    ensures var before, after := SessionSummary(m).value, SessionSummary(Cleared(m)).value;
      !after.hasConcept && !after.hasAnalysis && !after.hasCoreLoop && !after.hasFlow &&
      !after.hasPitchDeck && after.pitchDeckCount == 0 &&
      after.currentTitle.None? && after.currentGenre.None? &&
      after.conceptCount == before.conceptCount && after.analysisCount == before.analysisCount &&
      after.coreLoopCount == before.coreLoopCount && after.flowCount == before.flowCount
  {
    ClearKeepsOtherHistories(m);
    assert KeysToClear[0] == "current_gdd" && KeysToClear[2] == "competitor_analysis";
    assert KeysToClear[4] == "core_loop_detailed" && KeysToClear[6] == "game_flow";
    assert KeysToClear[9] == "current_pitch_deck";
    assert HistoryKeys[0] == "concept_history" && HistoryKeys[1] == "analysis_history";
    assert HistoryKeys[2] == "core_loop_history" && HistoryKeys[3] == "flow_history";
  }

  /** Recording a concept adds one to the concept count and leaves the rest of the summary alone. */
  lemma SummaryAfterConceptAdded(m: map<string, Value>, e: Value)
    requires SummaryDefined(m) && HistoryIsList(m, "concept_history")
    ensures SummaryDefined(WithAppended(m, "concept_history", e))
    ensures var before, after := SessionSummary(m).value, SessionSummary(WithAppended(m, "concept_history", e)).value;
      after == before.(conceptCount := before.conceptCount + 1)
  {
    var r := WithAppended(m, "concept_history", e);
    AppendedHistory(m, "concept_history", e);
    SummaryDefinedKeys(m);
    assert r["concept_history"] == VList(Items(m, "concept_history") + [e]);
  }

  // ---------------------------------------------------------------------
  // The history window.

  /** Python's `h[-3:]`. */
  function LastThree<T>(h: seq<T>): (w: seq<T>)
    ensures |w| == if |h| < 3 then |h| else 3
    ensures w == h[|h| - |w|..]
  {
    if |h| <= 3 then h else h[|h| - 3..]
  }

  /** Python's `enumerate(w, 1)`. */
  function Numbered<T>(w: seq<T>): (r: seq<(nat, T)>)
    ensures |r| == |w|
    ensures forall i :: 0 <= i < |w| ==> r[i] == (i + 1, w[i])
  {
    seq(|w|, i requires 0 <= i < |w| => (i + 1, w[i]))
  }

  /** After an append the window slides by one: the oldest shown entry drops once three are shown. */
  lemma LastThreeAfterAppend<T>(h: seq<T>, e: T)
    ensures LastThree(h + [e]) == (if |h| >= 3 then LastThree(h)[1..] else LastThree(h)) + [e]
  {
    var w := LastThree(h + [e]);
    assert w[|w| - 1] == e;
  }

  /** A window shows the newest entries only once. */
  lemma LastThreeIdempotent<T>(h: seq<T>)
    ensures LastThree(LastThree(h)) == LastThree(h)
  {
  }

  /** The numbered entries a history view shows: the last three of a non-empty history. */
  function HistoryView(m: map<string, Value>, key: string): (r: seq<(nat, Value)>)
    requires HistoryIsList(m, key)
    ensures |r| <= 3
  {
    if key in m && Truthy(m[key]) then Numbered(LastThree(m[key].items)) else []
  }

  /**
   * The view of a history of n entries lists min(3, n) of them, numbered from
   * 1, oldest first, ending with the newest entry.
   */
  lemma HistoryViewShowsNewest(m: map<string, Value>, key: string)
    requires HistoryIsList(m, key)
    ensures var h, v := Items(m, key), HistoryView(m, key);
      |v| == (if |h| < 3 then |h| else 3) &&
      (forall i :: 0 <= i < |v| ==> v[i] == (i + 1, h[|h| - |v| + i])) &&
      (h != [] ==> v[|v| - 1] == (|v|, h[|h| - 1]))
  {
  }

  // ---------------------------------------------------------------------
  // The session object.

  /** `st.session_state`: a map the operations update in place. */
  class SessionState {
    var entries: map<string, Value>

    constructor(initial: map<string, Value>)
      ensures entries == initial
    {
      entries := initial;
    }

    /** `clear_session_data`: delete each listed key that is present. */
    method ClearSessionData()
      modifies this
      ensures entries == Cleared(old(entries))
    {
      for i := 0 to |KeysToClear|
        invariant entries == old(entries) - (set j | 0 <= j < i :: KeysToClear[j])
      {
        var key := KeysToClear[i];
        if key in entries {
          entries := entries - {key};
        }
        assert (set j | 0 <= j < i + 1 :: KeysToClear[j]) == (set j | 0 <= j < i :: KeysToClear[j]) + {key};
      }
      assert (set j | 0 <= j < |KeysToClear| :: KeysToClear[j]) == ClearedKeys();
    }

    /** `add_to_concept_history`, with the timestamp passed in. */
    method AddToConceptHistory(title: string, gdd: map<string, Value>, concept: string, date: string)
      modifies this
      requires HistoryIsList(entries, "concept_history")
      ensures entries == WithAppended(old(entries), "concept_history", ConceptEntry(title, gdd, concept, date))
    {
      if "concept_history" !in entries {
        entries := entries["concept_history" := VList([])];
      }
      var history := entries["concept_history"].items;
      entries := entries["concept_history" := VList(history + [ConceptEntry(title, gdd, concept, date)])];
    }
  }
}
