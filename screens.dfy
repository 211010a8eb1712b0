/**
 * What the user sees, as a value, and what each callback scheduled with
 * `root.after(0, ...)` does to it. The class in the App module holds these
 * fields and its methods are specified by the functions here.
 */
module Screens {
  import opened Messages
  import opened Entrez
  import opened SummaryText

  /**
   * The widget state the search workflow touches. `progress` is the progress
   * bar's value in percent (the application sets 0, 0.2, 0.5, 0.8 and 1.0);
   * `progressShown` says whether the bar is packed; `info` and `results` are
   * the contents of the two text boxes.
   */
  datatype Screen = Screen(
    searchEnabled: bool,
    searchLabel: string,
    progressShown: bool,
    progress: int,
    status: string,
    info: string,
    results: string,
    copyEnabled: bool,
    saveEnabled: bool)

  /** A callback the worker thread hands to the main loop. */
  datatype UiAction =
    | SetProgress(percent: int)
    | SetStatus(text: string)
    | ShowNoResults(proteinName: string)
    | ShowError(message: string)
    | DisplayResults(summary: Summary, sequence: string)

  /** The three callbacks that end a search. */
  predicate IsTerminal(a: UiAction) {
    a.ShowNoResults? || a.ShowError? || a.DisplayResults?
  }

  /** The search button is usable again and the progress bar is hidden. */
  predicate ReadyForInput(s: Screen) {
    s.searchEnabled && s.searchLabel == SearchLabel && !s.progressShown
  }

  /** The screen `search_protein` leaves behind once the inputs pass validation; it does not depend on what was shown before. */
  const SearchingScreen := Screen(false, SearchingLabel, true, 0, ConnectingStatus, "", "", false, false)

  /** `reset_search_button`. */
  function ResetSearchButton(s: Screen): (r: Screen)
    ensures ReadyForInput(r)
    ensures r.(searchEnabled := s.searchEnabled, searchLabel := s.searchLabel, progressShown := s.progressShown) == s
  {
    s.(searchEnabled := true, searchLabel := SearchLabel, progressShown := false)
  }

  /** `show_no_results`: the message goes in front of whatever the information box holds. */
  function AfterNoResults(s: Screen, proteinName: string): (r: Screen)
    ensures ReadyForInput(r)
    ensures r.copyEnabled == s.copyEnabled && r.saveEnabled == s.saveEnabled
    ensures r.progress == s.progress && r.results == s.results
  {
    ResetSearchButton(s.(status := NoResultsStatus(proteinName), info := NoResultsInfo(proteinName) + s.info))
  }

  /** `show_error` (its message box is returned separately, by `DialogsOf`). */
  function AfterError(s: Screen, message: string): (r: Screen)
    ensures ReadyForInput(r)
    ensures r.copyEnabled == s.copyEnabled && r.saveEnabled == s.saveEnabled
    ensures r.progress == s.progress && r.results == s.results
  {
    ResetSearchButton(s.(status := ErrorStatus, info := "Error: " + message + s.info))
  }

  /**
   * `display_results`. With an empty summary, `summary[0]` raises after both
   * text boxes were cleared; Tk reports the exception and the rest of the
   * callback never runs. Otherwise `current_info` is put in front of the
   * formatted information and the sequence is inserted twice.
   */
  function AfterDisplay(s: Screen, summary: Summary, sequence: string, currentInfo: string): (r: Screen)
    ensures summary == [] ==> r == s.(info := "", results := "")
    ensures summary != [] ==> ReadyForInput(r) && r.copyEnabled && r.saveEnabled && r.progress == s.progress
  {
    if summary == [] then s.(info := "", results := "")
    else
      ResetSearchButton(s.(info := currentInfo + FormatInfo(summary[0]), results := sequence + sequence,
                           status := CompletedStatus, copyEnabled := true, saveEnabled := true))
  }

  /** Running one callback on the main loop. */
  function Apply(s: Screen, a: UiAction, currentInfo: string): Screen {
    match a
    case SetProgress(p) => s.(progress := p)
    case SetStatus(t) => s.(status := t)
    case ShowNoResults(name) => AfterNoResults(s, name)
    case ShowError(message) => AfterError(s, message)
    case DisplayResults(summary, sequence) => AfterDisplay(s, summary, sequence, currentInfo)
  }

  /** Running the callbacks in the order they were scheduled. */
  function ApplyAll(s: Screen, actions: seq<UiAction>, currentInfo: string): Screen
    decreases |actions|
  {
    if actions == [] then s else ApplyAll(Apply(s, actions[0], currentInfo), actions[1..], currentInfo)
  }

  /** The message box a callback opens, if any. */
  function DialogOf(a: UiAction): seq<Dialog> {
    if a.ShowError? then [Dialog(SearchErrorTitle, a.message)] else []
  }

  function DialogsOf(actions: seq<UiAction>): seq<Dialog> {
    if actions == [] then [] else DialogOf(actions[0]) + DialogsOf(actions[1..])
  }

  /** Running two batches of callbacks one after the other is running them together. */
  lemma {:induction false} ApplyAllConcat(s: Screen, a: seq<UiAction>, b: seq<UiAction>, currentInfo: string)
    ensures ApplyAll(s, a + b, currentInfo) == ApplyAll(ApplyAll(s, a, currentInfo), b, currentInfo)
    decreases |a|
  {
    if a == [] {
      assert a + b == b;
    } else {
      assert (a + b)[0] == a[0] && (a + b)[1..] == a[1..] + b;
      ApplyAllConcat(Apply(s, a[0], currentInfo), a[1..], b, currentInfo);
    }
  }

  lemma DialogsOfConcat(a: seq<UiAction>, b: seq<UiAction>)
    ensures DialogsOf(a + b) == DialogsOf(a) + DialogsOf(b)
    decreases |a|
  {
    if a == [] {
      assert a + b == b;
    } else {
      assert (a + b)[1..] == a[1..] + b;
      DialogsOfConcat(a[1..], b);
    }
  }
}
