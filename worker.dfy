/**
 * `perform_search`, the body of the worker thread: which callbacks it
 * schedules on the main loop and which remote calls it makes, for every
 * behaviour of the remote service. The App module's `PerformSearch` method is
 * proved to schedule exactly `Schedule(client, proteinName)`.
 */
module Worker {
  import opened Entrez
  import opened Messages
  import opened Screens
  import opened SummaryText

  /**
   * Every progress callback the worker can schedule, in order: the first two
   * before esearch, the next two before esummary, two more before efetch and
   * the last after efetch has answered.
   */
  const Milestones: seq<UiAction> := [
    SetProgress(20), SetStatus(SearchingStatus),
    SetProgress(50), SetStatus(RetrievingStatus),
    SetProgress(80), SetStatus(DownloadingStatus),
    SetProgress(100)]

  const ProgressSteps: seq<int> := [20, 50, 80, 100]

  /** How far a worker got: how many milestones it scheduled, the callback that ends it, and the calls it made. */
  datatype Run = Run(reached: nat, terminal: UiAction, calls: seq<Call>)

  /** The worker for `proteinName`: each failing call skips the rest and ends in `show_error`. */
  function WorkerRun(client: Client, proteinName: string): (run: Run)
    ensures run.reached <= |Milestones| && IsTerminal(run.terminal)
  {
    var search := SearchCall(proteinName);
    match client.esearch(proteinName, MaxResults)
    case Failed(cause) => Run(2, ShowError(ErrorPrefix + cause), [search])
    case Ok(idList) =>
      if idList == [] then Run(2, ShowNoResults(proteinName), [search])
      else
        var calls := [search, SummaryCall(idList[0])];
        match client.esummary(idList[0])
        case Failed(cause) => Run(4, ShowError(ErrorPrefix + cause), calls)
        case Ok(summary) =>
          match client.efetch(idList[0])
          case Failed(cause) => Run(6, ShowError(ErrorPrefix + cause), calls + [FetchCall(idList[0])])
          case Ok(sequence) => Run(7, DisplayResults(summary, sequence), calls + [FetchCall(idList[0])])
  }

  /** The callbacks the worker schedules, in order. */
  function Schedule(client: Client, proteinName: string): seq<UiAction> {
    var run := WorkerRun(client, proteinName);
    Milestones[..run.reached] + [run.terminal]
  }

  /** All three remote calls answer and the search found at least one id. */
  predicate Found(client: Client, proteinName: string) {
    var found := client.esearch(proteinName, MaxResults);
    found.Ok? && found.value != []
    && client.esummary(found.value[0]).Ok? && client.efetch(found.value[0]).Ok?
  }

  /** The progress values a sequence of callbacks sets, in order. */
  function Progress(actions: seq<UiAction>): seq<int> {
    if actions == [] then []
    else (if actions[0].SetProgress? then [actions[0].percent] else []) + Progress(actions[1..])
  }

  predicate StrictlyIncreasing(xs: seq<int>) {
    forall i, j :: 0 <= i < j < |xs| ==> xs[i] < xs[j]
  }

  lemma {:induction false} ProgressConcat(a: seq<UiAction>, b: seq<UiAction>)
    ensures Progress(a + b) == Progress(a) + Progress(b)
  {
    if a == [] {
      assert a + b == b;
    } else {
      assert (a + b)[0] == a[0] && (a + b)[1..] == a[1..] + b;
      ProgressConcat(a[1..], b);
    }
  }

  /** The first `k` milestones set the first `(k + 1) / 2` progress steps. */
  lemma {:induction false} MilestoneProgress(k: nat)
    requires k <= |Milestones|
    ensures Progress(Milestones[..k]) == ProgressSteps[..(k + 1) / 2]
  {
    if k > 0 {
      MilestoneProgress(k - 1);
      assert Milestones[..k] == Milestones[..k - 1] + [Milestones[k - 1]];
      ProgressConcat(Milestones[..k - 1], [Milestones[k - 1]]);
      assert Progress([Milestones[k - 1]]) ==
        (if Milestones[k - 1].SetProgress? then [Milestones[k - 1].percent] else []) + Progress([]);
      if k % 2 == 1 {
        assert ProgressSteps[..(k + 1) / 2] == ProgressSteps[..(k - 1) / 2] + [ProgressSteps[(k - 1) / 2]];
      }
    }
  }

  /** After the first `k` milestones (k >= 2) only the progress value and the status line have changed. */
  lemma {:induction false} MilestoneScreen(s: Screen, k: nat, currentInfo: string)
    requires 2 <= k <= |Milestones|
    ensures ApplyAll(s, Milestones[..k], currentInfo) ==
            s.(progress := ProgressSteps[(k - 1) / 2],
               status := [SearchingStatus, RetrievingStatus, DownloadingStatus][(k - 2) / 2])
  {
    assert Milestones[..k] == Milestones[..k - 1] + [Milestones[k - 1]];
    ApplyAllConcat(s, Milestones[..k - 1], [Milestones[k - 1]], currentInfo);
    if k == 2 {
      assert Milestones[..1] == [SetProgress(20)];
      assert ApplyAll(s, Milestones[..1], currentInfo) == ApplyAll(s.(progress := 20), [], currentInfo);
    } else {
      MilestoneScreen(s, k - 1, currentInfo);
    }
    var before := ApplyAll(s, Milestones[..k - 1], currentInfo);
    assert ApplyAll(before, [Milestones[k - 1]], currentInfo) == ApplyAll(Apply(before, Milestones[k - 1], currentInfo), [], currentInfo);
  }

  /** The screen once the worker's callbacks have run after `search_protein` started it. */
  function Settled(client: Client, proteinName: string, currentInfo: string): Screen {
    ApplyAll(SearchingScreen, Schedule(client, proteinName), currentInfo)
  }

  lemma SettledFromParts(client: Client, proteinName: string, currentInfo: string)
    ensures var run := WorkerRun(client, proteinName);
            run.reached >= 2 &&
            Settled(client, proteinName, currentInfo) ==
              Apply(ApplyAll(SearchingScreen, Milestones[..run.reached], currentInfo), run.terminal, currentInfo)
  {
    var run := WorkerRun(client, proteinName);
    ApplyAllConcat(SearchingScreen, Milestones[..run.reached], [run.terminal], currentInfo);
    var before := ApplyAll(SearchingScreen, Milestones[..run.reached], currentInfo);
    assert ApplyAll(before, [run.terminal], currentInfo) == ApplyAll(Apply(before, run.terminal, currentInfo), [], currentInfo);
  }

  /**
   * Whatever the service does, the worker schedules exactly one terminal
   * callback and schedules it last, and the progress values before it are a
   * non-empty prefix of 20, 50, 80, 100, so strictly increasing.
   */
  lemma ScheduleShape(client: Client, proteinName: string)
    ensures var s := Schedule(client, proteinName);
            |s| >= 3 && IsTerminal(s[|s| - 1])
            && (forall i :: 0 <= i < |s| - 1 ==> !IsTerminal(s[i]))
            && 0 < |Progress(s)| <= |ProgressSteps| && Progress(s) == ProgressSteps[..|Progress(s)|]
            && StrictlyIncreasing(Progress(s))
  {
    var run := WorkerRun(client, proteinName);
    var s := Schedule(client, proteinName);
    assert forall i :: 0 <= i < |s| - 1 ==> s[i] == Milestones[i];
    TerminalProgress(run.reached, run.terminal);
  }

  /** The progress values of a milestone prefix followed by a terminal callback. */
  lemma TerminalProgress(k: nat, terminal: UiAction)
    requires 2 <= k <= |Milestones| && IsTerminal(terminal)
    ensures Progress(Milestones[..k] + [terminal]) == ProgressSteps[..(k + 1) / 2]
  {
    ProgressConcat(Milestones[..k], [terminal]);
    MilestoneProgress(k);
    assert Progress([terminal]) == [] + Progress([]);
  }

  /**
   * An empty id list, and only that, gives the schedule "progress 20,
   * searching, show_no_results"; then esummary and efetch are never called.
   */
  lemma NoMatchesSchedule(client: Client, proteinName: string)
    ensures client.esearch(proteinName, MaxResults) == Ok([]) <==>
            Schedule(client, proteinName) == [SetProgress(20), SetStatus(SearchingStatus), ShowNoResults(proteinName)]
    ensures client.esearch(proteinName, MaxResults) == Ok([]) ==>
            WorkerRun(client, proteinName).calls == [SearchCall(proteinName)]
  {
    var run := WorkerRun(client, proteinName);
    assert Schedule(client, proteinName)[|Schedule(client, proteinName)| - 1] == run.terminal;
    assert Milestones[..2] == [SetProgress(20), SetStatus(SearchingStatus)];
  }

  /**
   * When every call answers and the id list is not empty, the schedule is all
   * seven milestones (progress 20, 50, 80, 100) then one `display_results`
   * with what esummary and efetch returned, and both used only the first id.
   */
  lemma SuccessSchedule(client: Client, proteinName: string, idList: seq<string>, summary: Summary, sequence: string)
    requires client.esearch(proteinName, MaxResults) == Ok(idList) && idList != []
    requires client.esummary(idList[0]) == Ok(summary) && client.efetch(idList[0]) == Ok(sequence)
    ensures Schedule(client, proteinName) == Milestones + [DisplayResults(summary, sequence)]
    ensures Progress(Schedule(client, proteinName)) == [20, 50, 80, 100]
    ensures WorkerRun(client, proteinName).calls ==
            [SearchCall(proteinName), SummaryCall(idList[0]), FetchCall(idList[0])]
  {
    assert Milestones[..7] == Milestones;
    TerminalProgress(7, DisplayResults(summary, sequence));
  }

  /** `display_results` is scheduled exactly when all three calls answer with a non-empty id list. */
  lemma DisplayOnlyWhenFound(client: Client, proteinName: string)
    ensures var s := Schedule(client, proteinName);
            (exists i :: 0 <= i < |s| && s[i].DisplayResults?) <==> Found(client, proteinName)
  {
    var s := Schedule(client, proteinName);
    ScheduleShape(client, proteinName);
    assert s[|s| - 1] == WorkerRun(client, proteinName).terminal;
  }

  /**
   * A call that fails stops the worker there: the milestones of the later
   * steps are not scheduled, no `display_results` is, and the one
   * `show_error` carries "Error searching for protein: " and the cause.
   */
  lemma FailureSchedule(client: Client, proteinName: string)
    ensures var found := client.esearch(proteinName, MaxResults);
            found.Failed? ==>
              Schedule(client, proteinName) == Milestones[..2] + [ShowError(ErrorPrefix + found.cause)]
              && Progress(Schedule(client, proteinName)) == [20]
              && WorkerRun(client, proteinName).calls == [SearchCall(proteinName)]
    ensures var found := client.esearch(proteinName, MaxResults);
            found.Ok? && found.value != [] && client.esummary(found.value[0]).Failed? ==>
              Schedule(client, proteinName) ==
                Milestones[..4] + [ShowError(ErrorPrefix + client.esummary(found.value[0]).cause)]
              && Progress(Schedule(client, proteinName)) == [20, 50]
              && WorkerRun(client, proteinName).calls == [SearchCall(proteinName), SummaryCall(found.value[0])]
    ensures var found := client.esearch(proteinName, MaxResults);
            found.Ok? && found.value != [] && client.esummary(found.value[0]).Ok?
            && client.efetch(found.value[0]).Failed? ==>
              Schedule(client, proteinName) ==
                Milestones[..6] + [ShowError(ErrorPrefix + client.efetch(found.value[0]).cause)]
              && Progress(Schedule(client, proteinName)) == [20, 50, 80]
              && WorkerRun(client, proteinName).calls ==
                   [SearchCall(proteinName), SummaryCall(found.value[0]), FetchCall(found.value[0])]
    ensures var s := Schedule(client, proteinName);
            s[|s| - 1].ShowError? <==> !Found(client, proteinName) && client.esearch(proteinName, MaxResults) != Ok([])
  {
    var run := WorkerRun(client, proteinName);
    TerminalProgress(run.reached, run.terminal);
  }

  /** No milestone opens a message box. */
  lemma {:induction false} MilestoneDialogs(k: nat)
    requires k <= |Milestones|
    ensures DialogsOf(Milestones[..k]) == []
  {
    if k > 0 {
      MilestoneDialogs(k - 1);
      assert Milestones[..k] == Milestones[..k - 1] + [Milestones[k - 1]];
      DialogsOfConcat(Milestones[..k - 1], [Milestones[k - 1]]);
      assert DialogsOf([Milestones[k - 1]]) == DialogOf(Milestones[k - 1]) + DialogsOf([]);
    }
  }

  /**
   * A search opens a message box only when it ends in `show_error`, and then
   * exactly one: "Search Error" with the worker's message.
   */
  lemma SearchDialogs(client: Client, proteinName: string)
    ensures var run := WorkerRun(client, proteinName);
            DialogsOf(Schedule(client, proteinName)) ==
              if run.terminal.ShowError? then [Dialog(SearchErrorTitle, run.terminal.message)] else []
  {
    var run := WorkerRun(client, proteinName);
    MilestoneDialogs(run.reached);
    DialogsOfConcat(Milestones[..run.reached], [run.terminal]);
  }

  /** No match: the button is back, the bar hidden at 20, and the information box holds only the message. */
  lemma NoMatchesSettles(client: Client, proteinName: string, currentInfo: string)
    requires client.esearch(proteinName, MaxResults) == Ok([])
    ensures Settled(client, proteinName, currentInfo) ==
            Screen(true, SearchLabel, false, 20, NoResultsStatus(proteinName), NoResultsInfo(proteinName), "", false, false)
  {
    SettledFromParts(client, proteinName, currentInfo);
    MilestoneScreen(SearchingScreen, 2, currentInfo);
  }

  /**
   * A failed call: the button is back, the bar hidden at the last step
   * reached, the information box holds "Error: " and the worker's message,
   * and copy and save stay disabled.
   */
  lemma FailureSettles(client: Client, proteinName: string, currentInfo: string)
    requires WorkerRun(client, proteinName).terminal.ShowError?
    ensures var run := WorkerRun(client, proteinName);
            var p := Progress(Schedule(client, proteinName));
            Settled(client, proteinName, currentInfo) ==
              Screen(true, SearchLabel, false, p[|p| - 1], ErrorStatus, "Error: " + run.terminal.message, "", false, false)
            && p[|p| - 1] < 100
  {
    var run := WorkerRun(client, proteinName);
    SettledFromParts(client, proteinName, currentInfo);
    MilestoneScreen(SearchingScreen, run.reached, currentInfo);
    TerminalProgress(run.reached, run.terminal);
  }

  /**
   * Success: the button is back, the bar hidden at 100, the information box
   * holds `current_info` then the formatted first summary, the results box
   * holds the sequence twice, and copy and save are enabled.
   */
  lemma SuccessSettles(client: Client, proteinName: string, currentInfo: string,
                       idList: seq<string>, summary: Summary, sequence: string)
    requires client.esearch(proteinName, MaxResults) == Ok(idList) && idList != []
    requires client.esummary(idList[0]) == Ok(summary) && client.efetch(idList[0]) == Ok(sequence)
    requires summary != []
    ensures Settled(client, proteinName, currentInfo) ==
            Screen(true, SearchLabel, false, 100, CompletedStatus,
                   currentInfo + FormatInfo(summary[0]), sequence + sequence, true, true)
  {
    SettledFromParts(client, proteinName, currentInfo);
    MilestoneScreen(SearchingScreen, 7, currentInfo);
  }

  /**
   * An empty summary list: `display_results` raises after clearing both text
   * boxes, so the search button stays disabled and the bar stays shown.
   */
  lemma EmptySummaryStalls(client: Client, proteinName: string, currentInfo: string,
                           idList: seq<string>, sequence: string)
    requires client.esearch(proteinName, MaxResults) == Ok(idList) && idList != []
    requires client.esummary(idList[0]) == Ok([]) && client.efetch(idList[0]) == Ok(sequence)
    ensures Settled(client, proteinName, currentInfo) ==
            Screen(false, SearchingLabel, true, 100, DownloadingStatus, "", "", false, false)
  {
    SettledFromParts(client, proteinName, currentInfo);
    MilestoneScreen(SearchingScreen, 7, currentInfo);
  }

  /**
   * Every outcome but an empty summary list gives the user the search button
   * back, and copy and save are enabled exactly after a search that displayed
   * a result.
   */
  lemma SearchSettles(client: Client, proteinName: string, currentInfo: string)
    ensures var run := WorkerRun(client, proteinName);
            var final := Settled(client, proteinName, currentInfo);
            (ReadyForInput(final) <==> !(run.terminal.DisplayResults? && run.terminal.summary == []))
            && (final.copyEnabled <==> Found(client, proteinName) && run.terminal.summary != [])
            && (final.saveEnabled <==> final.copyEnabled)
  {
    var run := WorkerRun(client, proteinName);
    var found := client.esearch(proteinName, MaxResults);
    if run.terminal.ShowError? {
      FailureSettles(client, proteinName, currentInfo);
    } else if run.terminal.ShowNoResults? {
      NoMatchesSettles(client, proteinName, currentInfo);
    } else {
      var summary, sequence := client.esummary(found.value[0]).value, client.efetch(found.value[0]).value;
      if summary == [] {
        EmptySummaryStalls(client, proteinName, currentInfo, found.value, sequence);
      } else {
        SuccessSettles(client, proteinName, currentInfo, found.value, summary, sequence);
      }
    }
  }
}
