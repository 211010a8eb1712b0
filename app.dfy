/**
 * `ProteinSearchApp` with its widgets reduced to the state the search
 * workflow reads and writes. `pending` is the main loop's queue of callbacks
 * scheduled with `root.after(0, ...)`; `Step` runs the first of them and
 * `ProcessPending` runs them all, as the main loop does when idle.
 */
module App {
  import opened Strings
  import opened Optional
  import opened Messages
  import opened Entrez
  import opened Validation
  import opened SummaryText
  import opened SaveFormat
  import opened Screens
  import opened Worker

  /** What `search_protein` did: refused with a message box, or started the worker thread with these arguments. */
  datatype SearchStart = Refused(dialog: Dialog) | Launched(email: string, proteinName: string)

  class ProteinSearchApp {
    // The two entry fields, as the user typed them.
    var emailEntry: string
    var proteinEntry: string

    // The widgets the workflow updates (see Screens.Screen).
    var searchEnabled: bool
    var searchLabel: string
    var progressShown: bool
    var progress: int
    var status: string
    var info: string
    var results: string
    var copyEnabled: bool
    var saveEnabled: bool

    // Set once in the constructor and never reassigned anywhere.
    var currentSequence: string
    var currentInfo: string

    // Callbacks scheduled on the main loop, oldest first.
    var pending: seq<UiAction>
    // `Entrez.email`, the contact address Biopython sends with every request.
    var entrezEmail: Option<string>

    function View(): Screen
      reads this
    {
      Screen(searchEnabled, searchLabel, progressShown, progress, status, info, results, copyEnabled, saveEnabled)
    }

    /** The stored sequence and information stay empty for the application's whole life. */
    ghost predicate Valid()
      reads this
    {
      currentSequence == "" && currentInfo == ""
    }

    /**
     * The state after `__init__` and `setup_ui`: search enabled, progress bar
     * packed, copy and save disabled, both text boxes and the status line
     * empty. The bar's starting value is the widget library's default, given
     * here as `initialProgress`.
     */
    constructor (initialProgress: int)
      ensures Valid()
      ensures View() == Screen(true, SearchLabel, true, initialProgress, "", "", "", false, false)
      ensures emailEntry == "" && proteinEntry == "" && pending == [] && entrezEmail == None
    {
      emailEntry, proteinEntry := "", "";
      searchEnabled, searchLabel := true, SearchLabel;
      progressShown, progress := true, initialProgress;
      status, info, results := "", "", "";
      copyEnabled, saveEnabled := false, false;
      currentSequence, currentInfo := "", "";
      pending := [];
      entrezEmail := None;
    }

    /**
     * `search_protein`: on invalid input, a message box and no other change;
     * otherwise the searching screen and a worker started with the stripped
     * email and protein name. Nothing checks the button state, so the Return
     * key binding can start a second search while one is running.
     */
    method SearchProtein() returns (start: SearchStart)
      modifies this`searchEnabled, this`searchLabel, this`progressShown, this`progress, this`status,
               this`info, this`results, this`copyEnabled, this`saveEnabled
      ensures var verdict := ValidateInputs(emailEntry, proteinEntry);
              verdict.Rejected? ==> start == Refused(InputErrorDialog(verdict.error)) && View() == old(View())
      ensures ValidateInputs(emailEntry, proteinEntry).Accepted? ==>
              start == Launched(Strip(emailEntry), Strip(proteinEntry)) && View() == SearchingScreen
    {
      var verdict := ValidateInputs(emailEntry, proteinEntry);
      if verdict.Rejected? {
        return Refused(InputErrorDialog(verdict.error));
      }
      ShowSearching();
      start := Launched(Strip(emailEntry), Strip(proteinEntry));
    }

    /** The part of `search_protein` that updates the widgets before the worker starts. */
    method ShowSearching()
      modifies this`searchEnabled, this`searchLabel, this`progressShown, this`progress, this`status,
               this`info, this`results, this`copyEnabled, this`saveEnabled
      ensures View() == SearchingScreen
    {
      searchEnabled, searchLabel := false, SearchingLabel;
      progressShown := true;
      progress := 0;
      status := ConnectingStatus;
      info := "";
      results := "";
      copyEnabled := false;
      saveEnabled := false;
    }

    /**
     * `perform_search` on the worker thread: it only sets `Entrez.email` and
     * schedules callbacks, exactly those of `Worker.Schedule`, and makes the
     * remote calls `Worker.WorkerRun` lists.
     */
    method PerformSearch(client: Client, email: string, proteinName: string) returns (calls: seq<Call>)
      modifies this`pending, this`entrezEmail
      ensures entrezEmail == Some(email)
      ensures pending == old(pending) + Schedule(client, proteinName)
      ensures calls == WorkerRun(client, proteinName).calls
    {
      entrezEmail := Some(email);
      pending := pending + [SetProgress(20), SetStatus(SearchingStatus)];
      calls := [SearchCall(proteinName)];
      var found := client.esearch(proteinName, MaxResults);
      if found.Failed? {
        pending := pending + [UiAction.ShowError(ErrorPrefix + found.cause)];
        assert Milestones[..2] == [SetProgress(20), SetStatus(SearchingStatus)];
        return;
      }
      var idList := found.value;
      if idList == [] {
        pending := pending + [UiAction.ShowNoResults(proteinName)];
        assert Milestones[..2] == [SetProgress(20), SetStatus(SearchingStatus)];
        return;
      }

      pending := pending + [SetProgress(50), SetStatus(RetrievingStatus)];
      calls := calls + [SummaryCall(idList[0])];
      var summary := client.esummary(idList[0]);
      if summary.Failed? {
        pending := pending + [UiAction.ShowError(ErrorPrefix + summary.cause)];
        assert Milestones[..4] == [SetProgress(20), SetStatus(SearchingStatus), SetProgress(50), SetStatus(RetrievingStatus)];
        return;
      }

      pending := pending + [SetProgress(80), SetStatus(DownloadingStatus)];
      calls := calls + [FetchCall(idList[0])];
      var sequence := client.efetch(idList[0]);
      if sequence.Failed? {
        pending := pending + [UiAction.ShowError(ErrorPrefix + sequence.cause)];
        assert Milestones[..6] == Milestones[..4] + [SetProgress(80), SetStatus(DownloadingStatus)];
        return;
      }

      pending := pending + [SetProgress(100)];
      pending := pending + [UiAction.DisplayResults(summary.value, sequence.value)];
      assert Milestones[..7] == Milestones;
    }

    /** `reset_search_button`. */
    method ResetSearchButton()
      modifies this`searchEnabled, this`searchLabel, this`progressShown
      ensures View() == Screens.ResetSearchButton(old(View()))
    {
      searchEnabled, searchLabel := true, SearchLabel;
      progressShown := false;
    }

    /** `show_no_results`. */
    method ShowNoResults(proteinName: string)
      modifies this`status, this`info, this`searchEnabled, this`searchLabel, this`progressShown
      ensures View() == AfterNoResults(old(View()), proteinName)
    {
      status := NoResultsStatus(proteinName);
      info := NoResultsInfo(proteinName) + info;
      ResetSearchButton();
    }

    /** `show_error`; the message box it opens is returned. */
    method ShowError(message: string) returns (dialog: Dialog)
      modifies this`status, this`info, this`searchEnabled, this`searchLabel, this`progressShown
      ensures View() == AfterError(old(View()), message)
      ensures dialog == Dialog(SearchErrorTitle, message)
    {
      status := ErrorStatus;
      info := "Error: " + message + info;
      dialog := Dialog(SearchErrorTitle, message);
      ResetSearchButton();
    }

    /** `display_results`; an empty summary list ends it at `summary[0]`, after the text boxes were cleared. */
    method DisplayResults(summary: Summary, sequence: string)
      modifies this`status, this`info, this`results, this`copyEnabled, this`saveEnabled,
               this`searchEnabled, this`searchLabel, this`progressShown
      ensures View() == AfterDisplay(old(View()), summary, sequence, currentInfo)
    {
      info := "";
      results := "";
      if summary == [] {
        return;
      }
      ShowRecord(summary[0], sequence);
    }

    /** The rest of `display_results`, once both text boxes are empty and the first summary record is at hand. */
    method ShowRecord(record: Record, sequence: string)
      requires info == "" && results == ""
      modifies this`status, this`info, this`results, this`copyEnabled, this`saveEnabled,
               this`searchEnabled, this`searchLabel, this`progressShown
      ensures View() == Screens.ResetSearchButton(old(View()).(info := currentInfo + FormatInfo(record),
                results := sequence + sequence, status := CompletedStatus, copyEnabled := true, saveEnabled := true))
    {
      var formatted := FormatInfo(record);
      info := info + formatted;
      results := results + sequence;
      info := currentInfo + info;
      results := sequence + results;
      assert info == currentInfo + formatted by {
        assert "" + formatted == formatted;
      }
      assert results == sequence + sequence by {
        assert "" + sequence == sequence;
      }
      status := CompletedStatus;
      copyEnabled := true;
      saveEnabled := true;
      ResetSearchButton();
    }

    /** One turn of the main loop: run the oldest scheduled callback, if there is one. */
    method Step() returns (shown: seq<Dialog>)
      modifies this`pending, this`searchEnabled, this`searchLabel, this`progressShown, this`progress,
               this`status, this`info, this`results, this`copyEnabled, this`saveEnabled
      ensures old(pending) == [] ==> pending == [] && View() == old(View()) && shown == []
      ensures old(pending) != [] ==>
                pending == old(pending)[1..]
                && View() == Apply(old(View()), old(pending)[0], currentInfo)
                && shown == DialogOf(old(pending)[0])
    {
      shown := [];
      if pending == [] {
        return;
      }
      var action := pending[0];
      pending := pending[1..];
      match action
      case SetProgress(p) =>
        progress := p;
      case SetStatus(text) =>
        status := text;
      case ShowNoResults(name) =>
        ShowNoResults(name);
      case ShowError(message) =>
        var dialog := ShowError(message);
        shown := [dialog];
      case DisplayResults(summary, sequence) =>
        DisplayResults(summary, sequence);
    }

    /** The main loop running every scheduled callback, in order, until none is left. */
    method ProcessPending() returns (shown: seq<Dialog>)
      modifies this`pending, this`searchEnabled, this`searchLabel, this`progressShown, this`progress,
               this`status, this`info, this`results, this`copyEnabled, this`saveEnabled
      ensures pending == []
      ensures View() == ApplyAll(old(View()), old(pending), currentInfo)
      ensures shown == DialogsOf(old(pending))
    {
      shown := [];
      while pending != []
        invariant ApplyAll(View(), pending, currentInfo) == ApplyAll(old(View()), old(pending), currentInfo)
        invariant shown + DialogsOf(pending) == DialogsOf(old(pending))
        decreases |pending|
      {
        ghost var before, queued := View(), pending;
        var more := Step();
        assert ApplyAll(before, queued, currentInfo) == ApplyAll(View(), pending, currentInfo);
        assert DialogsOf(queued) == more + DialogsOf(pending);
        shown := shown + more;
      }
    }

    /**
     * The rest of a search the user started with valid input: the worker
     * thread, then the main loop until no callback is left, then a press on
     * Copy. Nothing in the application ever stores the sequence, so a search
     * that displays a result leaves Copy and Save enabled with nothing to
     * copy or save.
     */
    method SearchThenCopy(client: Client, email: string, proteinName: string) returns (clipboard: Option<string>)
      requires Valid() && pending == [] && View() == SearchingScreen
      modifies this`pending, this`entrezEmail, this`searchEnabled, this`searchLabel, this`progressShown,
               this`progress, this`status, this`info, this`results, this`copyEnabled, this`saveEnabled
      ensures Valid() && pending == [] && entrezEmail == Some(email) && clipboard == None
      ensures View() == Settled(client, proteinName, currentInfo)
      ensures Found(client, proteinName) && WorkerRun(client, proteinName).terminal.summary != [] ==>
                copyEnabled && saveEnabled
    {
      var calls := PerformSearch(client, email, proteinName);
      assert pending == Schedule(client, proteinName);
      var shown := ProcessPending();
      SearchSettles(client, proteinName, currentInfo);
      ghost var settled := View();
      clipboard := CopySequence();
      assert View() == settled;
    }

    /** `copy_sequence`: the clipboard receives the stored sequence, unless it is empty. */
    method CopySequence() returns (clipboard: Option<string>)
      modifies this`status
      ensures currentSequence == "" ==> clipboard == None && status == old(status)
      ensures currentSequence != "" ==> clipboard == Some(currentSequence) && status == CopiedStatus
    {
      clipboard := None;
      if currentSequence != "" {
        clipboard := Some(currentSequence);
        status := CopiedStatus;
      }
    }

    /**
     * `save_sequence`. With no stored sequence it returns at once. Otherwise it
     * computes the suggested file name and passes it to `asksaveasfilename`
     * as the option `initialfilename`, which Tk does not know: the call raises
     * a `TclError` before the `try` block, Tk reports it, no dialog opens,
     * nothing is written and the status line keeps its text.
     */
    method SaveSequence() returns (suggested: Option<string>, raised: bool)
      ensures currentSequence == "" ==> suggested == None && !raised
      ensures currentSequence != "" ==> suggested == Some(DefaultFilename(proteinEntry)) && raised
    {
      if currentSequence == "" {
        return None, false;
      }
      suggested := Some(DefaultFilename(proteinEntry));
      raised := true;
    }
  }
}
