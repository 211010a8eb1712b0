# Protein Sequence Finder: the search workflow

`Protein_app.py` is a desktop application. The user types an email address and a
protein name, presses Search, and the application asks NCBI's Entrez service
for the first matching protein. It shows the protein's summary and its FASTA
sequence, and it offers Copy and Save buttons.

This project models the part of `ProteinSearchApp` that decides what happens
during a search, and proves what the user can rely on:

- **Input validation** (`validate_inputs`). Three guard clauses run in a fixed
  order on the stripped entries. Python's `str.strip()` is modelled with the
  full set of code points for which `str.isspace()` holds.
- **Starting a search** (`search_protein`). It either refuses with an "Input
  Error" message box and changes nothing, or it shows the searching screen and
  starts the worker with the stripped email and protein name.
- **The worker** (`perform_search`). It appends callbacks to the main loop's
  queue: progress and status updates, then exactly one of `show_no_results`,
  `show_error` and `display_results`. The three Entrez calls go to an abstract
  client, and any call may fail with a cause.
  - `Worker.WorkerRun` and `Worker.Schedule` are the reference definition.
  - `App.ProteinSearchApp.PerformSearch` is the step-by-step method, proved to
    append exactly that schedule.
- **The main loop's callbacks** (`show_no_results`, `show_error`,
  `display_results`, `reset_search_button`). Each is a method on the
  application object, specified by a function on a `Screen` snapshot of the
  widgets. `ProcessPending` runs the queue in order.
- **The strings of `display_results` and `save_sequence`**:
  - the information text, with "N/A" for missing fields;
  - the suggested file name;
  - the file contents.

  The information text and the file contents each have a reader that gives
  their parts back, with a round-trip lemma. The file name is described
  character by character: `replace` maps a space and an existing '_' to the
  same character, so no reader can give the name back.
- **The Copy and Save guards.**

The model follows the code as written where the code does something
surprising:

- An email is rejected when it lacks an '@' or when it lacks a '.'. A lacking
  '.' alone is enough.
- `current_sequence` and `current_info` are set to "" in `__init__` and never
  assigned again. The Copy and Save guards therefore always take the early
  exit, even after a successful search has enabled both buttons.
  `App.ProteinSearchApp.SearchThenCopy` states this for a whole search.
- Were a sequence ever stored, `save_sequence` would still save nothing. It
  passes `initialfilename` to `asksaveasfilename`, an option Tk rejects, and
  the resulting error is raised before the `try` block. `SaveSequence`
  models that raise.
- `display_results` inserts the sequence into the results box twice. It also
  puts the empty `current_info` in front of the information text.
- `show_no_results` and `show_error` insert their message at the start of the
  information box, in front of what is already there.
- An empty summary list makes `display_results` raise at `summary[0]`. This
  happens after both text boxes were cleared. The rest of the callback never
  runs, so the search button stays disabled and the progress bar stays shown.
  `Worker.EmptySummaryStalls` states the resulting screen.
- Nothing checks the search button's state before a search starts. The Return
  key binding can start a second search while one is running. No mechanism
  discards a stale worker's callbacks.

## Model

| member | source | states |
|---|---|---|
| Strings.StripMiddle | Protein_app.py:246-247 | the stripped text is the slice of the entry between a whitespace run at its start and a whitespace run at its end, and (by `Strip`'s contract) starts and ends with a character that is not whitespace |
| Strings.StripEmptyIff | Protein_app.py:250 | `not email.strip()` holds exactly when the entry holds only whitespace |
| Strings.StripKeepsNonWhitespace | Protein_app.py:253 | stripping keeps '@' and '.' in the text exactly when the raw entry has them |
| Strings.ReplaceChar | Protein_app.py:412 | `replace` of one character by one character keeps the length and changes exactly the occurrences; replacing by text without that character leaves none |
| Validation.ValidateInputs | Protein_app.py:244-259 | an empty email is reported first; a non-empty email lacking '@' or '.' next; an empty protein name only after both; the inputs pass exactly when the email has both and the name is not blank, each an if-and-only-if on the raw entries |
| Validation.InputErrorDialog | Protein_app.py:249-258 | every refusal shows "Input Error"; both email checks show "Please enter your email address." and the protein check shows "Please enter a protein name." |
| App.ProteinSearchApp.constructor | Protein_app.py:27-215 | the application starts with nothing stored (lines 28-29), the search button enabled and labelled "Search Protein" (line 101), the progress bar packed (line 150), an empty status line (line 154), empty text boxes, copy and save disabled (lines 214-215) and an empty queue |
| App.ProteinSearchApp.SearchProtein | Protein_app.py:263-292 | refused input gives the message box of the first failed check and no widget change; accepted input gives the searching screen and starts the worker with the stripped email and name |
| App.ProteinSearchApp.ShowSearching | Protein_app.py:272-281 | the button is disabled and labelled "Searching...", the bar is shown at 0, the status reads "Connecting to NCBI...", both boxes are empty, and copy and save are disabled |
| Worker.WorkerRun | Protein_app.py:299-338 | the worker reaches at most all seven milestones and ends in one of the three terminal callbacks |
| App.ProteinSearchApp.PerformSearch | Protein_app.py:299-338 | sets the Entrez contact email, appends exactly `Worker.Schedule` to the queue, and makes exactly the remote calls of `Worker.WorkerRun` |
| Worker.ScheduleShape | Protein_app.py:303-338 | whatever the service answers, the schedule ends with its only terminal callback, and its progress values are a non-empty prefix of 20, 50, 80, 100, strictly increasing |
| Worker.NoMatchesSchedule | Protein_app.py:303-314 | an empty id list, and only that, gives progress 20, "Searching protein database...", `show_no_results(name)`, with esearch the only remote call |
| Worker.SuccessSchedule | Protein_app.py:303-334 | when every call answers and ids were found, the schedule is progress 20, 50, 80, 100 with their status texts, then one `display_results` with the summary and sequence; esummary and efetch get only the first id |
| Worker.DisplayOnlyWhenFound | Protein_app.py:312-334 | `display_results` is scheduled exactly when esearch found ids and esummary and efetch both answered |
| Worker.FailureSchedule | Protein_app.py:300-338 | a call that fails schedules no milestone of a later step, makes no later remote call, and ends in one `show_error` carrying "Error searching for protein: " and the cause; `show_error` ends the schedule exactly when the search neither succeeded nor found nothing |
| Screens.ResetSearchButton | Protein_app.py:391-394 | the search button is enabled and labelled "Search Protein", the bar is hidden, and nothing else changes |
| Screens.AfterNoResults | Protein_app.py:344-348 | ends ready for input, leaving progress, results, copy and save as they were |
| Screens.AfterError | Protein_app.py:350-355 | ends ready for input, leaving progress, results, copy and save as they were |
| Screens.AfterDisplay | Protein_app.py:357-389 | an empty summary list only clears both boxes; otherwise ready for input with copy and save enabled and progress kept |
| Screens.ApplyAllConcat | Protein_app.py:432-433 | running two batches of queued callbacks one after the other is running them as one batch |
| App.ProteinSearchApp.ResetSearchButton | Protein_app.py:391-394 | the widget state becomes `Screens.ResetSearchButton` of the previous one |
| App.ProteinSearchApp.ShowNoResults | Protein_app.py:344-348 | the widget state becomes `Screens.AfterNoResults` of the previous one |
| App.ProteinSearchApp.ShowError | Protein_app.py:350-355 | the widget state becomes `Screens.AfterError` of the previous one, and the "Search Error" box shows the message |
| App.ProteinSearchApp.DisplayResults | Protein_app.py:357-389 | the widget state becomes `Screens.AfterDisplay` of the previous one, including the stop at `summary[0]` |
| App.ProteinSearchApp.ShowRecord | Protein_app.py:365-389 | from two empty boxes: the information is `current_info` then the formatted record, the results are the sequence twice, the status reads "Search completed succesfully.", copy and save are enabled, and the button is reset |
| App.ProteinSearchApp.Step | Protein_app.py:432-433 | one turn of the main loop removes the oldest callback and applies it; an empty queue changes nothing |
| App.ProteinSearchApp.ProcessPending | Protein_app.py:432-433 | the main loop empties the queue, the widgets end as `Screens.ApplyAll` of the queue, and the message boxes shown are those of its `show_error` callbacks, in order |
| Worker.NoMatchesSettles | Protein_app.py:344-348 | after no match the button is back, the bar is hidden at 20, and the information box holds only the no-results message |
| Worker.FailureSettles | Protein_app.py:350-355 | after a failure the button is back, the bar is hidden below 100 at the last step reached, the information box holds "Error: " and the message, and copy and save stay disabled |
| Worker.SuccessSettles | Protein_app.py:357-389 | after success the bar is hidden at 100, the information box holds `current_info` then the formatted first record, the results box holds the sequence twice, and copy and save are enabled |
| Worker.EmptySummaryStalls | Protein_app.py:362-365 | with an empty summary list the button stays disabled and labelled "Searching...", the bar stays shown at 100, and both boxes are empty |
| Worker.SearchDialogs | Protein_app.py:350-355 | a search opens a message box only when it ends in `show_error`, and then exactly one, titled "Search Error" with the worker's message |
| Worker.SearchSettles | Protein_app.py:344-394 | every outcome but an empty summary list returns the search button; copy is enabled exactly after a search that displayed a record, and save exactly when copy is |
| SummaryText.InfoRoundTrip | Protein_app.py:368-374 | when no value holds a newline, the information text is four labelled lines that read back as the record's Title, Organism, Length and AccessionVersion, each "N/A" when missing |
| SaveFormat.DefaultFilename | Protein_app.py:411-412 | the suggested name is the stripped protein name with every space made '_' and nothing else changed, followed by "_sequence.fasta"; it holds no space |
| SaveFormat.CommentOutCommented | Protein_app.py:423 | after the replacement every newline of the information text is followed by '#' |
| SaveFormat.UncommentCommentOut | Protein_app.py:423 | removing the '#' after each newline gives back the information text |
| SaveFormat.SaveRoundTrip | Protein_app.py:423-424 | the written file splits back at its first blank line into the header plus information, which is recovered exactly, and the sequence verbatim |
| App.ProteinSearchApp.CopySequence | Protein_app.py:399-404 | with no stored sequence nothing reaches the clipboard and the status is unchanged; otherwise the clipboard gets the sequence and the status says so |
| App.ProteinSearchApp.SaveSequence | Protein_app.py:406-418 | with no stored sequence it returns at once and raises nothing; otherwise it computes the default file name and the `asksaveasfilename` call raises, so no dialog opens, nothing is written and nothing else changes |
| App.ProteinSearchApp.SearchThenCopy | Protein_app.py:399-401 | from the searching screen with nothing stored (`Valid`), the worker and the main loop end in `Worker.Settled`; a search that displayed a record enables copy and save, yet Copy still yields nothing and nothing is stored afterwards either |

## Left out

- Widget construction and layout (`setup_ui`, `set_example`, the window set-up in `__init__`): GUI plumbing with no workflow logic.
- Threads and the Tk event loop: the worker runs to completion as one sequential step. Its callbacks wait in a queue until `ProcessPending` or `Step` runs them. Interleavings of a running worker with user input are not modelled.
- Entrez and Biopython: `esearch`, `esummary`, `efetch` and `Entrez.read` are a `Client` value of three functions that answer or fail with a cause. Summary records are maps from field names to the strings Python would format.
- Progress values are whole percentages: 0, 20, 50, 80 and 100 stand for 0, 0.2, 0.5, 0.8 and 1.0.
- The progress bar's value before the first search is the widget library's default. The source does not set it, so the constructor takes it as a parameter.
- Tk text boxes hold a trailing newline of their own. The model's text boxes hold only what the application inserted.
- Message boxes are returned as `Dialog` values. The clipboard is the returned `Option`.
- The `initialfilename` option of `asksaveasfilename` is not an option Tk accepts, so the call raises a `TclError` that Tk reports. `SaveSequence` returns that it raised; the error's text is not modelled. The file dialog, the write and the "Save Error" box after it (lines 420-427) are never reached. `SaveFormat.SaveText` is the text lines 423-424 would write, and `SaveFormat.SaveRoundTrip` is proved about it.
- `str(e)` of an exception is the cause string the client returns.
- The `ImportError` handling in the `__main__` block: start-up plumbing.
- App.ProteinSearchApp.SearchThenCopy: starts from the searching screen rather than from the Search press, so the validation step is covered by `SearchProtein` separately.
