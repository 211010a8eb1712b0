/**
 * The fixed texts the application shows: button labels, status-line texts,
 * message-box titles and the prefix of the worker's error message. Each is
 * defined once here so that every other module refers to the same literal.
 */
module Messages {

  /** A modal message box: `messagebox.showerror(title, message)`. */
  datatype Dialog = Dialog(title: string, message: string)

  const SearchLabel := "Search Protein"
  const SearchingLabel := "Searching..."

  const ConnectingStatus := "Connecting to NCBI..."
  const SearchingStatus := "Searching protein database..."
  const RetrievingStatus := "Retrieving sequence information..."
  const DownloadingStatus := "Downloading sequence..."
  // The misspellings below are the application's own.
  const CompletedStatus := "Search completed succesfully."
  const ErrorStatus := "Error occured during search"
  const CopiedStatus := "Sequence copied to clipboard!"

  const InputErrorTitle := "Input Error"
  const EmailPrompt := "Please enter your email address."
  const ProteinPrompt := "Please enter a protein name."
  const SearchErrorTitle := "Search Error"

  /** What the worker puts in front of the text of any exception it catches. */
  const ErrorPrefix := "Error searching for protein: "

  function NoResultsStatus(proteinName: string): string {
    "No results were found for '" + proteinName + "'"
  }

  function NoResultsInfo(proteinName: string): string {
    "No protein sequences found for '" + proteinName + "'."
  }
}
