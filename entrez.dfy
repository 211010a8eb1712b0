/**
 * The NCBI Entrez service as the worker sees it: three remote calls, each of
 * which either answers or raises. The wire format and `Entrez.read` parsing
 * are not modelled; a call's reply is the already-parsed value.
 */
module Entrez {

  /** The outcome of one remote call (with the read and close of its handle): a value, or the text of the exception raised. */
  datatype Reply<T> = Ok(value: T) | Failed(cause: string)

  /** One document summary: its fields by name, each already rendered as the text `str()` gives. */
  type Record = map<string, string>

  /** What `Entrez.read` makes of an esummary reply: a list of document summaries. */
  type Summary = seq<Record>

  /**
   * The remote service, as functions of the arguments the worker passes:
   * `esearch(term, retmax)` gives the id list, `esummary(id)` the summary and
   * `efetch(id)` the FASTA text.
   */
  datatype Client = Client(
    esearch: (string, int) -> Reply<seq<string>>,
    esummary: string -> Reply<Summary>,
    efetch: string -> Reply<string>)

  /** A request sent to NCBI, with every argument the application passes. */
  datatype Call =
    | ESearch(db: string, term: string, retmax: int)
    | ESummary(db: string, id: string)
    | EFetch(db: string, id: string, rettype: string, retmode: string)

  const Database := "protein"
  const MaxResults := 5

  function SearchCall(term: string): Call { ESearch(Database, term, MaxResults) }
  function SummaryCall(id: string): Call { ESummary(Database, id) }
  function FetchCall(id: string): Call { EFetch(Database, id, "fasta", "text") }
}
