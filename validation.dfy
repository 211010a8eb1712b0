/**
 * `validate_inputs`: three guard clauses over the two entry fields, checked in
 * a fixed order, the first failure deciding which message box appears.
 */
module Validation {
  import opened Strings
  import opened Messages

  datatype InputError = EmptyEmail | MalformedEmail | EmptyProteinName

  datatype Verdict = Accepted | Rejected(error: InputError)

  /**
   * The verdict on the raw contents of the email and protein-name entries.
   * Both are stripped first; the email must then be non-empty and contain both
   * an '@' and a '.'; only after that is the protein name checked.
   */
  function ValidateInputs(emailEntry: string, proteinEntry: string): (v: Verdict)
    ensures v == Rejected(EmptyEmail) <==> AllWhitespace(emailEntry)
    ensures v == Rejected(MalformedEmail) <==>
              !AllWhitespace(emailEntry) && ('@' !in emailEntry || '.' !in emailEntry)
    ensures v == Rejected(EmptyProteinName) <==>
              '@' in emailEntry && '.' in emailEntry && AllWhitespace(proteinEntry)
    ensures v == Accepted <==>
              '@' in emailEntry && '.' in emailEntry && !AllWhitespace(proteinEntry)
  {
    var email := Strip(emailEntry);
    var proteinName := Strip(proteinEntry);
    StripEmptyIff(emailEntry);
    StripEmptyIff(proteinEntry);
    StripKeepsNonWhitespace(emailEntry, '@');
    StripKeepsNonWhitespace(emailEntry, '.');
    if email == [] then Rejected(EmptyEmail)
    else if '@' !in email || '.' !in email then Rejected(MalformedEmail)
    else if proteinName == [] then Rejected(EmptyProteinName)
    else Accepted
  }

  /** The message box each failed check raises; both email checks show the same prompt. */
  function InputErrorDialog(e: InputError): (d: Dialog)
    ensures d.title == InputErrorTitle
    ensures d.message == EmailPrompt <==> !e.EmptyProteinName?
    ensures e.EmptyProteinName? ==> d.message == ProteinPrompt
  {
    match e
    case EmptyEmail => Dialog(InputErrorTitle, EmailPrompt)
    case MalformedEmail => Dialog(InputErrorTitle, EmailPrompt)
    case EmptyProteinName => Dialog(InputErrorTitle, ProteinPrompt)
  }
}
