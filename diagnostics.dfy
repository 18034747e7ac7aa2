/** The Terraform plugin SDK's diagnostics, as the provider's read and create functions return them. */
module Diagnostics {

  datatype Severity = Error | Warning

  datatype Diagnostic = Diagnostic(severity: Severity, summary: string, detail: string)

  /** diag.FromErr(err) for a non-nil error: one error diagnostic carrying the error's text. */
  function FromErr(message: string): (diags: seq<Diagnostic>)
    ensures |diags| == 1 && diags[0].severity == Error && diags[0].summary == message
  {
    [Diagnostic(Error, message, "")]
  }
}
