/**
  The interface every reference checker implements
  (lib/packwerk/reference_checking/checkers/checker.rb): the shared help
  footer and the default violation level. The abstract operations
  `violation_type`, `invalid_reference?` and `message` are the cases of
  `Checkers.Checker`.
 */
module CheckerInterface {
  import opened Wrappers
  import opened Strings
  import opened Packages

  const TroubleshootingUrl: string :=
    "https://github.com/Shopify/packwerk/blob/main/TROUBLESHOOT.md#Troubleshooting-violations"

  const InferencePrefix: string := "Inference details: this is a reference to "

  const DefinedIn: string := " which seems to be defined in "

  const SeeAlso: string := ".\nTo receive help interpreting or resolving this error message, see: "

  lemma UrlEndsInS()
    ensures |TroubleshootingUrl| > 0 && TroubleshootingUrl[|TroubleshootingUrl| - 1] == 's'
  {
  }

  /**
    The troubleshooting footer shared by all checkers: it names the constant
    and where it seems to be defined, and ends with the troubleshooting URL
    and no newline.
   */
  function StandardHelpMessage(r: Reference): (m: string)
    ensures IsPrefix(InferencePrefix + r.constant.name + DefinedIn + r.constant.location, m)
    ensures IsSuffix(TroubleshootingUrl, m)
    ensures m[|m| - 1] == 's'
  {
    UrlEndsInS();
    ChompedHeredoc(InferencePrefix + r.constant.name + DefinedIn + r.constant.location, SeeAlso, "", TroubleshootingUrl)
  }

  /** The default `violation_level(reference)`: no level. */
  function DefaultViolationLevel(r: Reference): (level: Option<string>)
    ensures level == None
  {
    None
  }
}
