/** What a summary must satisfy before a checkpoint may carry it. */
module SummaryValidation {
  import opened Domain
  import opened Meter

  const MAX_SUMMARY_BYTES: nat := 256 * 1024

  /** Whether a text is non-blank and has the required headings in order, and how secrets are masked. */
  datatype SummaryRules = SummaryRules(shaped: string -> bool, redact: string -> string)

  /** The request without the checkpoint and with it, the limit, what the summary replaces and what it
      may cost itself. */
  datatype Costs = Costs(before: nat, after: nat, hardInput: nat, covered: nat, cap: nat)

  /** The redacted text of a summary that passes: small, cheaper than what it replaces, and in a
      request that fits and is at least a tenth cheaper. */
  function ValidateSummary(rules: SummaryRules, price: Message -> nat, raw: string, costs: Costs): Option<string> {
    if !rules.shaped(raw) then None
    else
      var redacted := rules.redact(raw);
      var tokens := price(TextMessage(User, redacted));
      if ByteLength(redacted) > MAX_SUMMARY_BYTES || tokens > costs.cap || tokens >= costs.covered then None
      else if costs.after > costs.hardInput || costs.after * 10 > costs.before * 9 then None
      else Some(redacted)
  }
}
