/**
 * How the newest revision's per-job verdict relates to the older ones'.
 */
module Revisions {
  import opened Protocol
  import opened LegacyQueue
  import opened YeeClient

  /**
   * A reply with an `error` key fails a job in Light and Yeelight but counts
   * as success in YeePHP, where it decodes to null. No reply fails a job in
   * both, and the newer rule rejects exactly the error-free replies whose
   * first result is `""` or `"0"`, all of which the older rule accepts.
   */
  lemma ErrorReplyVerdicts(line: Line)
    ensures line.Received? && line.hasError ==> !RequestSucceeded(line) && JobSucceeded(line)
    ensures RequestSucceeded(line) || JobSucceeded(line)
    ensures RequestSucceeded(line) && !JobSucceeded(line) <==>
              HasFirstResult(line) && line.result.value[0] in ["", "0"]
  {
  }
}
