/**
 * What the two older client revisions (classes Light and Yeelight) share:
 * their five-method allow-list, the shape of their queue, and the rule by
 * which `makeRequest` judges one reply.
 */
module LegacyQueue {
  import opened Protocol

  const LegacyAllowedMethods: seq<string> := ["get_prop", "toggle", "set_bright", "set_name", "set_rgb"]

  /** The job at position k has id k + 1 and an allowed method. */
  predicate IsLegacyQueue(jobs: seq<Job>) {
    forall k :: 0 <= k < |jobs| ==>
      jobs[k].id == k + 1 && jobs[k].methodName in LegacyAllowedMethods
  }

  /**
   * `makeRequest`'s verdict on a line that was read: success when no line
   * came back, or when the decoded reply has no `error` key.
   */
  predicate RequestSucceeded(line: Line) {
    match line
    case NoLine => true
    case Received(hasError, _) => !hasError
  }
}
