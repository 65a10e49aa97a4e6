/**
 * The errors a run of the canceller can end with. Every error that
 * `doCancelRedundantWorkflow` returns is the error of one step, wrapped
 * with that step's name; the wrapped cause is either a missing
 * environment value or a failed API request.
 */
module Errors {

  /** The step of the run that failed, in the order the run takes them. */
  datatype Step =
    | GetProjectOrgSlug
    | GetProjectReponame
    | GetWorkflowId
    | GetToken
    | GetWorkflowRequest
    | GetBranchName
    | GetPipelines
    | GetWorkflows
    | CancelWorkflowRequest
  {
    /** The words the source wraps the cause with. */
    function Describe(): string {
      match this
      case GetProjectOrgSlug => "get project org slug failed"
      case GetProjectReponame => "get project reponame failed"
      case GetWorkflowId => "get workflowId failed"
      case GetToken => "get token failed"
      case GetWorkflowRequest => "get workflow request failed"
      case GetBranchName => "get branch name failed"
      case GetPipelines => "get pipelines failed"
      case GetWorkflows => "get workflows failed"
      case CancelWorkflowRequest => "cancel workflow failed"
    }
  }

  /** What went wrong underneath the step. */
  datatype Cause =
    | MissingEnv(key: string)          // a required environment value is unset or empty
    | RequestFailed(reason: string)    // construction, transport or decoding of a request failed
  {
    function Message(): string {
      match this
      case MissingEnv(key) => "orError: required env var " + key + " is not provided"
      case RequestFailed(reason) => "request: " + reason
    }
  }

  /** The text the run's error prints: the run's name, the failed step, then the cause. */
  datatype Error = Error(step: Step, cause: Cause) {
    function Message(): string {
      "doCancelRedundantWorkflow: " + step.Describe() + ": " + cause.Message()
    }
  }

  /** `s` ends with `t`. */
  predicate EndsWith(s: string, t: string) {
    |t| <= |s| && s[|s| - |t|..] == t
  }

  /** `h + mid + t` starts with `h` and ends with `t`. */
  lemma Framed(h: string, mid: string, t: string)
    ensures h <= h + mid + t && EndsWith(h + mid + t, t)
  {
    assert (h + mid + t)[..|h|] == h;
    assert (h + mid + t)[|h + mid|..] == t;
  }

  /**
   * Every error message starts with the run's name, and the message of a
   * missing value ends by naming the key, whatever step read it.
   */
  lemma MissingEnvMessageNamesKey(step: Step, key: string)
    ensures var m := Error(step, MissingEnv(key)).Message();
      && "doCancelRedundantWorkflow: " <= m
      && EndsWith(m, "required env var " + key + " is not provided")
  {
    var name, describe := "doCancelRedundantWorkflow: ", step.Describe();
    var tail := "required env var " + key + " is not provided";
    var mid := describe + ": " + "orError: ";
    assert MissingEnv(key).Message() == "orError: " + tail;
    assert Error(step, MissingEnv(key)).Message() == name + mid + tail;
    Framed(name, mid, tail);
  }

  /** The message of a failed request ends with the reason the request failed. */
  lemma RequestFailedMessageEndsWithReason(step: Step, reason: string)
    ensures var m := Error(step, RequestFailed(reason)).Message();
      && "doCancelRedundantWorkflow: " <= m
      && EndsWith(m, "request: " + reason)
  {
    var name, mid := "doCancelRedundantWorkflow: ", step.Describe() + ": ";
    assert Error(step, RequestFailed(reason)).Message() == name + mid + ("request: " + reason);
    Framed(name, mid, "request: " + reason);
  }

  /** Different steps are described by different words. */
  lemma DescribeDistinguishesSteps(s1: Step, s2: Step)
    requires s1.Describe() == s2.Describe()
    ensures s1 == s2
  {
  }
}
