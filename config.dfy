/**
 * Reading the run's identifying values from the environment. Every value
 * is required: an unset or empty variable is a configuration error that
 * names the variable.
 */
module Config {
  import opened Wrappers
  import opened Errors

  /** The process environment. Looking up an unset variable yields "", as `os.Getenv` does. */
  type Env = map<string, string>

  const UsernameKey := "CIRCLE_PROJECT_USERNAME"
  const ReponameKey := "CIRCLE_PROJECT_REPONAME"
  const BranchKey := "CIRCLE_BRANCH"
  const WorkflowIdKey := "CIRCLE_WORKFLOW_ID"
  const TokenKey := "CIRCLE_TOKEN"

  function Getenv(env: Env, key: string): string {
    if key in env then env[key] else ""
  }

  /** `r` is what reading the required variable `key` of `env` must give. */
  predicate ReadsRequired(env: Env, key: string, r: Result<string, Cause>) {
    && (r.Success? <==> key in env && env[key] != "")
    && (r.Success? ==> r.value == env[key])
    && (r.Failure? ==> r.error == MissingEnv(key))
  }

  /** The required-value check: the variable's value, or an error naming it when it is empty. */
  function OrError(env: Env, key: string): (r: Result<string, Cause>)
    ensures ReadsRequired(env, key, r)
  {
    var val := Getenv(env, key);
    if val == "" then Failure(MissingEnv(key)) else Success(val)
  }

  function CircleProjectUsername(env: Env): (r: Result<string, Cause>)
    ensures ReadsRequired(env, UsernameKey, r)
  {
    OrError(env, UsernameKey)
  }

  function CircleProjectReponame(env: Env): (r: Result<string, Cause>)
    ensures ReadsRequired(env, ReponameKey, r)
  {
    OrError(env, ReponameKey)
  }

  function CircleBranch(env: Env): (r: Result<string, Cause>)
    ensures ReadsRequired(env, BranchKey, r)
  {
    OrError(env, BranchKey)
  }

  function CircleWorkflowId(env: Env): (r: Result<string, Cause>)
    ensures ReadsRequired(env, WorkflowIdKey, r)
  {
    OrError(env, WorkflowIdKey)
  }

  function CircleToken(env: Env): (r: Result<string, Cause>)
    ensures ReadsRequired(env, TokenKey, r)
  {
    OrError(env, TokenKey)
  }
}
