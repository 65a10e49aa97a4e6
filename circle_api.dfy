/**
 * The CircleCI v2 REST API as the canceller sees it: the records it reads,
 * the four requests it can issue, and the server's answers.
 *
 * The network is not modelled. A `Server` value fixes, for one run, the
 * answer to every request the run could issue: either the decoded response
 * or the reason the request failed (construction, transport or decoding).
 */
module CircleApi {
  import opened Wrappers

  /** The version-control segment of every project slug: always GitHub. */
  const VcsSlug := "gh"

  /** A workflow as the API reports it; the fields the policy looks at. */
  datatype Workflow = Workflow(id: string, name: string, status: string)

  /** A pipeline as the API reports it; the fields the policy looks at. */
  datatype Pipeline = Pipeline(id: string, state: string)

  /** The project slug `<vcs>/<org>/<repo>`. */
  function ProjectSlug(org: string, repo: string): string {
    VcsSlug + "/" + org + "/" + repo
  }

  /** One request issued by the run. */
  datatype Request =
    | GetWorkflow(workflowId: string)
    | ListPipelines(projectSlug: string, branch: string)
    | ListPipelineWorkflows(pipelineId: string)
    | CancelWorkflow(workflowId: string)
  {
    /** The HTTP method: only the cancel request changes anything on the server. */
    function Method(): string {
      if CancelWorkflow? then "POST" else "GET"
    }

    /** The path below the API's base URL `https://circleci.com/api/v2/` the request is sent to. */
    function Path(): string {
      match this
      case GetWorkflow(id) => "workflows/" + id
      case ListPipelines(slug, branch) => "project/project/" + slug + "/pipeline?branch=" + branch
      case ListPipelineWorkflows(id) => "pipeline/" + id + "/workflow"
      case CancelWorkflow(id) => "workflow/" + id + "/cancel"
    }
  }

  /**
   * The answers of the API to every request of one run. A cancel's answer
   * carries no payload: the run only prints the message it returns.
   */
  datatype Server = Server(
    getWorkflow: string -> Result<Workflow, string>,
    listPipelines: (string, string) -> Result<seq<Pipeline>, string>,
    listPipelineWorkflows: string -> Result<seq<Workflow>, string>,
    cancelWorkflow: string -> Result<(), string>)
  {
    /** Whether the server answers `r` with an error. */
    predicate Fails(r: Request) {
      match r
      case GetWorkflow(id) => getWorkflow(id).Failure?
      case ListPipelines(slug, branch) => listPipelines(slug, branch).Failure?
      case ListPipelineWorkflows(id) => listPipelineWorkflows(id).Failure?
      case CancelWorkflow(id) => cancelWorkflow(id).Failure?
    }
  }

  /** Splits `s` at every occurrence of `sep`, as a server reads a slug. */
  function Split(s: string, sep: char): (parts: seq<string>)
    ensures |parts| > 0
    decreases |s|
  {
    if s == [] then [""]
    else
      var rest := Split(s[1..], sep);
      if s[0] == sep then [""] + rest else [[s[0]] + rest[0]] + rest[1..]
  }

  lemma {:induction false} SplitWithoutSeparator(a: string, sep: char)
    requires sep !in a
    ensures Split(a, sep) == [a]
    decreases |a|
  {
    if a != [] {
      SplitWithoutSeparator(a[1..], sep);
      assert [a[0]] + a[1..] == a;
    }
  }

  lemma {:induction false} SplitAtFirstSeparator(a: string, b: string, sep: char)
    requires sep !in a
    ensures Split(a + [sep] + b, sep) == [a] + Split(b, sep)
    decreases |a|
  {
    var s := a + [sep] + b;
    if a == [] {
      assert s[1..] == b;
    } else {
      assert s[1..] == a[1..] + [sep] + b;
      SplitAtFirstSeparator(a[1..], b, sep);
      assert [a[0]] + a[1..] == a;
    }
  }

  /**
   * The slug is read back into exactly its three segments, the first being
   * "gh", as long as the organisation and repository contain no '/'.
   */
  lemma SlugRoundTrip(org: string, repo: string)
    requires '/' !in org && '/' !in repo
    ensures Split(ProjectSlug(org, repo), '/') == [VcsSlug, org, repo]
  {
    assert ProjectSlug(org, repo) == VcsSlug + ['/'] + (org + ['/'] + repo);
    assert '/' !in VcsSlug by {
      assert VcsSlug == ['g', 'h'];
    }
    SplitAtFirstSeparator(VcsSlug, org + ['/'] + repo, '/');
    SplitAtFirstSeparator(org, repo, '/');
    SplitWithoutSeparator(repo, '/');
  }

  /** Only the path of a pipeline listing starts with "pr". */
  lemma ListingPathStartsWithPr(r: Request)
    ensures |r.Path()| >= 2
    ensures r.ListPipelines? <==> r.Path()[..2] == "pr"
  {
    var p := r.Path();
    assert p[0] == 'p' ==> p[1] == (if r.ListPipelines? then 'r' else 'i');
  }

  /**
   * Paths tell requests apart: the path names the kind of request, and for
   * the three requests that carry a single id, the workflow or pipeline it
   * is about. Two pipeline listings are left out of the comparison: their
   * path joins slug and branch with no escaping, so a slug ending in
   * "/pipeline?branch=x" can collide with another slug and branch.
   */
  lemma PathDeterminesRequest(r1: Request, r2: Request)
    requires !(r1.ListPipelines? && r2.ListPipelines?)
    requires r1.Path() == r2.Path()
    ensures r1 == r2
  {
    var p := r1.Path();
    match r1 {
      case GetWorkflow(a) =>
        assert p[0] == 'w' && p[8] == 's';
        match r2 {
          case GetWorkflow(b) => assert a == p[10..] == b;
          case ListPipelines(_, _) => {}
          case ListPipelineWorkflows(_) => {}
          case CancelWorkflow(_) => {}
        }
      case ListPipelines(_, _) =>
        ListingPathStartsWithPr(r1);
        ListingPathStartsWithPr(r2);
        assert false;
      case ListPipelineWorkflows(a) =>
        assert p[0] == 'p' && p[1] == 'i';
        match r2 {
          case GetWorkflow(_) => {}
          case ListPipelines(_, _) => {}
          case ListPipelineWorkflows(b) =>
            assert |a| == |b|;
            assert a == p[9..9 + |a|] == b;
          case CancelWorkflow(_) => {}
        }
      case CancelWorkflow(a) =>
        assert p[0] == 'w' && p[8] == '/';
        match r2 {
          case GetWorkflow(_) => {}
          case ListPipelines(_, _) => {}
          case ListPipelineWorkflows(_) => {}
          case CancelWorkflow(b) =>
            assert |a| == |b|;
            assert a == p[9..9 + |a|] == b;
        }
    }
  }
}
