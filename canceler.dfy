/**
 * One run of the redundant-workflow canceller.
 *
 * `Run` is the reference definition: the requests a run issues, in order,
 * and the error it ends with, as a function of the environment and of the
 * server's answers. `DoCancelRedundantWorkflow` is the run itself, written
 * as the source writes it (a sequence of checks followed by a nested loop
 * with early returns), and is proved to issue exactly the requests of `Run`.
 */
module Canceler {
  import opened Wrappers
  import opened Errors
  import opened Config
  import opened CircleApi
  import opened Policy

  /** The requests a run issued, in order, and the error it returned (None on success). */
  datatype Outcome = Outcome(sent: seq<Request>, err: Option<Error>)

  /** `o`, preceded by the requests `pre` that succeeded. */
  function Then(pre: seq<Request>, o: Outcome): Outcome {
    Outcome(pre + o.sent, o.err)
  }

  /** `first`, and then `next` unless `first` ended in an error. */
  function AndThen(first: Outcome, next: Outcome): Outcome {
    if first.err.Some? then first else Then(first.sent, next)
  }

  /** The run stops right after `r`, which failed for `reason`. */
  function Abort(r: Request, step: Step, reason: string): Outcome {
    Outcome([r], Some(Error(step, RequestFailed(reason))))
  }

  /** The inner loop: cancel every redundant workflow of one pipeline, stopping at the first failed cancel. */
  function ScanWorkflows(ws: seq<Workflow>, server: Server, currentName: string, currentId: string): Outcome
    decreases |ws|
  {
    if ws == [] then Outcome([], None)
    else
      var rest := ScanWorkflows(ws[1..], server, currentName, currentId);
      if !ShouldCancel(ws[0], currentName, currentId) then rest
      else
        var id := ws[0].id;
        match server.cancelWorkflow(id)
        case Failure(reason) => Abort(CancelWorkflow(id), CancelWorkflowRequest, reason)
        case Success(_) => Then([CancelWorkflow(id)], rest)
  }

  /** The outer loop: list the workflows of every created pipeline and scan them, stopping at the first failure. */
  function ScanPipelines(ps: seq<Pipeline>, server: Server, currentName: string, currentId: string): Outcome
    decreases |ps|
  {
    if ps == [] then Outcome([], None)
    else
      var rest := ScanPipelines(ps[1..], server, currentName, currentId);
      if !IsCreated(ps[0]) then rest
      else
        var pipelineId := ps[0].id;
        match server.listPipelineWorkflows(pipelineId)
        case Failure(reason) => Abort(ListPipelineWorkflows(pipelineId), GetWorkflows, reason)
        case Success(ws) =>
          Then([ListPipelineWorkflows(pipelineId)],
               AndThen(ScanWorkflows(ws, server, currentName, currentId), rest))
  }

  /** One step of the outer loop, on the first pipeline of `ps`. */
  lemma ScanPipelinesStep(ps: seq<Pipeline>, server: Server, currentName: string, currentId: string)
    requires ps != []
    ensures var p, rest := ps[0], ScanPipelines(ps[1..], server, currentName, currentId);
      var o := ScanPipelines(ps, server, currentName, currentId);
      var listing := server.listPipelineWorkflows(p.id);
      && (!IsCreated(p) ==> o == rest)
      && (IsCreated(p) && listing.Failure? ==> o == Abort(ListPipelineWorkflows(p.id), GetWorkflows, listing.error))
      && (IsCreated(p) && listing.Success?
          ==> o == Then([ListPipelineWorkflows(p.id)], AndThen(ScanWorkflows(listing.value, server, currentName, currentId), rest)))
  {
  }

  /**
   * A whole run: read the organisation, repository, workflow id and token;
   * fetch the current workflow; only then read the branch; list the
   * branch's pipelines (first page only) and scan them.
   */
  function Run(env: Env, server: Server): Outcome {
    match CircleProjectUsername(env)
    case Failure(e) => Outcome([], Some(Error(GetProjectOrgSlug, e)))
    case Success(org) =>
    match CircleProjectReponame(env)
    case Failure(e) => Outcome([], Some(Error(GetProjectReponame, e)))
    case Success(repo) =>
    match CircleWorkflowId(env)
    case Failure(e) => Outcome([], Some(Error(GetWorkflowId, e)))
    case Success(workflowId) =>
    match CircleToken(env)
    case Failure(e) => Outcome([], Some(Error(GetToken, e)))
    case Success(_) =>
    var slug := ProjectSlug(org, repo);
    match server.getWorkflow(workflowId)
    case Failure(reason) => Abort(GetWorkflow(workflowId), GetWorkflowRequest, reason)
    case Success(current) =>
    match CircleBranch(env)
    case Failure(e) => Outcome([GetWorkflow(workflowId)], Some(Error(GetBranchName, e)))
    case Success(branch) =>
    match server.listPipelines(slug, branch)
    case Failure(reason) => Then([GetWorkflow(workflowId)], Abort(ListPipelines(slug, branch), GetPipelines, reason))
    case Success(items) =>
      Then([GetWorkflow(workflowId), ListPipelines(slug, branch)],
           ScanPipelines(items, server, current.name, workflowId))
  }

  /**
   * The run as the source performs it. `sent` records every request in the
   * order it is issued; `err` is the error returned, None on success.
   */
  method DoCancelRedundantWorkflow(env: Env, server: Server) returns (err: Option<Error>, sent: seq<Request>)
    ensures Outcome(sent, err) == Run(env, server)
  {
    sent := [];
    var org := CircleProjectUsername(env);
    if org.Failure? {
      return Some(Error(GetProjectOrgSlug, org.error)), sent;
    }
    var repo := CircleProjectReponame(env);
    if repo.Failure? {
      return Some(Error(GetProjectReponame, repo.error)), sent;
    }
    var workflowId := CircleWorkflowId(env);
    if workflowId.Failure? {
      return Some(Error(GetWorkflowId, workflowId.error)), sent;
    }
    var token := CircleToken(env);
    if token.Failure? {
      return Some(Error(GetToken, token.error)), sent;
    }
    var slug := ProjectSlug(org.value, repo.value);

    sent := sent + [GetWorkflow(workflowId.value)];
    var current := server.getWorkflow(workflowId.value);
    if current.Failure? {
      return Some(Error(GetWorkflowRequest, RequestFailed(current.error))), sent;
    }

    var branch := CircleBranch(env);
    if branch.Failure? {
      return Some(Error(GetBranchName, branch.error)), sent;
    }

    sent := sent + [ListPipelines(slug, branch.value)];
    var pipes := server.listPipelines(slug, branch.value);
    if pipes.Failure? {
      return Some(Error(GetPipelines, RequestFailed(pipes.error))), sent;
    }

    var scanErr, scanSent := CancelRedundant(pipes.value, server, current.value.name, workflowId.value);
    err, sent := scanErr, sent + scanSent;
  }

  /**
   * The outer loop of the run: for every created pipeline, list its
   * workflows and cancel the redundant ones, returning at the first failure.
   */
  method CancelRedundant(items: seq<Pipeline>, server: Server, name: string, id: string)
    returns (err: Option<Error>, sent: seq<Request>)
    ensures Outcome(sent, err) == ScanPipelines(items, server, name, id)
  {
    ghost var total := ScanPipelines(items, server, name, id);
    sent := [];
    var i := 0;
    assert items[i..] == items;
    while i < |items|
      invariant 0 <= i <= |items|
      invariant Then(sent, ScanPipelines(items[i..], server, name, id)) == total
    {
      var item := items[i];
      ghost var sentBefore := sent;
      ghost var rest := ScanPipelines(items[i + 1..], server, name, id);
      assert items[i..][0] == item && items[i..][1..] == items[i + 1..];
      ScanPipelinesStep(items[i..], server, name, id);
      if item.state != CreatedState {
        i := i + 1;
        continue;
      }
      sent := sent + [ListPipelineWorkflows(item.id)];
      var workflows := server.listPipelineWorkflows(item.id);
      if workflows.Failure? {
        return Some(Error(GetWorkflows, RequestFailed(workflows.error))), sent;
      }
      var cancelErr, cancelSent := CancelRedundantIn(workflows.value, server, name, id);
      sent := sent + cancelSent;
      if cancelErr.Some? {
        return cancelErr, sent;
      }
      assert sent + rest.sent == sentBefore + ([ListPipelineWorkflows(item.id)] + (cancelSent + rest.sent));
      i := i + 1;
    }
    err := None;
  }

  /**
   * The inner loop of the run: cancel every redundant workflow of one
   * pipeline's listing, returning at the first failed cancel.
   */
  method CancelRedundantIn(ws: seq<Workflow>, server: Server, name: string, id: string)
    returns (err: Option<Error>, sent: seq<Request>)
    ensures Outcome(sent, err) == ScanWorkflows(ws, server, name, id)
  {
    ghost var total := ScanWorkflows(ws, server, name, id);
    sent := [];
    var j := 0;
    assert ws[j..] == ws;
    while j < |ws|
      invariant 0 <= j <= |ws|
      invariant Then(sent, ScanWorkflows(ws[j..], server, name, id)) == total
    {
      var w := ws[j];
      assert ws[j..][1..] == ws[j + 1..];
      if (w.status == OnHoldStatus || w.status == RunningStatus) && w.name == name && w.id != id {
        sent := sent + [CancelWorkflow(w.id)];
        var cancel := server.cancelWorkflow(w.id);
        if cancel.Failure? {
          return Some(Error(CancelWorkflowRequest, RequestFailed(cancel.error))), sent;
        }
      }
      j := j + 1;
    }
    err := None;
  }
}
