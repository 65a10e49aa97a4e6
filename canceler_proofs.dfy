/**
 * What a run of the canceller does, proved about the reference definition
 * `Run` (and so, through its postcondition, about
 * `DoCancelRedundantWorkflow`): which workflows it cancels and in what
 * order, which pipelines it lists, that it never cancels itself, that it
 * stops at the first failed request, and the order in which missing
 * environment values are noticed.
 */
module CancelerProofs {
  import opened Wrappers
  import opened Errors
  import opened Config
  import opened CircleApi
  import opened Policy
  import opened Canceler

  /** The workflow ids of the cancel requests in `sent`, in order. */
  function Cancels(sent: seq<Request>): seq<string> {
    if sent == [] then []
    else (if sent[0].CancelWorkflow? then [sent[0].workflowId] else []) + Cancels(sent[1..])
  }

  /** The pipeline ids whose workflows were listed in `sent`, in order. */
  function Fetches(sent: seq<Request>): seq<string> {
    if sent == [] then []
    else (if sent[0].ListPipelineWorkflows? then [sent[0].pipelineId] else []) + Fetches(sent[1..])
  }

  /** The run ended because a request failed (rather than succeeding or missing a value). */
  predicate EndsInRequestFailure(o: Outcome) {
    o.err.Some? && o.err.value.cause.RequestFailed?
  }

  /** The error a run returns when the server fails `r`: the step that issued `r`, and the server's reason. */
  function RequestError(server: Server, r: Request): Error
    requires server.Fails(r)
  {
    match r
    case GetWorkflow(id) => Error(GetWorkflowRequest, RequestFailed(server.getWorkflow(id).error))
    case ListPipelines(slug, branch) => Error(GetPipelines, RequestFailed(server.listPipelines(slug, branch).error))
    case ListPipelineWorkflows(id) => Error(GetWorkflows, RequestFailed(server.listPipelineWorkflows(id).error))
    case CancelWorkflow(id) => Error(CancelWorkflowRequest, RequestFailed(server.cancelWorkflow(id).error))
  }

  /**
   * The only request of `o` the server answered with an error is its last
   * one, and only when the run ended because of it: nothing is issued after
   * a failure, and a run that reports a failed request did issue it last
   * and returns exactly that request's error.
   */
  predicate StopsAtFirstFailure(server: Server, o: Outcome) {
    && (EndsInRequestFailure(o) ==>
          |o.sent| > 0 && server.Fails(o.sent[|o.sent| - 1])
          && o.err.value == RequestError(server, o.sent[|o.sent| - 1]))
    && forall k :: 0 <= k < |o.sent| ==>
         (server.Fails(o.sent[k]) <==> k == |o.sent| - 1 && EndsInRequestFailure(o))
  }

  /** Every created pipeline could be listed and every selected workflow could be cancelled. */
  predicate AllRequestsSucceed(ps: seq<Pipeline>, server: Server, currentName: string, currentId: string) {
    && (forall p :: p in ps && IsCreated(p) ==> server.listPipelineWorkflows(p.id).Success?)
    && (forall x :: x in Selected(ps, server, currentName, currentId) ==> server.cancelWorkflow(x).Success?)
  }

  // ----- request logs -----

  lemma {:induction false} CancelsAppend(a: seq<Request>, b: seq<Request>)
    ensures Cancels(a + b) == Cancels(a) + Cancels(b)
  {
    if a != [] {
      assert (a + b)[1..] == a[1..] + b;
      CancelsAppend(a[1..], b);
    } else {
      assert a + b == b;
    }
  }

  lemma {:induction false} FetchesAppend(a: seq<Request>, b: seq<Request>)
    ensures Fetches(a + b) == Fetches(a) + Fetches(b)
  {
    if a != [] {
      assert (a + b)[1..] == a[1..] + b;
      FetchesAppend(a[1..], b);
    } else {
      assert a + b == b;
    }
  }

  lemma PrefixOfLonger<T>(a: seq<T>, b: seq<T>, c: seq<T>)
    requires a <= b
    ensures a <= b + c
  {
  }

  lemma PrefixAfterSame<T>(p: seq<T>, a: seq<T>, b: seq<T>)
    requires a <= b
    ensures p + a <= p + b
  {
  }

  // ----- composing outcomes -----

  lemma ThenStops(server: Server, pre: seq<Request>, o: Outcome)
    requires forall k :: 0 <= k < |pre| ==> !server.Fails(pre[k])
    requires StopsAtFirstFailure(server, o)
    ensures StopsAtFirstFailure(server, Then(pre, o))
  {
  }

  lemma AndThenStops(server: Server, first: Outcome, next: Outcome)
    requires StopsAtFirstFailure(server, first)
    requires StopsAtFirstFailure(server, next)
    ensures StopsAtFirstFailure(server, AndThen(first, next))
  {
  }

  // ----- the inner loop -----

  lemma {:induction false} ScanWorkflowsCancels(ws: seq<Workflow>, server: Server, currentName: string, currentId: string)
    ensures var o := ScanWorkflows(ws, server, currentName, currentId);
      && Cancels(o.sent) <= SelectedIn(ws, currentName, currentId)
      && (o.err.None? ==> Cancels(o.sent) == SelectedIn(ws, currentName, currentId))
    decreases |ws|
  {
    if ws != [] {
      ScanWorkflowsCancels(ws[1..], server, currentName, currentId);
      var rest := ScanWorkflows(ws[1..], server, currentName, currentId);
      var w := ws[0];
      if ShouldCancel(w, currentName, currentId) {
        CancelsAppend([CancelWorkflow(w.id)], rest.sent);
        assert Cancels([CancelWorkflow(w.id)]) == [w.id];
        if server.cancelWorkflow(w.id).Success? {
          PrefixAfterSame([w.id], Cancels(rest.sent), SelectedIn(ws[1..], currentName, currentId));
        }
      }
    }
  }

  /** Scanning one pipeline's workflows lists no pipeline. */
  lemma {:induction false} ScanWorkflowsListsNoPipeline(ws: seq<Workflow>, server: Server, currentName: string, currentId: string)
    ensures Fetches(ScanWorkflows(ws, server, currentName, currentId).sent) == []
    decreases |ws|
  {
    if ws != [] {
      ScanWorkflowsListsNoPipeline(ws[1..], server, currentName, currentId);
      var rest := ScanWorkflows(ws[1..], server, currentName, currentId);
      var req := CancelWorkflow(ws[0].id);
      FetchesAppend([req], rest.sent);
      assert Fetches([req]) == [];
    }
  }

  lemma {:induction false} ScanWorkflowsStops(ws: seq<Workflow>, server: Server, currentName: string, currentId: string)
    ensures var o := ScanWorkflows(ws, server, currentName, currentId);
      && StopsAtFirstFailure(server, o)
      && (o.err.Some? ==> o.err.value.step == CancelWorkflowRequest && EndsInRequestFailure(o))
    decreases |ws|
  {
    if ws != [] {
      ScanWorkflowsStops(ws[1..], server, currentName, currentId);
      var rest := ScanWorkflows(ws[1..], server, currentName, currentId);
      if ShouldCancel(ws[0], currentName, currentId) && server.cancelWorkflow(ws[0].id).Success? {
        ThenStops(server, [CancelWorkflow(ws[0].id)], rest);
      }
    }
  }

  lemma {:induction false} ScanWorkflowsSucceeds(ws: seq<Workflow>, server: Server, currentName: string, currentId: string)
    ensures ScanWorkflows(ws, server, currentName, currentId).err.None?
        <==> forall x :: x in SelectedIn(ws, currentName, currentId) ==> server.cancelWorkflow(x).Success?
    decreases |ws|
  {
    if ws != [] {
      ScanWorkflowsSucceeds(ws[1..], server, currentName, currentId);
    }
  }

  // ----- the outer loop -----

  /**
   * The cancels of the outer loop are, in order, a prefix of the selection,
   * and all of it when the loop succeeds.
   */
  lemma {:induction false} ScanPipelinesCancels(ps: seq<Pipeline>, server: Server, currentName: string, currentId: string)
    ensures var o := ScanPipelines(ps, server, currentName, currentId);
      && Cancels(o.sent) <= Selected(ps, server, currentName, currentId)
      && (o.err.None? ==> Cancels(o.sent) == Selected(ps, server, currentName, currentId))
    decreases |ps|
  {
    if ps != [] {
      ScanPipelinesCancels(ps[1..], server, currentName, currentId);
      var p := ps[0];
      var rest := ScanPipelines(ps[1..], server, currentName, currentId);
      var selRest := Selected(ps[1..], server, currentName, currentId);
      if IsCreated(p) {
        var listReq := ListPipelineWorkflows(p.id);
        assert Cancels([listReq]) == [];
        match server.listPipelineWorkflows(p.id)
        case Failure(_) =>
        case Success(ws) =>
          var inner := ScanWorkflows(ws, server, currentName, currentId);
          var sel := SelectedIn(ws, currentName, currentId);
          assert Selected(ps, server, currentName, currentId) == sel + selRest;
          ScanWorkflowsCancels(ws, server, currentName, currentId);
          var both := AndThen(inner, rest);
          assert ScanPipelines(ps, server, currentName, currentId) == Then([listReq], both);
          CancelsAppend([listReq], both.sent);
          if inner.err.Some? {
            PrefixOfLonger(Cancels(inner.sent), sel, selRest);
          } else {
            CancelsAppend(inner.sent, rest.sent);
            PrefixAfterSame(sel, Cancels(rest.sent), selRest);
          }
      }
    }
  }

  /**
   * The pipelines whose workflows the outer loop lists are, in order, a
   * prefix of the created pipelines, and all of them when the loop succeeds.
   */
  lemma {:induction false} ScanPipelinesFetches(ps: seq<Pipeline>, server: Server, currentName: string, currentId: string)
    ensures var o := ScanPipelines(ps, server, currentName, currentId);
      && Fetches(o.sent) <= CreatedIds(ps)
      && (o.err.None? ==> Fetches(o.sent) == CreatedIds(ps))
    decreases |ps|
  {
    if ps != [] {
      ScanPipelinesFetches(ps[1..], server, currentName, currentId);
      if IsCreated(ps[0]) {
        FetchesOfCreatedStep(ps, server, currentName, currentId);
      } else {
        assert ScanPipelines(ps, server, currentName, currentId) == ScanPipelines(ps[1..], server, currentName, currentId);
        assert CreatedIds(ps) == CreatedIds(ps[1..]);
      }
    }
  }

  /** The step of `ScanPipelinesFetches` for a first pipeline in the "created" state. */
  lemma FetchesOfCreatedStep(ps: seq<Pipeline>, server: Server, currentName: string, currentId: string)
    requires ps != [] && IsCreated(ps[0])
    requires var rest := ScanPipelines(ps[1..], server, currentName, currentId);
      && Fetches(rest.sent) <= CreatedIds(ps[1..])
      && (rest.err.None? ==> Fetches(rest.sent) == CreatedIds(ps[1..]))
    ensures var o := ScanPipelines(ps, server, currentName, currentId);
      && Fetches(o.sent) <= CreatedIds(ps)
      && (o.err.None? ==> Fetches(o.sent) == CreatedIds(ps))
  {
    var p := ps[0];
    var o := ScanPipelines(ps, server, currentName, currentId);
    var rest := ScanPipelines(ps[1..], server, currentName, currentId);
    var createdRest := CreatedIds(ps[1..]);
    var listReq := ListPipelineWorkflows(p.id);
    var listing := server.listPipelineWorkflows(p.id);
    assert Fetches([listReq]) == [p.id];
    assert CreatedIds(ps) == [p.id] + createdRest;
    if listing.Failure? {
      assert o.sent == [listReq];
      PrefixOfLonger([p.id], [p.id], createdRest);
    } else {
      var inner := ScanWorkflows(listing.value, server, currentName, currentId);
      ScanWorkflowsListsNoPipeline(listing.value, server, currentName, currentId);
      var both := AndThen(inner, rest);
      assert o == Then([listReq], both);
      FetchesAppend([listReq], both.sent);
      if inner.err.Some? {
        PrefixOfLonger([p.id], [p.id], createdRest);
      } else {
        FetchesAppend(inner.sent, rest.sent);
        PrefixAfterSame([p.id], Fetches(rest.sent), createdRest);
      }
    }
  }

  lemma {:induction false} ScanPipelinesStops(ps: seq<Pipeline>, server: Server, currentName: string, currentId: string)
    ensures var o := ScanPipelines(ps, server, currentName, currentId);
      && StopsAtFirstFailure(server, o)
      && (o.err.Some? ==> EndsInRequestFailure(o))
    decreases |ps|
  {
    if ps != [] {
      ScanPipelinesStops(ps[1..], server, currentName, currentId);
      var rest := ScanPipelines(ps[1..], server, currentName, currentId);
      if IsCreated(ps[0]) {
        match server.listPipelineWorkflows(ps[0].id)
        case Failure(_) =>
        case Success(ws) =>
          var inner := ScanWorkflows(ws, server, currentName, currentId);
          ScanWorkflowsStops(ws, server, currentName, currentId);
          AndThenStops(server, inner, rest);
          ThenStops(server, [ListPipelineWorkflows(ps[0].id)], AndThen(inner, rest));
      }
    }
  }

  /** The outer loop runs to completion exactly when every request it needs succeeds. */
  lemma {:induction false} ScanPipelinesSucceeds(ps: seq<Pipeline>, server: Server, currentName: string, currentId: string)
    ensures ScanPipelines(ps, server, currentName, currentId).err.None?
        <==> AllRequestsSucceed(ps, server, currentName, currentId)
    decreases |ps|
  {
    if ps != [] {
      ScanPipelinesSucceeds(ps[1..], server, currentName, currentId);
      var p := ps[0];
      var selRest := Selected(ps[1..], server, currentName, currentId);
      assert forall q :: q in ps <==> q == p || q in ps[1..];
      if IsCreated(p) && server.listPipelineWorkflows(p.id).Success? {
        var ws := server.listPipelineWorkflows(p.id).value;
        ScanWorkflowsSucceeds(ws, server, currentName, currentId);
        assert Selected(ps, server, currentName, currentId) == SelectedIn(ws, currentName, currentId) + selRest;
      }
    }
  }

  /**
   * When every request the first `k` pipelines need succeeds, the outer loop
   * issues their requests and then goes on exactly as it would from `ps[k]`.
   */
  lemma {:induction false} ScanPipelinesSplit(ps: seq<Pipeline>, k: nat, server: Server, currentName: string, currentId: string)
    requires k <= |ps|
    requires AllRequestsSucceed(ps[..k], server, currentName, currentId)
    ensures ScanPipelines(ps, server, currentName, currentId)
         == Then(ScanPipelines(ps[..k], server, currentName, currentId).sent, ScanPipelines(ps[k..], server, currentName, currentId))
    decreases k
  {
    if k == 0 {
      assert ps[..k] == [] && ps[k..] == ps;
    } else {
      var head := ps[..k];
      var tail := ps[1..];
      assert head[0] == ps[0] && head[1..] == tail[..k - 1] && tail[k - 1..] == ps[k..];
      var selTail := Selected(tail[..k - 1], server, currentName, currentId);
      assert forall q :: q in tail[..k - 1] ==> q in head;
      if IsCreated(ps[0]) {
        var ws := server.listPipelineWorkflows(ps[0].id).value;
        assert Selected(head, server, currentName, currentId) == SelectedIn(ws, currentName, currentId) + selTail;
        assert AllRequestsSucceed(tail[..k - 1], server, currentName, currentId);
        ScanPipelinesSplit(tail, k - 1, server, currentName, currentId);
        ScanWorkflowsSucceeds(ws, server, currentName, currentId);
        var pre := [ListPipelineWorkflows(ps[0].id)] + ScanWorkflows(ws, server, currentName, currentId).sent;
        var mid := ScanPipelines(tail[..k - 1], server, currentName, currentId).sent;
        var last := ScanPipelines(ps[k..], server, currentName, currentId).sent;
        assert pre + (mid + last) == (pre + mid) + last;
      } else {
        assert Selected(head, server, currentName, currentId) == selTail;
        ScanPipelinesSplit(tail, k - 1, server, currentName, currentId);
      }
    }
  }

  /**
   * If the first `k` pipelines need only requests that succeed and the
   * listing of the created pipeline `ps[k]` fails, the loop stops there with
   * that listing's error, having cancelled exactly the selection over the
   * first `k` pipelines and listed exactly their created ones and `ps[k]`.
   */
  lemma ScanPipelinesListingFails(ps: seq<Pipeline>, k: nat, server: Server, currentName: string, currentId: string)
    requires k < |ps| && IsCreated(ps[k]) && server.listPipelineWorkflows(ps[k].id).Failure?
    requires AllRequestsSucceed(ps[..k], server, currentName, currentId)
    ensures var o := ScanPipelines(ps, server, currentName, currentId);
      && o.err == Some(Error(GetWorkflows, RequestFailed(server.listPipelineWorkflows(ps[k].id).error)))
      && Cancels(o.sent) == Selected(ps[..k], server, currentName, currentId)
      && Fetches(o.sent) == CreatedIds(ps[..k]) + [ps[k].id]
  {
    var head := ScanPipelines(ps[..k], server, currentName, currentId);
    ScanPipelinesSplit(ps, k, server, currentName, currentId);
    ScanPipelinesSucceeds(ps[..k], server, currentName, currentId);
    ScanPipelinesCancels(ps[..k], server, currentName, currentId);
    ScanPipelinesFetches(ps[..k], server, currentName, currentId);
    ScanPipelinesStep(ps[k..], server, currentName, currentId);
    var failed := ListPipelineWorkflows(ps[k].id);
    CancelsAppend(head.sent, [failed]);
    FetchesAppend(head.sent, [failed]);
    assert Cancels([failed]) == [] && Fetches([failed]) == [ps[k].id];
  }

  // ----- whole runs -----

  /** The run gets past every check and both initial requests and reaches the pipeline loop. */
  predicate ReachesScan(env: Env, server: Server) {
    && Getenv(env, UsernameKey) != ""
    && Getenv(env, ReponameKey) != ""
    && Getenv(env, WorkflowIdKey) != ""
    && Getenv(env, TokenKey) != ""
    && Getenv(env, BranchKey) != ""
    && server.getWorkflow(Getenv(env, WorkflowIdKey)).Success?
    && server.listPipelines(EnvSlug(env), Getenv(env, BranchKey)).Success?
  }

  function EnvSlug(env: Env): string {
    ProjectSlug(Getenv(env, UsernameKey), Getenv(env, ReponameKey))
  }

  /** The pipelines of the first page listed for the branch. */
  function ListedPipelines(env: Env, server: Server): seq<Pipeline>
    requires ReachesScan(env, server)
  {
    server.listPipelines(EnvSlug(env), Getenv(env, BranchKey)).value
  }

  /** The name of the current workflow as the server reports it. */
  function CurrentName(env: Env, server: Server): string
    requires ReachesScan(env, server)
  {
    server.getWorkflow(Getenv(env, WorkflowIdKey)).value.name
  }

  lemma RunReachingScan(env: Env, server: Server)
    requires ReachesScan(env, server)
    ensures Run(env, server)
         == Then([GetWorkflow(Getenv(env, WorkflowIdKey)), ListPipelines(EnvSlug(env), Getenv(env, BranchKey))],
                 ScanPipelines(ListedPipelines(env, server), server, CurrentName(env, server), Getenv(env, WorkflowIdKey)))
  {
  }

  /** A run that does not reach the pipeline loop lists no workflows and cancels nothing, and ends in an error. */
  lemma RunNotReachingScan(env: Env, server: Server)
    requires !ReachesScan(env, server)
    ensures Run(env, server).err.Some?
    ensures Cancels(Run(env, server).sent) == [] && Fetches(Run(env, server).sent) == []
  {
    var o := Run(env, server);
    assert |o.sent| <= 2;
    assert forall k :: 0 <= k < |o.sent| ==> o.sent[k].GetWorkflow? || o.sent[k].ListPipelines?;
    if |o.sent| == 2 {
      assert o.sent == [o.sent[0]] + [o.sent[1]];
      CancelsAppend([o.sent[0]], [o.sent[1]]);
      FetchesAppend([o.sent[0]], [o.sent[1]]);
    }
  }

  /**
   * The cancel requests of a run are, in order, a prefix of the selection
   * over the listed pipelines (created pipelines in list order, each one's
   * workflows in list order), and the whole selection when the run
   * succeeds. The same holds of the pipelines whose workflows are listed
   * against the created pipelines; and the run succeeds exactly when every
   * one of those listings and cancels succeeds.
   */
  lemma RunCancelsSelected(env: Env, server: Server)
    requires ReachesScan(env, server)
    ensures var o := Run(env, server);
      var ps := ListedPipelines(env, server);
      var sel := Selected(ps, server, CurrentName(env, server), Getenv(env, WorkflowIdKey));
      && Cancels(o.sent) <= sel
      && Fetches(o.sent) <= CreatedIds(ps)
      && (o.err.None? ==> Cancels(o.sent) == sel && Fetches(o.sent) == CreatedIds(ps))
      && (o.err.None? <==> AllRequestsSucceed(ps, server, CurrentName(env, server), Getenv(env, WorkflowIdKey)))
  {
    var ps := ListedPipelines(env, server);
    var name, id := CurrentName(env, server), Getenv(env, WorkflowIdKey);
    var pre := [GetWorkflow(id), ListPipelines(EnvSlug(env), Getenv(env, BranchKey))];
    var scan := ScanPipelines(ps, server, name, id);
    RunReachingScan(env, server);
    ScanPipelinesCancels(ps, server, name, id);
    ScanPipelinesFetches(ps, server, name, id);
    ScanPipelinesSucceeds(ps, server, name, id);
    CancelsAppend(pre, scan.sent);
    FetchesAppend(pre, scan.sent);
    assert pre == [pre[0]] + [pre[1]];
    CancelsAppend([pre[0]], [pre[1]]);
    FetchesAppend([pre[0]], [pre[1]]);
  }

  /**
   * A run that fails to list the workflows of the created pipeline `ps[k]`,
   * after every request for the pipelines before it succeeded, keeps the
   * cancels it issued: exactly the selection over those pipelines.
   */
  lemma RunKeepsCancelsBeforeFailedListing(env: Env, server: Server, k: nat)
    requires ReachesScan(env, server)
    requires var ps := ListedPipelines(env, server);
      && k < |ps| && IsCreated(ps[k]) && server.listPipelineWorkflows(ps[k].id).Failure?
      && AllRequestsSucceed(ps[..k], server, CurrentName(env, server), Getenv(env, WorkflowIdKey))
    ensures var o, ps := Run(env, server), ListedPipelines(env, server);
      && o.err == Some(Error(GetWorkflows, RequestFailed(server.listPipelineWorkflows(ps[k].id).error)))
      && Cancels(o.sent) == Selected(ps[..k], server, CurrentName(env, server), Getenv(env, WorkflowIdKey))
      && Fetches(o.sent) == CreatedIds(ps[..k]) + [ps[k].id]
  {
    var ps := ListedPipelines(env, server);
    var name, id := CurrentName(env, server), Getenv(env, WorkflowIdKey);
    var pre := [GetWorkflow(id), ListPipelines(EnvSlug(env), Getenv(env, BranchKey))];
    var scan := ScanPipelines(ps, server, name, id);
    RunReachingScan(env, server);
    ScanPipelinesListingFails(ps, k, server, name, id);
    CancelsAppend(pre, scan.sent);
    FetchesAppend(pre, scan.sent);
    assert pre == [pre[0]] + [pre[1]];
    CancelsAppend([pre[0]], [pre[1]]);
    FetchesAppend([pre[0]], [pre[1]]);
  }

  /**
   * The only requests a run sends with POST, the only method that changes
   * anything on the server, are cancels of selected workflows.
   */
  lemma RunPostsOnlySelectedCancels(env: Env, server: Server, k: nat)
    requires k < |Run(env, server).sent| && Run(env, server).sent[k].Method() == "POST"
    ensures Run(env, server).sent[k].CancelWorkflow?
    ensures ReachesScan(env, server)
    ensures Run(env, server).sent[k].workflowId
         in Selected(ListedPipelines(env, server), server, CurrentName(env, server), Getenv(env, WorkflowIdKey))
  {
    var o := Run(env, server);
    CancelsOfRequest(o.sent, k);
    if !ReachesScan(env, server) {
      RunNotReachingScan(env, server);
    }
    RunCancelsSelected(env, server);
  }

  /**
   * Every workflow a run cancels was listed by a created pipeline, is "on_hold"
   * or "running", has the current workflow's name and is not the current
   * workflow; in particular a run never cancels itself.
   */
  lemma RunCancelsOnlyRedundant(env: Env, server: Server, x: string)
    requires CancelWorkflow(x) in Run(env, server).sent
    ensures ReachesScan(env, server)
    ensures x != Getenv(env, WorkflowIdKey)
    ensures exists p, w :: p in ListedPipelines(env, server) && IsCreated(p)
                           && w in Listing(server, p.id) && w.id == x
                           && IsCancelable(w.status) && w.name == CurrentName(env, server)
  {
    var o := Run(env, server);
    var k :| 0 <= k < |o.sent| && o.sent[k] == CancelWorkflow(x);
    CancelsOfRequest(o.sent, k);
    if !ReachesScan(env, server) {
      RunNotReachingScan(env, server);
    }
    RunCancelsSelected(env, server);
    var ps := ListedPipelines(env, server);
    var sel := Selected(ps, server, CurrentName(env, server), Getenv(env, WorkflowIdKey));
    assert x in sel;
    SelectedMembership(ps, server, CurrentName(env, server), Getenv(env, WorkflowIdKey), x);
  }

  /** A run lists the workflows of no pipeline that is not in the "created" state. */
  lemma RunListsOnlyCreated(env: Env, server: Server, pipelineId: string)
    requires ListPipelineWorkflows(pipelineId) in Run(env, server).sent
    ensures ReachesScan(env, server)
    ensures exists p :: p in ListedPipelines(env, server) && IsCreated(p) && p.id == pipelineId
  {
    var o := Run(env, server);
    var k :| 0 <= k < |o.sent| && o.sent[k] == ListPipelineWorkflows(pipelineId);
    FetchesOfRequest(o.sent, k);
    if !ReachesScan(env, server) {
      RunNotReachingScan(env, server);
    }
    RunCancelsSelected(env, server);
    CreatedIdsMembership(ListedPipelines(env, server), pipelineId);
  }

  lemma {:induction false} CancelsOfRequest(sent: seq<Request>, k: nat)
    requires k < |sent| && sent[k].CancelWorkflow?
    ensures sent[k].workflowId in Cancels(sent)
  {
    if k > 0 {
      CancelsOfRequest(sent[1..], k - 1);
    }
  }

  lemma {:induction false} FetchesOfRequest(sent: seq<Request>, k: nat)
    requires k < |sent| && sent[k].ListPipelineWorkflows?
    ensures sent[k].pipelineId in Fetches(sent)
  {
    if k > 0 {
      FetchesOfRequest(sent[1..], k - 1);
    }
  }

  lemma {:induction false} CreatedIdsMembership(ps: seq<Pipeline>, x: string)
    ensures x in CreatedIds(ps) <==> exists p :: p in ps && IsCreated(p) && p.id == x
  {
    if ps != [] {
      CreatedIdsMembership(ps[1..], x);
      assert forall q :: q in ps <==> q == ps[0] || q in ps[1..];
    }
  }

  /** No request is issued after one fails, and a run that reports a failed request did issue it last. */
  lemma RunStopsAtFirstFailure(env: Env, server: Server)
    ensures StopsAtFirstFailure(server, Run(env, server))
  {
    var o := Run(env, server);
    if ReachesScan(env, server) {
      var ps := ListedPipelines(env, server);
      var id := Getenv(env, WorkflowIdKey);
      RunReachingScan(env, server);
      ScanPipelinesStops(ps, server, CurrentName(env, server), id);
      ThenStops(server, [GetWorkflow(id), ListPipelines(EnvSlug(env), Getenv(env, BranchKey))],
                ScanPipelines(ps, server, CurrentName(env, server), id));
    }
  }

  /**
   * A missing organisation, repository, workflow id or token stops the run
   * before any request is issued, with an error naming the first missing
   * one in reading order; and these are the only runs that issue nothing.
   */
  lemma RunMissingConfig(env: Env, server: Server)
    ensures Run(env, server).sent == []
        <==> Getenv(env, UsernameKey) == "" || Getenv(env, ReponameKey) == ""
             || Getenv(env, WorkflowIdKey) == "" || Getenv(env, TokenKey) == ""
    ensures Getenv(env, UsernameKey) == ""
        ==> Run(env, server).err == Some(Error(GetProjectOrgSlug, MissingEnv(UsernameKey)))
    ensures Getenv(env, UsernameKey) != "" && Getenv(env, ReponameKey) == ""
        ==> Run(env, server).err == Some(Error(GetProjectReponame, MissingEnv(ReponameKey)))
    ensures Getenv(env, UsernameKey) != "" && Getenv(env, ReponameKey) != "" && Getenv(env, WorkflowIdKey) == ""
        ==> Run(env, server).err == Some(Error(GetWorkflowId, MissingEnv(WorkflowIdKey)))
    ensures Getenv(env, UsernameKey) != "" && Getenv(env, ReponameKey) != "" && Getenv(env, WorkflowIdKey) != ""
            && Getenv(env, TokenKey) == ""
        ==> Run(env, server).err == Some(Error(GetToken, MissingEnv(TokenKey)))
  {
  }

  /**
   * The branch is read only after the current workflow has been fetched: a
   * missing branch ends the run with exactly that one request issued, and a
   * failed fetch ends it before the branch is looked at.
   */
  lemma RunBranchReadAfterFirstRequest(env: Env, server: Server)
    requires Getenv(env, UsernameKey) != "" && Getenv(env, ReponameKey) != ""
    requires Getenv(env, WorkflowIdKey) != "" && Getenv(env, TokenKey) != ""
    ensures Run(env, server).sent[0] == GetWorkflow(Getenv(env, WorkflowIdKey))
    ensures server.getWorkflow(Getenv(env, WorkflowIdKey)).Failure?
        ==> Run(env, server) == Outcome([GetWorkflow(Getenv(env, WorkflowIdKey))],
              Some(Error(GetWorkflowRequest, RequestFailed(server.getWorkflow(Getenv(env, WorkflowIdKey)).error))))
    ensures server.getWorkflow(Getenv(env, WorkflowIdKey)).Success? && Getenv(env, BranchKey) == ""
        ==> Run(env, server) == Outcome([GetWorkflow(Getenv(env, WorkflowIdKey))],
              Some(Error(GetBranchName, MissingEnv(BranchKey))))
  {
  }

  /**
   * Current workflow "build" with id "W1"; one created pipeline listing W1
   * (running), W2 (on hold) and W3 (succeeded), all named "build": the run
   * cancels W2 and nothing else.
   */
  lemma ExampleCancelsOnlyTheOtherActiveRun(env: Env, server: Server)
    requires Getenv(env, UsernameKey) == "org" && Getenv(env, ReponameKey) == "repo"
    requires Getenv(env, WorkflowIdKey) == "W1" && Getenv(env, TokenKey) == "secret"
    requires Getenv(env, BranchKey) == "main"
    requires server.getWorkflow("W1") == Success(Workflow("W1", "build", "running"))
    requires server.listPipelines("gh/org/repo", "main") == Success([Pipeline("P1", "created")])
    requires server.listPipelineWorkflows("P1")
          == Success([Workflow("W1", "build", "running"), Workflow("W2", "build", "on_hold"),
                      Workflow("W3", "build", "success")])
    requires server.cancelWorkflow("W2").Success?
    ensures Run(env, server).err == None
    ensures Run(env, server).sent
         == [GetWorkflow("W1"), ListPipelines("gh/org/repo", "main"), ListPipelineWorkflows("P1"), CancelWorkflow("W2")]
  {
    assert EnvSlug(env) == "gh/org/repo";
    RunReachingScan(env, server);
    var ps := [Pipeline("P1", "created")];
    var ws := server.listPipelineWorkflows("P1").value;
    var scan := ScanWorkflows(ws, server, "build", "W1");
    assert ws[1..][1..] == [ws[2]] && ws[2..][1..] == [];
    assert ScanWorkflows(ws[2..], server, "build", "W1") == Outcome([], None);
    assert ScanWorkflows(ws[1..], server, "build", "W1") == Outcome([CancelWorkflow("W2")], None);
    assert scan == Outcome([CancelWorkflow("W2")], None);
    ScanPipelinesStep(ps, server, "build", "W1");
    assert ps[1..] == [];
  }
}
