/**
 * The redundant-workflow policy: which pipelines are inspected and which of
 * their workflows are cancelled, stated over plain records and without any
 * request being issued.
 */
module Policy {
  import opened Wrappers
  import opened CircleApi

  const CreatedState := "created"
  const OnHoldStatus := "on_hold"
  const RunningStatus := "running"

  /** Only pipelines literally in the "created" state have their workflows listed. */
  predicate IsCreated(p: Pipeline) {
    p.state == CreatedState
  }

  /** The statuses a workflow is cancelled from. */
  predicate IsCancelable(status: string) {
    status == OnHoldStatus || status == RunningStatus
  }

  /**
   * A workflow is redundant with the current one when it is still active,
   * has the current workflow's name and is not the current workflow itself.
   */
  predicate ShouldCancel(w: Workflow, currentName: string, currentId: string) {
    IsCancelable(w.status) && w.name == currentName && w.id != currentId
  }

  /** The workflows the server lists for a pipeline; none when the listing fails. */
  function Listing(server: Server, pipelineId: string): seq<Workflow> {
    match server.listPipelineWorkflows(pipelineId)
    case Success(ws) => ws
    case Failure(_) => []
  }

  /** The ids of the redundant workflows among `ws`, in list order. */
  function SelectedIn(ws: seq<Workflow>, currentName: string, currentId: string): seq<string> {
    if ws == [] then []
    else
      (if ShouldCancel(ws[0], currentName, currentId) then [ws[0].id] else [])
      + SelectedIn(ws[1..], currentName, currentId)
  }

  /**
   * The ids of the redundant workflows of all created pipelines: pipelines
   * in list order, and within each pipeline its workflows in list order.
   */
  function Selected(ps: seq<Pipeline>, server: Server, currentName: string, currentId: string): seq<string> {
    if ps == [] then []
    else
      (if IsCreated(ps[0]) then SelectedIn(Listing(server, ps[0].id), currentName, currentId) else [])
      + Selected(ps[1..], server, currentName, currentId)
  }

  /** The ids of the created pipelines, in list order. */
  function CreatedIds(ps: seq<Pipeline>): seq<string> {
    if ps == [] then []
    else (if IsCreated(ps[0]) then [ps[0].id] else []) + CreatedIds(ps[1..])
  }

  /** An id is selected from a list exactly when some workflow of the list with that id is redundant. */
  lemma {:induction false} SelectedInMembership(ws: seq<Workflow>, currentName: string, currentId: string, x: string)
    ensures x in SelectedIn(ws, currentName, currentId)
        <==> exists w :: w in ws && w.id == x && ShouldCancel(w, currentName, currentId)
  {
    if ws != [] {
      SelectedInMembership(ws[1..], currentName, currentId, x);
      assert forall w :: w in ws <==> w == ws[0] || w in ws[1..];
    }
  }

  /**
   * An id is selected exactly when some created pipeline lists a workflow
   * with that id that is redundant with the current one.
   */
  lemma {:induction false} SelectedMembership(ps: seq<Pipeline>, server: Server, currentName: string, currentId: string, x: string)
    ensures x in Selected(ps, server, currentName, currentId)
        <==> exists p, w :: p in ps && IsCreated(p) && w in Listing(server, p.id)
                            && w.id == x && ShouldCancel(w, currentName, currentId)
  {
    if ps != [] {
      SelectedMembership(ps[1..], server, currentName, currentId, x);
      SelectedInMembership(Listing(server, ps[0].id), currentName, currentId, x);
      assert forall p :: p in ps <==> p == ps[0] || p in ps[1..];
    }
  }

  /** The current workflow is never selected, whatever the server lists. */
  lemma NeverSelectsCurrent(ps: seq<Pipeline>, server: Server, currentName: string, currentId: string)
    ensures currentId !in Selected(ps, server, currentName, currentId)
  {
    SelectedMembership(ps, server, currentName, currentId, currentId);
  }

  /**
   * A workflow of a created pipeline whose status is not "on_hold" or
   * "running", or whose name differs from the current one, contributes no
   * selection: removing it from the listing leaves the selection unchanged.
   */
  lemma {:induction false} SelectedInSkipsInactive(ws: seq<Workflow>, k: nat, currentName: string, currentId: string)
    requires k < |ws|
    requires !IsCancelable(ws[k].status) || ws[k].name != currentName
    ensures SelectedIn(ws, currentName, currentId) == SelectedIn(ws[..k] + ws[k + 1..], currentName, currentId)
  {
    if k > 0 {
      SelectedInSkipsInactive(ws[1..], k - 1, currentName, currentId);
      assert ws[1..][..k - 1] + ws[1..][k..] == (ws[..k] + ws[k + 1..])[1..];
    } else {
      assert ws[..k] + ws[k + 1..] == ws[1..];
    }
  }

  /** Pipelines that are not created contribute nothing, whatever the server would list for them. */
  lemma {:induction false} SelectedIgnoresUncreated(ps: seq<Pipeline>, server: Server, currentName: string, currentId: string)
    ensures Selected(ps, server, currentName, currentId)
         == Selected(FilterCreated(ps), server, currentName, currentId)
  {
    if ps != [] {
      SelectedIgnoresUncreated(ps[1..], server, currentName, currentId);
      if IsCreated(ps[0]) {
        var f := FilterCreated(ps);
        assert f[0] == ps[0] && f[1..] == FilterCreated(ps[1..]);
      } else {
        assert FilterCreated(ps) == FilterCreated(ps[1..]);
      }
    }
  }

  /** The created pipelines of `ps`, in list order. */
  function FilterCreated(ps: seq<Pipeline>): (r: seq<Pipeline>)
    ensures forall p :: p in r ==> p in ps && IsCreated(p)
  {
    if ps == [] then []
    else (if IsCreated(ps[0]) then [ps[0]] else []) + FilterCreated(ps[1..])
  }
}
