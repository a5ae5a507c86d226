/** reconcilers/child.go: one desired child against the children found.
    Children are told apart by OurChild alone (SkipOwnerReference). */
module ChildReconcilers {
  import opened Basics
  import opened Api
  import opened Finalizers
  import opened ResourceManagers

  /** Which of the children OurChild claims belong to this reconciler. */
  datatype Claim = Any | Only(id: string)

  /** What DesiredChild answers. */
  datatype Want = WantChild(desired: Desired) | WantNone | WantStatus | WantError(error: ApiError)

  datatype Reconciler = Reconciler(manager: Manager, claim: Claim)

  /** The child as ReflectChildStatusOnParent sees it: nil, an empty object, or a stored one. */
  datatype Shown = Nil | Blank | Present(found: Found)

  /** What the reconciler passes to ReflectChildStatusOnParent, if it calls it. */
  datatype Reflection = Silent | Reflected(child: Shown, error: Option<ApiError>)

  /** The outcome is a success or an error that ChildReconciler returns. */
  predicate Surfaces<T>(out: Outcome<T>) {
    out.Err? ==> !out.error.Invalid? && !out.error.AlreadyExists?
  }

  // ---------- specification

  predicate Ours(claim: Claim, child: Child) {
    child.owned && (claim.Only? ==> claim.id == child.id)
  }

  function Claimed(claim: Claim, found: seq<Found>): seq<Found> {
    if |found| == 0 then []
    else
      var last := found[|found| - 1];
      Claimed(claim, found[..|found| - 1]) + (if Ours(claim, last.child) then [last] else [])
  }

  function Deleting(w: Worker, extras: seq<Found>): Did<()>
    decreases |extras|
  {
    if |extras| == 0 then Did(w, Ok(()))
    else
      var (c, reply) := DeleteChild(w.session.cluster, extras[0].uid);
      if reply.Err? then Did(OnCluster(w, c), Err(reply.error)) else Deleting(OnCluster(w, c), extras[1..])
  }

  /** The children known to an enclosing reconciler, or else a fresh list. */
  function Looking(w: Worker, known: Option<seq<Found>>): Did<seq<Found>> {
    if known.Some? then Did(w, Ok(known.value))
    else
      var (c, reply) := ListChildren(w.session.cluster);
      Did(OnCluster(w, c), reply)
  }

  /** More than one match: delete them all and go on as if there were none. */
  function Cleaning(w: Worker, mine: seq<Found>): Did<()> {
    if |mine| > 1 then Deleting(w, mine) else Did(w, Ok(()))
  }

  function Wanted(w: Worker, want: Want): Want {
    if w.session.local.terminating then WantNone else want
  }

  function Showing(out: Outcome<Option<Found>>): Outcome<Shown> {
    match out
    case Err(e) => Err(e)
    case Ok(child) => Ok(if child.Some? then Present(child.value) else Nil)
  }

  function ManagedShown(r: Reconciler, w: Worker, actual: Option<Found>, desired: Option<Desired>): Did<Shown> {
    var did := Managed(r.manager, w, actual, desired);
    Did(did.worker, Showing(did.out))
  }

  function Settling(r: Reconciler, w: Worker, actual: Option<Found>, want: Want): Did<Shown> {
    match Wanted(w, want)
    case WantStatus => Did(w, Ok(if actual.Some? then Present(actual.value) else Blank))
    case WantError(e) => Did(w, Err(e))
    case WantNone => ManagedShown(r, w, actual, None)
    case WantChild(d) => ManagedShown(r, w, actual, Some(d))
  }

  function Reconciled(r: Reconciler, w: Worker, known: Option<seq<Found>>, want: Want): Did<Shown> {
    var looked := Looking(w, known);
    if looked.out.Err? then Did(looked.worker, Err(looked.out.error))
    else
      var mine := Claimed(r.claim, looked.out.value);
      var cleaned := Cleaning(looked.worker, mine);
      if cleaned.out.Err? then Did(cleaned.worker, Err(cleaned.out.error))
      else Settling(r, cleaned.worker, if |mine| == 1 then Some(mine[0]) else None, want)
  }

  /** An error is swallowed, and reflected, when the API server found the child invalid or
      its name taken by a resource that is not ours; never on a parent being deleted. */
  function Reflecting(r: Reconciler, did: Did<Shown>): Did<Reflection> {
    var w := did.worker;
    match did.out
    case Ok(child) => Did(w, Ok(if w.session.local.terminating then Silent else Reflected(child, None)))
    case Err(e) =>
      if w.session.local.terminating then Did(w, Err(e))
      else if e.Invalid? then Did(w, Ok(Reflected(Nil, Some(e))))
      else if e.AlreadyExists? then
        var (c, reply) := GetChild(w.session.cluster, e.blocker);
        if reply.Ok? && Ours(r.claim, reply.value) then Did(OnCluster(w, c), Err(e))
        else Did(OnCluster(w, c), Ok(Reflected(Nil, Some(e))))
      else Did(w, Err(e))
  }

  function ChildReconciled(r: Reconciler, w: Worker, known: Option<seq<Found>>, want: Want): Did<Reflection> {
    Reflecting(r, Reconciled(r, w, known, want))
  }

  // ---------- the code

  method FilterChildren(claim: Claim, children: seq<Found>) returns (items: seq<Found>)
    ensures items == Claimed(claim, children)
  {
    items := [];
    for i := 0 to |children|
      invariant items == Claimed(claim, children[..i])
    {
      assert children[..i + 1][..i] == children[..i];
      if Ours(claim, children[i].child) {
        items := items + [children[i]];
      }
    }
    assert children[..|children|] == children;
  }

  class ChildReconciler {
    const config: Reconciler
    const stamp: ResourceManager

    constructor (claim: Claim, rm: ResourceManager)
      ensures config == Reconciler(rm.config, claim) && stamp == rm
    {
      config := Reconciler(rm.config, claim);
      stamp := rm;
    }

    method DeleteExtras(server: Server, resource: Resource, extras: seq<Found>) returns (out: Outcome<()>)
      modifies server
      ensures Did(stamp.Working(server, resource), out) == old(Deleting(stamp.Working(server, resource), extras))
    {
      for i := 0 to |extras|
        invariant old(Deleting(stamp.Working(server, resource), extras))
               == Deleting(stamp.Working(server, resource), extras[i..])
      {
        assert extras[i..][0] == extras[i] && extras[i..][1..] == extras[i + 1..];
        out := server.Delete(extras[i].uid);
        if out.Err? {
          return;
        }
      }
      return Ok(());
    }

    /** Find the actual child, delete surplus ones, and bring it to what is wanted. */
    method ReconcileChild(server: Server, resource: Resource, known: Option<seq<Found>>, want: Want)
      returns (out: Outcome<Shown>)
      requires config.manager == stamp.config
      modifies server, resource, stamp
      ensures Did(stamp.Working(server, resource), out)
           == old(Reconciled(config, stamp.Working(server, resource), known, want))
    {
      var children: seq<Found>;
      if known.Some? {
        children := known.value;
      } else {
        var listed := server.List();
        if listed.Err? {
          return Err(listed.error);
        }
        children := listed.value;
      }
      children := FilterChildren(config.claim, children);
      var actual: Option<Found> := None;
      if |children| == 1 {
        actual := Some(children[0]);
      } else if |children| > 1 {
        var deleted := DeleteExtras(server, resource, children);
        if deleted.Err? {
          return Err(deleted.error);
        }
      }
      match if resource.terminating then WantNone else want
      case WantStatus => return Ok(if actual.Some? then Present(actual.value) else Blank);
      case WantError(e) => return Err(e);
      case WantNone =>
        var managed := stamp.Manage(server, resource, actual, None);
        out := Showing(managed);
      case WantChild(d) =>
        var managed := stamp.Manage(server, resource, actual, Some(d));
        out := Showing(managed);
    }

    method Reconcile(server: Server, resource: Resource, known: Option<seq<Found>>, want: Want)
      returns (out: Outcome<Reflection>)
      requires config.manager == stamp.config
      modifies server, resource, stamp
      ensures Did(stamp.Working(server, resource), out)
           == old(ChildReconciled(config, stamp.Working(server, resource), known, want))
    {
      var child := ReconcileChild(server, resource, known, want);
      if resource.terminating {
        return if child.Err? then Err(child.error) else Ok(Silent);
      }
      if child.Err? {
        if child.error.AlreadyExists? {
          var conflicted := server.GetOne(child.error.blocker);
          if conflicted.Ok? && Ours(config.claim, conflicted.value) {
            return Err(child.error);
          }
          return Ok(Reflected(Nil, Some(child.error)));
        }
        return if child.error.Invalid? then Ok(Reflected(Nil, Some(child.error))) else Err(child.error);
      }
      return Ok(Reflected(child.value, None));
    }
  }
}
