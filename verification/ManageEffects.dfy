/** What each call of Manage sends, stores and answers, told by the server's state alone. */
module ManageEffects {
  import opened Basics
  import opened Api
  import opened Patches
  import opened Finalizers
  import opened ResourceManagers

  /** The child a create stores under the uid u. */
  function NewChild(u: Uid, d: Desired, obj: Obj): Child {
    Child(d.owned, d.id, false, false, u, obj)
  }

  /** With the finalizer in place and no actual child, Manage makes one call. Refused, it
      stores nothing and answers the error. Accepted, it stores the desired child as
      admission returns it, under a new uid, and changes nothing else; the answer is that
      child, unless the reply is lost or the child cannot be tracked. */
  lemma ManageCreates(m: Manager, w: Worker, d: Desired)
    requires WellFormed(w.session.cluster) && FinalizerHeld(m, w)
    ensures var did := Managed(m, w, None, Some(d));
      var c, c' := w.session.cluster, did.worker.session.cluster;
      var (c1, fate) := Begin(c);
      var u, obj := c1.clock, if |c.tape| > 0 then c.tape[0].admit(d.obj) else d.obj;
      && did.worker == OnCluster(w, c')
      && u !in c1.children
      && (fate.Refused? ==> c' == c1 && did.out == Err(fate.error))
      && (!fate.Refused? ==>
            && c'.children == c1.children[u := NewChild(u, d, obj)]
            && c'.parent == c1.parent && c'.writes == c.writes + [Created(u)])
      && (fate.ReplyLost? ==> did.out == Err(fate.error))
      && (fate.Done? ==>
            if m.tracks ==> m.trackable then did.out == Ok(Some(Found(u, NewChild(u, d, obj)))) else did.out.Err?)
  {
    BeginEvolves(w.session.cluster);
  }

  /** The same undisturbed. */
  lemma QuietManageCreates(m: Manager, w: Worker, d: Desired)
    requires WellFormed(w.session.cluster) && Quiet(w.session.cluster) && FinalizerHeld(m, w)
    requires Managed(m, w, None, Some(d)).out.Ok?
    ensures var did := Managed(m, w, None, Some(d));
      var c, c' := w.session.cluster, did.worker.session.cluster;
      && |c.tape| > 0 && did.out.value.Some?
      && var k := did.out.value.value;
         && k.uid == c.clock && k.uid !in c.children
         && c'.children == c.children[k.uid := k.child]
         && k.child.owned == d.owned && k.child.id == d.id && !k.child.terminating
         && k.child.obj == c.tape[0].admit(d.obj)
         && c'.writes == c.writes + [Created(k.uid)]
  {
    ManageCreates(m, w, d);
    QuietBegin(w.session.cluster);
  }

  /** A child that is desired waits for the finalizer: if that cannot be set, its error is
      the answer and no child is touched; if it is, Manage goes on from there. */
  lemma FinalizerComesFirst(m: Manager, w: Worker, actual: Option<Found>, d: Desired)
    requires WellFormed(w.session.cluster) && !FinalizerHeld(m, w)
    ensures var r := Ensure(w.session, m.finalizer, true);
      var did := Managed(m, w, actual, Some(d));
      var w1 := w.(session := r.session);
      && (r.out.Err? ==> did == Did(w1, Err(r.out.error)) && r.session.cluster.children == Begin(w.session.cluster).0.children)
      && (r.out.Ok? ==> FinalizerHeld(m, w1) && did == Managed(m, w1, actual, Some(d)))
  {
    PatchEffect(w.session.cluster, w.session.local.version, w.session.local.finalizers + [m.finalizer]);
  }

  /** A child that cannot be tracked is not updated. */
  lemma UntrackableStays(m: Manager, w: Worker, a: Found, d: Desired)
    requires FinalizerHeld(m, w) && m.tracks && !m.trackable
    ensures var did := Managed(m, w, Some(a), Some(d));
      did.worker == w && did.out.Err?
  {
  }

  /** A child that is in sync makes no call; any other is updated in one call, with the
      version it was read at. The error of that call is the answer. */
  lemma ManageUpdates(m: Manager, w: Worker, a: Found, d: Desired)
    requires WellFormed(w.session.cluster) && FinalizerHeld(m, w) && (m.tracks ==> m.trackable)
    ensures var did := Managed(m, w, Some(a), Some(d));
      var c, c' := w.session.cluster, did.worker.session.cluster;
      var (c1, fate) := Begin(c);
      if Proposal(m, w.cache, a, d) == a.child.obj then did == Did(w, Ok(Some(a)))
      else
        && did.worker.session.local == w.session.local
        && (fate.Refused? || a.uid !in c1.children || c1.children[a.uid].version != a.child.version ==>
              c' == c1 && did.out.Err? && did.worker.cache == w.cache)
        && (fate.Refused? ==> did.out == Err(fate.error))
        && (fate.ReplyLost? ==> did.out.Err?)
        && (!fate.Refused? && a.uid in c1.children && c1.children[a.uid].version == a.child.version ==>
              c'.writes == c.writes + [Updated(a.uid)] && (fate.ReplyLost? ==> did.out == Err(fate.error)))
        && (did.out.Ok? ==> did.out.value.Some? && did.out.value.value.uid == a.uid)
  {
    BeginEvolves(w.session.cluster);
  }

  /** A child that is not desired is deleted in one call unless it is already going away;
      nothing is answered for it. */
  lemma ManageDeletes(m: Manager, w: Worker, a: Found)
    requires WellFormed(w.session.cluster)
    ensures var did := Managed(m, w, Some(a), None);
      var c, c' := w.session.cluster, did.worker.session.cluster;
      var (c1, fate) := Begin(c);
      if a.child.terminating then did == Did(w, Ok(None))
      else
        && did.worker == OnCluster(w, c')
        && (fate.Refused? ==> c' == c1 && did.out == Err(fate.error))
        && (!fate.Refused? && a.uid !in c1.children ==> c' == c1 && did.out == Err(NotFound))
        && (!fate.Refused? && a.uid in c1.children ==>
              && c'.writes == c.writes + [Deleted(a.uid)]
              && (a.uid in c'.children ==> c'.children[a.uid].terminating)
              && c'.children - {a.uid} == c1.children - {a.uid} && c'.parent == c1.parent
              && did.out == if fate.ReplyLost? then Err(fate.error) else Ok(None))
  {
    BeginEvolves(w.session.cluster);
  }
}
