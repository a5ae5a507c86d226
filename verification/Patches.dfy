/** reconcilers/resourcemanager.go: the patch that remembers what admission changed.
    Objects are flat: one entry per field path. */
module Patches {
  import opened Basics
  import opened Api

  /** One operation of a JSON patch (RFC 6902, section 4) at a path. */
  datatype Change = Added(value: string) | Removed | Replaced(value: string)

  /** A patch has at most one operation per path, so its order does not matter; the
      method ApplyTo below takes the operations in any order. */
  datatype Patch = Patch(generation: int, changes: map<string, Change>)

  function Lookup(fields: map<string, string>, f: string): Option<string> {
    if f in fields then Some(fields[f]) else None
  }

  function NewPatch(base: Obj, update: Obj): Patch {
    var from, to := base.fields, update.fields;
    Patch(base.generation,
          map f | f in from.Keys + to.Keys && Lookup(from, f) != Lookup(to, f) ::
            if f !in to then Removed else if f !in from then Added(to[f]) else Replaced(to[f]))
  }

  /** remove and replace need the path to exist; add overwrites. */
  predicate CanChange(change: Change, f: string, fields: map<string, string>) {
    change.Added? || f in fields
  }

  function ChangeField(change: Change, f: string, fields: map<string, string>): map<string, string> {
    if change.Removed? then fields - {f} else fields[f := change.value]
  }

  predicate Applies(p: Patch, o: Obj) {
    o.generation == p.generation && forall f | f in p.changes :: CanChange(p.changes[f], f, o.fields)
  }

  function AppliedFields(changes: map<string, Change>, fields: map<string, string>): map<string, string> {
    map f | f in fields.Keys + changes.Keys && (f in changes ==> !changes[f].Removed?) ::
      if f in changes then changes[f].value else fields[f]
  }

  function LookupApplied(changes: map<string, Change>, fields: map<string, string>, f: string): Option<string> {
    if f !in changes then Lookup(fields, f)
    else if changes[f].Removed? then None
    else Some(changes[f].value)
  }

  function Applied(p: Patch, o: Obj): Obj {
    o.(fields := AppliedFields(p.changes, o.fields))
  }

  class Target {
    var obj: Obj

    constructor (o: Obj)
      ensures obj == o
    {
      obj := o;
    }
  }

  /** The operations one at a time, in any order. */
  method ApplyOperations(changes: map<string, Change>, original: map<string, string>)
    returns (patched: Option<map<string, string>>)
    ensures patched.Some? <==> forall f | f in changes :: CanChange(changes[f], f, original)
    ensures patched.Some? ==> patched.value == AppliedFields(changes, original)
  {
    var fields := original;
    var todo := changes.Keys;
    while todo != {}
      invariant todo <= changes.Keys
      invariant forall f | f in changes && f !in todo :: CanChange(changes[f], f, original)
      invariant forall f ::
        Lookup(fields, f) == (if f in todo then Lookup(original, f) else LookupApplied(changes, original, f))
      decreases |todo|
    {
      var f :| f in todo;
      assert Lookup(fields, f) == Lookup(original, f);
      if !CanChange(changes[f], f, fields) {
        return None;
      }
      fields := ChangeField(changes[f], f, fields);
      todo := todo - {f};
    }
    AppliedLookups(changes, original);
    SameLookups(fields, AppliedFields(changes, original));
    return Some(fields);
  }

  lemma AppliedLookups(changes: map<string, Change>, fields: map<string, string>)
    ensures forall f :: Lookup(AppliedFields(changes, fields), f) == LookupApplied(changes, fields, f)
  {
  }

  /** The target is replaced only when every operation went through on a copy. */
  method ApplyTo(p: Patch, rebase: Target) returns (ok: bool)
    modifies rebase
    ensures ok == Applies(p, old(rebase.obj))
    ensures rebase.obj == if ok then Applied(p, old(rebase.obj)) else old(rebase.obj)
  {
    if rebase.obj.generation != p.generation {
      return false;
    }
    var patched := ApplyOperations(p.changes, rebase.obj.fields);
    if patched.None? {
      return false;
    }
    rebase.obj := rebase.obj.(fields := patched.value);
    return true;
  }

  /** Applying the patch to the object it was made from gives the other one. */
  lemma PatchRoundTrip(base: Obj, update: Obj)
    ensures Applies(NewPatch(base, update), base)
    ensures Applied(NewPatch(base, update), base).fields == update.fields
    ensures Applied(NewPatch(base, update), base).generation == base.generation
  {
    var p := NewPatch(base, update);
    var got := Applied(p, base).fields;
    forall f ensures Lookup(got, f) == Lookup(update.fields, f) {
      if f in base.fields.Keys + update.fields.Keys {
        assert f in p.changes <==> Lookup(base.fields, f) != Lookup(update.fields, f);
      }
    }
    SameLookups(got, update.fields);
  }

  lemma SameLookups(a: map<string, string>, b: map<string, string>)
    requires forall f :: Lookup(a, f) == Lookup(b, f)
    ensures a == b
  {
    forall f ensures f in a <==> f in b { assert Lookup(a, f) == Lookup(b, f); }
    forall f | f in a ensures a[f] == b[f] { assert Lookup(a, f) == Lookup(b, f); }
  }

  /** On any other object the patch applies exactly when the generation is that of the
      base and every field it removes or replaces is there; it then moves exactly the
      fields in which base and update differ, to what update has. */
  lemma PatchRebase(base: Obj, update: Obj, target: Obj)
    ensures var p := NewPatch(base, update);
      && (Applies(p, target) <==>
            && target.generation == base.generation
            && forall f | f in base.fields && Lookup(base.fields, f) != Lookup(update.fields, f) :: f in target.fields)
      && forall f :: Lookup(Applied(p, target).fields, f) ==
           if Lookup(base.fields, f) != Lookup(update.fields, f) then Lookup(update.fields, f) else Lookup(target.fields, f)
  {
    var p := NewPatch(base, update);
    forall f ensures f in p.changes <==> Lookup(base.fields, f) != Lookup(update.fields, f) {
      assert f in base.fields.Keys + update.fields.Keys <==> f in base.fields || f in update.fields;
    }
    forall f | f in p.changes
      ensures CanChange(p.changes[f], f, target.fields) <==> (f in base.fields ==> f in target.fields)
    {
    }
  }
}
