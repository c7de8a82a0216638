/** Finalizer lists are edited through a string set and written back in order. */
module Finalizers {
  import opened Sorting

  predicate HasFinalizer(fs: seq<string>, name: string) {
    name in fs
  }

  function AddFinalizer(fs: seq<string>, name: string): (r: seq<string>)
    ensures forall f :: f in r <==> f in fs || f == name
    ensures Increasing(r)
  {
    SortUnique(fs + [name])
  }

  function Without(fs: seq<string>, name: string): (r: seq<string>)
    ensures forall f :: f in r <==> f in fs && f != name
  {
    if fs == [] then []
    else
      assert fs == [fs[0]] + fs[1..];
      if fs[0] == name then Without(fs[1..], name) else [fs[0]] + Without(fs[1..], name)
  }

  function RemoveFinalizer(fs: seq<string>, name: string): (r: seq<string>)
    ensures forall f :: f in r <==> f in fs && f != name
    ensures Increasing(r)
  {
    SortUnique(Without(fs, name))
  }

  /** Removing what was just added gives back the other finalizers, in order and once each. */
  lemma RemoveUndoesAdd(fs: seq<string>, name: string)
    ensures RemoveFinalizer(AddFinalizer(fs, name), name) == RemoveFinalizer(fs, name)
    ensures name !in fs && Increasing(fs) ==> RemoveFinalizer(AddFinalizer(fs, name), name) == fs
  {
    IncreasingUnique(RemoveFinalizer(AddFinalizer(fs, name), name), RemoveFinalizer(fs, name));
    if name !in fs && Increasing(fs) { IncreasingUnique(RemoveFinalizer(fs, name), fs); }
  }
}
