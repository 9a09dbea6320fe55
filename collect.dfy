/** Garbage collection shared by every ensure_<type>s_state: after the
    per-entry reconcilers ran, every listed object whose name no declared
    entry carries is deleted; a section that is absent declares nothing. */
module Collect {
  import opened Wrappers
  import opened NitroTypes
  import opened ApplianceModel

  /** No element occurs twice. */
  predicate Distinct<T(==)>(xs: seq<T>) {
    forall i, j :: 0 <= i < j < |xs| ==> xs[i] != xs[j]
  }

  /** Whether some declared entry carries the name `n`. */
  predicate Declared(declared: Option<seq<string>>, n: string) {
    declared.Some? && n in declared.value
  }

  /** The listed names no entry declares, in listing order: the removal
      list the garbage collection builds. */
  function Undeclared(names: seq<string>, declared: Option<seq<string>>): (r: seq<string>)
    ensures forall n :: n in r <==> n in names && !Declared(declared, n)
    ensures |r| <= |names|
    decreases |names|
  {
    if names == [] then []
    else
      var last := names[|names| - 1];
      Undeclared(names[..|names| - 1], declared) + (if Declared(declared, last) then [] else [last])
  }

  /** Distinct listed names give a removal list without repetitions. */
  lemma {:induction false} UndeclaredDistinct(names: seq<string>, declared: Option<seq<string>>)
    requires Distinct(names)
    ensures Distinct(Undeclared(names, declared))
    decreases |names|
  {
    if names != [] {
      var front := names[..|names| - 1];
      var last := names[|names| - 1];
      UndeclaredDistinct(front, declared);
      assert last !in front;
      assert last !in Undeclared(front, declared);
    }
  }

  /** The entries of a section; an absent section has none. */
  function Entries<T>(conf: Option<seq<T>>): seq<T> {
    if conf.Some? then conf.value else []
  }

  /** One delete per name, in order. */
  function Deletes(k: Kind, names: seq<string>): seq<Op> {
    seq(|names|, i requires 0 <= i < |names| => Delete(k, names[i]))
  }

  /** Deleting the names `xs` of type `k` removes exactly those objects of
      that type and no object of another type. */
  lemma {:induction false} DeletesRemove(s: State, k: Kind, xs: seq<string>)
    ensures ObjectNames(ApplyAll(s, Deletes(k, xs)), k) == ObjectNames(s, k) - set n | n in xs
    ensures forall k' :: k' != k ==> ObjectNames(ApplyAll(s, Deletes(k, xs)), k') == ObjectNames(s, k')
    decreases |xs|
  {
    if xs != [] {
      var ops := Deletes(k, xs);
      assert ops[0] == Delete(k, xs[0]) && ops[1..] == Deletes(k, xs[1..]);
      var s' := Apply(s, Delete(k, xs[0]));
      assert ApplyAll(s, ops) == ApplyAll(s', Deletes(k, xs[1..]));
      DeleteRemoves(s, k, xs[0]);
      DeletesRemove(s', k, xs[1..]);
      assert (set n | n in xs) == {xs[0]} + set n | n in xs[1..];
    }
  }

  /** One delete removes that one object of its type and no other. */
  lemma DeleteRemoves(s: State, k: Kind, x: string)
    ensures ObjectNames(Apply(s, Delete(k, x)), k) == ObjectNames(s, k) - {x}
    ensures forall k' :: k' != k ==> ObjectNames(Apply(s, Delete(k, x)), k') == ObjectNames(s, k')
  {
  }

  /** When every delete is accepted, the objects of that type left are
      exactly the listed ones that some entry declares. */
  lemma CollectKeepsDeclared(s: State, k: Kind, names: seq<string>, declared: Option<seq<string>>)
    requires NameListing(ObjectNames(s, k), names)
    ensures var r := ApplyAll(s, Deletes(k, Undeclared(names, declared)));
            && ObjectNames(r, k) == set n | n in ObjectNames(s, k) && Declared(declared, n)
            && forall k' :: k' != k ==> ObjectNames(r, k') == ObjectNames(s, k')
  {
    DeletesRemove(s, k, Undeclared(names, declared));
  }

  /** The inner search of each garbage collection: whether an entry with
      this name is declared. */
  method IsDeclared(declared: seq<string>, n: string) returns (found: bool)
    ensures found <==> n in declared
  {
    found := false;
    var i := 0;
    while i < |declared|
      invariant 0 <= i <= |declared|
      invariant found <==> n in declared[..i]
    {
      if declared[i] == n {
        found := true;
      }
      assert declared[..i + 1] == declared[..i] + [declared[i]];
      i := i + 1;
    }
    assert declared[..|declared|] == declared;
  }

  /** Builds the removal list from one listing. */
  method RemovalList(names: seq<string>, declared: Option<seq<string>>) returns (toRemove: seq<string>)
    ensures toRemove == Undeclared(names, declared)
  {
    toRemove := [];
    var i := 0;
    while i < |names|
      invariant 0 <= i <= |names|
      invariant toRemove == Undeclared(names[..i], declared)
    {
      var found := false;
      if declared.Some? {
        found := IsDeclared(declared.value, names[i]);
      }
      if !found {
        toRemove := toRemove + [names[i]];
      }
      assert names[..i + 1][..i] == names[..i];
      i := i + 1;
    }
    assert names[..|names|] == names;
  }

  /** Deletes every name of the removal list; false if any delete raised. */
  method DeleteAll(app: Appliance, k: Kind, toRemove: seq<string>) returns (ok: bool)
    requires app.Valid()
    modifies app
    ensures app.Valid() && app.fetches == old(app.fetches)
    ensures app.trace == old(app.trace) + Deletes(k, toRemove)
    ensures ok == app.AllAccepted(|old(app.trace)|, |app.trace|)
  {
    ok := true;
    var j := 0;
    while j < |toRemove|
      invariant 0 <= j <= |toRemove|
      invariant app.Valid() && app.fetches == old(app.fetches)
      invariant app.Made(old(app.trace), Deletes(k, toRemove[..j]), ok)
    {
      assert Deletes(k, toRemove[..j + 1]) == Deletes(k, toRemove[..j]) + [Delete(k, toRemove[j])];
      ok := app.InvokeIn(old(app.trace), Deletes(k, toRemove[..j]), ok, Delete(k, toRemove[j]));
      j := j + 1;
    }
    assert toRemove[..|toRemove|] == toRemove;
  }

  /** The garbage collection of one type: list the names, delete the
      undeclared ones, report whether every delete was accepted. */
  method CollectUndeclared(app: Appliance, k: Kind, declared: Option<seq<string>>)
    returns (ok: bool, ghost names: seq<string>)
    requires app.Valid()
    modifies app
    ensures app.Valid() && app.fetches == old(app.fetches)
    ensures NameListing(ObjectNames(old(app.config), k), names)
    ensures app.trace == old(app.trace) + Deletes(k, Undeclared(names, declared))
    ensures ok == app.AllAccepted(|old(app.trace)|, |app.trace|)
  {
    var listed := app.ListNames(k);
    names := listed;
    var toRemove := RemovalList(listed, declared);
    ok := DeleteAll(app, k, toRemove);
  }
}
