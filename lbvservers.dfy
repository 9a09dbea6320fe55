/** Load-balancing vservers in apply_netscaler_state.py: ensure_lbvserver_state
    resolves the declared vserver against the listed ones, applies the
    replace rule, and reconciles its service group bindings;
    ensure_lbvservers_state runs it for every entry and then deletes the
    undeclared lbvservers. */
module Lbvservers {
  import opened Wrappers
  import opened NitroTypes
  import opened Matcher
  import opened ApplianceModel
  import opened Collect
  import opened Vservers

  // ---------------------------------------------------------------------
  // The match phase

  /** The address match as NSLBVServer.get returns it after the rename. */
  function Renamed(x: Vserver, c: VserverConf): Vserver {
    x.(name := c.name)
  }

  /** The address-only branch (apply_netscaler_state.py:551-562): rename the
      address match to the desired name, fetch it again by that name, and
      check port and protocol on what came back. When the rename was refused
      there is nothing of that name and the fetch raises. */
  function AddressMatchOps(x: Vserver, c: VserverConf, renamed: bool): seq<Op> {
    [RenameVserver(LbvserverKind, x.name, c.name)]
    + (if renamed then CheckOps(LbvserverKind, Renamed(x, c), c) else [])
  }

  /** The calls of the match phase; `renamed` is whether the rename the
      address-only branch starts with is accepted. */
  function LbMatchOps(m: Matches<Vserver>, c: VserverConf, renamed: bool): seq<Op> {
    if m.byName.Some? then NameMatchOps(LbvserverKind, m, c)
    else if m.byAddress.Some? then AddressMatchOps(m.byAddress.value, c, renamed)
    else []
  }

  /** The unguarded NSLBVServer.get raises exactly in the address-only
      branch after a refused rename. */
  predicate MatchRaises(m: Matches<Vserver>, renamed: bool) {
    m.byName.None? && m.byAddress.Some? && !renamed
  }

  // ---------------------------------------------------------------------
  // The service group bindings

  /** `keys` is one iteration order of the dictionary built from the
      declared `service_group_bindings`: each declared name once. */
  ghost predicate KeysOf(keys: seq<string>, declared: seq<string>) {
    Distinct(keys) && forall g :: g in keys <==> g in declared
  }

  /** The first loop (apply_netscaler_state.py:664-676): an observed binding
      no key names is unbound, once per occurrence. */
  function UnbindOps(lb: string, keys: seq<string>, obs: seq<string>): seq<Op>
    decreases |obs|
  {
    if obs == [] then []
    else
      var b := obs[|obs| - 1];
      UnbindOps(lb, keys, obs[..|obs| - 1]) + (if b in keys then [] else [UnbindServiceGroup(lb, b)])
  }

  /** The second loop (apply_netscaler_state.py:678-687): a key still
      unmarked is bound. Keys are marked only when the fetch succeeded and
      some observed binding names them. */
  function BindOps(lb: string, keys: seq<string>, fetched: Option<seq<string>>): seq<Op>
    decreases |keys|
  {
    if keys == [] then []
    else
      var g := keys[|keys| - 1];
      BindOps(lb, keys[..|keys| - 1], fetched)
      + (if fetched.Some? && g in fetched.value then [] else [BindServiceGroup(lb, g)])
  }

  /** The binding calls, given what the binding fetch returned. */
  function LbBindingOps(lb: string, keys: seq<string>, fetched: Option<seq<string>>): seq<Op> {
    (if fetched.Some? then UnbindOps(lb, keys, fetched.value) else []) + BindOps(lb, keys, fetched)
  }

  lemma {:induction false} UnbindContents(lb: string, keys: seq<string>, obs: seq<string>)
    ensures forall op :: op in UnbindOps(lb, keys, obs) ==> op.UnbindServiceGroup? && op.lbvserverName == lb
    ensures forall g :: UnbindServiceGroup(lb, g) in UnbindOps(lb, keys, obs) <==> g in obs && g !in keys
    decreases |obs|
  {
    if obs != [] {
      var front := obs[..|obs| - 1];
      UnbindContents(lb, keys, front);
      assert obs == front + [obs[|obs| - 1]];
    }
  }

  lemma {:induction false} BindContents(lb: string, keys: seq<string>, fetched: Option<seq<string>>)
    ensures forall op :: op in BindOps(lb, keys, fetched) ==> op.BindServiceGroup? && op.lbvserverName == lb
    ensures forall g :: BindServiceGroup(lb, g) in BindOps(lb, keys, fetched) <==>
                          g in keys && (fetched.None? || g !in fetched.value)
    decreases |keys|
  {
    if keys != [] {
      var front := keys[..|keys| - 1];
      BindContents(lb, front, fetched);
      assert keys == front + [keys[|keys| - 1]];
    }
  }

  /** The binding calls: an observed binding is unbound exactly when no
      declared name matches it, a declared name is bound exactly when it was
      not observed or the fetch failed, and nothing else is called. After a
      failed fetch nothing is unbound and every declared name is bound. */
  lemma BindingCalls(lb: string, keys: seq<string>, fetched: Option<seq<string>>)
    ensures var ops := LbBindingOps(lb, keys, fetched);
            && (forall op :: op in ops ==> (op.UnbindServiceGroup? || op.BindServiceGroup?) && op.lbvserverName == lb)
            && (forall g :: UnbindServiceGroup(lb, g) in ops <==> fetched.Some? && g in fetched.value && g !in keys)
            && (forall g :: BindServiceGroup(lb, g) in ops <==> g in keys && (fetched.None? || g !in fetched.value))
  {
    if fetched.Some? {
      UnbindContents(lb, keys, fetched.value);
    }
    BindContents(lb, keys, fetched);
  }

  /** Distinct keys are bound at most once each. */
  lemma {:induction false} BindsDistinct(lb: string, keys: seq<string>, fetched: Option<seq<string>>)
    requires Distinct(keys)
    ensures Distinct(BindOps(lb, keys, fetched))
    decreases |keys|
  {
    if keys != [] {
      var front := keys[..|keys| - 1];
      var g := keys[|keys| - 1];
      BindsDistinct(lb, front, fetched);
      BindContents(lb, front, fetched);
      assert g !in front;
    }
  }

  /** When the observed bindings are already the declared ones, the binding
      reconciler makes no call. */
  lemma BindingsIdempotent(lb: string, keys: seq<string>, obs: seq<string>)
    requires forall g :: g in obs <==> g in keys
    ensures LbBindingOps(lb, keys, Some(obs)) == []
  {
    UnbindNone(lb, keys, obs);
    BindNone(lb, keys, obs);
  }

  lemma {:induction false} UnbindNone(lb: string, keys: seq<string>, obs: seq<string>)
    requires forall b :: b in obs ==> b in keys
    ensures UnbindOps(lb, keys, obs) == []
    decreases |obs|
  {
    if obs != [] {
      assert obs[|obs| - 1] in obs;
      UnbindNone(lb, keys, obs[..|obs| - 1]);
    }
  }

  lemma {:induction false} BindNone(lb: string, keys: seq<string>, obs: seq<string>)
    requires forall g :: g in keys ==> g in obs
    ensures BindOps(lb, keys, Some(obs)) == []
    decreases |keys|
  {
    if keys != [] {
      assert keys[|keys| - 1] in keys;
      BindNone(lb, keys[..|keys| - 1], obs);
    }
  }

  /** The unbinds leave the observed bindings some key names, `xs` being the
      observed bindings visited so far. */
  lemma {:induction false} UnbindConverges(s: State, lb: string, keys: seq<string>, full: seq<string>, xs: seq<string>)
    requires LbBindingsOf(s, lb) == full && (lb in s.lbBindings || full == [])
    requires |xs| <= |full| && xs == full[..|xs|]
    ensures var r := ApplyAll(s, UnbindOps(lb, keys, xs));
            && r.lbvservers == s.lbvservers
            && (forall g :: g in LbBindingsOf(r, lb) <==> g in full && (g in xs ==> g in keys))
            && (lb in r.lbBindings || full == [])
    decreases |xs|
  {
    if xs != [] {
      var front := xs[..|xs| - 1];
      var b := xs[|xs| - 1];
      assert front == full[..|front|];
      UnbindConverges(s, lb, keys, full, front);
      assert xs == front + [b];
      if b !in keys {
        var r0 := ApplyAll(s, UnbindOps(lb, keys, front));
        ApplyAllSnoc(s, UnbindOps(lb, keys, front), UnbindServiceGroup(lb, b));
        assert b in full;
        WithoutContents(r0.lbBindings[lb], b);
      } else {
        assert UnbindOps(lb, keys, xs) == UnbindOps(lb, keys, front);
      }
    }
  }

  /** The binds add every key left unmarked. */
  lemma {:induction false} BindConverges(s: State, lb: string, keys: seq<string>, fetched: Option<seq<string>>)
    requires lb in s.lbvservers
    ensures var r := ApplyAll(s, BindOps(lb, keys, fetched));
            && r.lbvservers == s.lbvservers
            && forall g :: g in LbBindingsOf(r, lb) <==>
                             g in LbBindingsOf(s, lb) || (g in keys && (fetched.None? || g !in fetched.value))
    decreases |keys|
  {
    if keys != [] {
      var front := keys[..|keys| - 1];
      var g := keys[|keys| - 1];
      BindConverges(s, lb, front, fetched);
      assert keys == front + [g];
      if !(fetched.Some? && g in fetched.value) {
        ApplyAllSnoc(s, BindOps(lb, front, fetched), BindServiceGroup(lb, g));
      } else {
        assert BindOps(lb, keys, fetched) == BindOps(lb, front, fetched);
      }
    }
  }

  /** When every binding call is accepted after a successful fetch, the
      lbvserver is bound to exactly the declared service groups. */
  lemma BindingsConverge(s: State, lb: string, keys: seq<string>)
    requires lb in s.lbvservers
    ensures var r := ApplyAll(s, LbBindingOps(lb, keys, Some(LbBindingsOf(s, lb))));
            && r.lbvservers == s.lbvservers
            && forall g :: g in LbBindingsOf(r, lb) <==> g in keys
  {
    var obs := LbBindingsOf(s, lb);
    assert obs == obs[..|obs|];
    UnbindConverges(s, lb, keys, obs, obs);
    var s1 := ApplyAll(s, UnbindOps(lb, keys, obs));
    BindConverges(s1, lb, keys, Some(obs));
    ApplyAllConcat(s, UnbindOps(lb, keys, obs), BindOps(lb, keys, Some(obs)));
  }

  // ---------------------------------------------------------------------
  // Properties of the match phase

  /** After an accepted rename the address match is the desired vserver
      under the desired name and has brought its bindings along. */
  lemma AddressMatchConverges(s: State, x: Vserver, c: VserverConf)
    requires x.name in s.lbvservers && s.lbvservers[x.name] == x
    requires x.name != c.name && x.ipv46 == c.vipAddress && c.name !in s.lbvservers
    ensures var r := ApplyAll(s, AddressMatchOps(x, c, true));
            && r.lbvservers == (s.lbvservers - {x.name})[c.name := NewVserver(c)]
            && r.lbBindings == MoveKey(s.lbBindings, x.name, c.name)
  {
    var u := Renamed(x, c);
    var s1 := Apply(s, RenameVserver(LbvserverKind, x.name, c.name));
    assert s1.lbvservers == (s.lbvservers - {x.name})[c.name := u];
    ApplyAllConcat(s, [RenameVserver(LbvserverKind, x.name, c.name)], CheckOps(LbvserverKind, u, c));
    ApplyAllOne(s, RenameVserver(LbvserverKind, x.name, c.name));
    CheckConverges(s1, LbvserverKind, u, c);
    if CheckOps(LbvserverKind, u, c) == [] {
      assert u == NewVserver(c);
    }
  }

  /** Once every call of the match phase is accepted, the replace rule finds
      the desired vserver and makes no call; with neither a name nor an
      address match it creates the vserver. */
  lemma MatchPhaseSettles(s: State, all: seq<Vserver>, c: VserverConf)
    requires WellKeyed(s) && Lists(s.lbvservers, all, VserverName)
    ensures var m := MatchesFound(all, VserverBucket(c));
            var r := ApplyAll(s, LbMatchOps(m, c, true));
            && (m.byName.Some? || m.byAddress.Some? ==>
                  && Get(r.lbvservers, c.name) == Some(NewVserver(c))
                  && ReplaceOps(LbvserverKind, Get(r.lbvservers, c.name), c) == [])
            && (m.byName.None? && m.byAddress.None? ==>
                  && r == s
                  && ReplaceOps(LbvserverKind, Get(r.lbvservers, c.name), c) == [AddVserver(LbvserverKind, NewVserver(c))])
  {
    var m := MatchesFound(all, VserverBucket(c));
    VserverNameSlot(all, c);
    if m.byName.Some? {
      NameMatchConverges(s, LbvserverKind, all, c);
    } else {
      assert c.name !in s.lbvservers;
      if m.byAddress.Some? {
        AddressMatchConverges(s, m.byAddress.value, c);
      }
    }
  }

  /** When every call of an entry's run is accepted and its binding fetch
      succeeds, the lbvserver exists as declared and is bound to exactly the
      declared service groups. */
  lemma LbEntryConverges(s: State, all: seq<Vserver>, c: LbvserverConf, keys: seq<string>)
    requires WellKeyed(s) && Lists(s.lbvservers, all, VserverName)
    ensures var v := c.vserver;
            var s1 := ApplyAll(s, LbMatchOps(MatchesFound(all, VserverBucket(v)), v, true));
            var s2 := ApplyAll(s1, ReplaceOps(LbvserverKind, Get(s1.lbvservers, v.name), v));
            var r := ApplyAll(s2, LbBindingOps(v.name, keys, Some(LbBindingsOf(s2, v.name))));
            && v.name in r.lbvservers && r.lbvservers[v.name] == NewVserver(v)
            && forall g :: g in LbBindingsOf(r, v.name) <==> g in keys
  {
    var v := c.vserver;
    var m := MatchesFound(all, VserverBucket(v));
    MatchPhaseSettles(s, all, v);
    var s1 := ApplyAll(s, LbMatchOps(m, v, true));
    var s2 := ApplyAll(s1, ReplaceOps(LbvserverKind, Get(s1.lbvservers, v.name), v));
    if m.byName.None? && m.byAddress.None? {
      ApplyAllOne(s1, AddVserver(LbvserverKind, NewVserver(v)));
    }
    assert v.name in s2.lbvservers && s2.lbvservers[v.name] == NewVserver(v);
    BindingsConverge(s2, v.name, keys);
  }

  // ---------------------------------------------------------------------
  // The reconciler

  /** The address-only branch. `raised` is the NSNitroError of the unguarded
      NSLBVServer.get; it happens exactly when the rename is refused. */
  method ActOnAddressMatch(app: Appliance, x: Vserver, c: VserverConf) returns (raised: bool, ok: bool)
    requires app.Valid()
    requires x.name in app.config.lbvservers && app.config.lbvservers[x.name] == x
    requires x.name != c.name && c.name !in app.config.lbvservers
    modifies app
    ensures app.Valid() && app.fetches == old(app.fetches)
    ensures raised == (|old(app.trace)| in app.fails)
    ensures app.trace == old(app.trace) + AddressMatchOps(x, c, !raised)
    ensures !raised ==> ok == app.AllAccepted(|old(app.trace)|, |app.trace|)
  {
    var refetched := RenameAndFetch(app, x, c);
    if refetched.None? {
      return true, false;
    }
    ghost var t1 := app.trace;
    var checked := CheckPortAndProtocol(app, LbvserverKind, refetched.value, c);
    app.AcceptedSplit(|old(app.trace)|, |t1|, |app.trace|);
    raised, ok := false, checked;
  }

  /** NSLBVServer.rename, then NSLBVServer.get by the new name; None stands
      for the NSNitroError of a get that finds nothing. */
  method RenameAndFetch(app: Appliance, x: Vserver, c: VserverConf) returns (refetched: Option<Vserver>)
    requires app.Valid()
    requires x.name in app.config.lbvservers && app.config.lbvservers[x.name] == x
    requires x.name != c.name && c.name !in app.config.lbvservers
    modifies app
    ensures app.Valid() && app.fetches == old(app.fetches)
    ensures app.trace == old(app.trace) + [RenameVserver(LbvserverKind, x.name, c.name)]
    ensures refetched == if |old(app.trace)| in app.fails then None else Some(Renamed(x, c))
  {
    var renamed := app.Invoke(RenameVserver(LbvserverKind, x.name, c.name));
    refetched := app.GetVserver(LbvserverKind, c.name);
  }

  /** The match phase of ensure_lbvserver_state
      (apply_netscaler_state.py:532-598). */
  method LbMatchPhase(app: Appliance, all: seq<Vserver>, m: Matches<Vserver>, c: VserverConf) returns (raised: bool, ok: bool)
    requires app.Valid() && Lists(app.config.lbvservers, all, VserverName)
    requires m == MatchesFound(all, VserverBucket(c))
    modifies app
    ensures app.Valid() && app.fetches == old(app.fetches)
    ensures raised == MatchRaises(m, |old(app.trace)| !in app.fails)
    ensures app.trace == old(app.trace) + LbMatchOps(m, c, |old(app.trace)| !in app.fails)
    ensures !raised ==> ok == app.AllAccepted(|old(app.trace)|, |app.trace|)
  {
    VserverNameSlot(all, c);
    if m.byName.Some? {
      raised := false;
      ok := ActOnNameMatch(app, LbvserverKind, m, c);
    } else if m.byAddress.Some? {
      assert c.name !in app.config.lbvservers;
      var x := m.byAddress.value;
      assert x.name in app.config.lbvservers by {
        var i :| 0 <= i < |all| && all[i] == x;
      }
      raised, ok := ActOnAddressMatch(app, x, c);
    } else {
      raised, ok := false, true;
    }
  }

  /** The dictionary of declared names (apply_netscaler_state.py:660-662).
      Only its key set is relied on, so any iteration order will do. */
  method DesiredKeys(declared: seq<string>) returns (keys: seq<string>)
    ensures KeysOf(keys, declared)
  {
    keys := [];
    var i := 0;
    while i < |declared|
      invariant 0 <= i <= |declared|
      invariant Distinct(keys)
      invariant forall g :: g in keys <==> g in declared[..i]
    {
      assert declared[..i + 1] == declared[..i] + [declared[i]];
      if declared[i] !in keys {
        keys := keys + [declared[i]];
      }
      i := i + 1;
    }
    assert declared[..|declared|] == declared;
  }

  /** The inner loop for one observed binding: every key that names it is
      marked. */
  method MarkKeys(keys: seq<string>, marked: seq<bool>, b: string) returns (marked': seq<bool>, found: bool)
    requires |marked| == |keys|
    ensures |marked'| == |keys|
    ensures forall i :: 0 <= i < |keys| ==> marked'[i] == (marked[i] || keys[i] == b)
    ensures found == (b in keys)
  {
    marked', found := marked, false;
    var j := 0;
    while j < |keys|
      invariant 0 <= j <= |keys| && |marked'| == |keys|
      invariant forall i :: 0 <= i < j ==> marked'[i] == (marked[i] || keys[i] == b)
      invariant forall i :: j <= i < |keys| ==> marked'[i] == marked[i]
      invariant found == (b in keys[..j])
    {
      assert keys[..j + 1] == keys[..j] + [keys[j]];
      if keys[j] == b {
        found := true;
        marked' := marked'[j := true];
      }
      j := j + 1;
    }
    assert keys[..|keys|] == keys;
  }

  /** The first binding loop over the observed bindings `obs`. */
  method UnbindUndeclared(app: Appliance, lb: string, keys: seq<string>, obs: seq<string>)
    returns (ok: bool, marked: seq<bool>)
    requires app.Valid()
    modifies app
    ensures app.Valid() && app.fetches == old(app.fetches)
    ensures app.trace == old(app.trace) + UnbindOps(lb, keys, obs)
    ensures |marked| == |keys| && forall i :: 0 <= i < |keys| ==> (marked[i] <==> keys[i] in obs)
    ensures ok == app.AllAccepted(|old(app.trace)|, |app.trace|)
  {
    marked := seq(|keys|, _ => false);
    ok := true;
    var i := 0;
    while i < |obs|
      invariant app.Valid() && app.fetches == old(app.fetches)
      invariant UnbindLoopAt(app, old(app.trace), lb, keys, obs, i, ok, marked)
    {
      ok, marked := UnbindStep(app, lb, keys, obs, i, old(app.trace), ok, marked);
      i := i + 1;
    }
    assert obs[..|obs|] == obs;
  }

  /** The first binding loop, started at trace `t0`, has visited the first
      `i` observed bindings: it made their unbinds, `ok` says whether all
      were accepted, and `marked` flags the keys among them. */
  ghost predicate UnbindLoopAt(app: Appliance, t0: seq<Op>, lb: string, keys: seq<string>, obs: seq<string>,
                               i: nat, ok: bool, marked: seq<bool>)
    reads app
  {
    && i <= |obs| && |t0| <= |app.trace|
    && app.trace == t0 + UnbindOps(lb, keys, obs[..i])
    && ok == app.AllAccepted(|t0|, |app.trace|)
    && |marked| == |keys| && forall j :: 0 <= j < |keys| ==> (marked[j] <==> keys[j] in obs[..i])
  }

  /** One observed binding of the first loop. */
  method UnbindStep(app: Appliance, lb: string, keys: seq<string>, obs: seq<string>, i: nat,
                    ghost t0: seq<Op>, ok0: bool, marked0: seq<bool>)
    returns (ok: bool, marked: seq<bool>)
    requires app.Valid() && i < |obs| && UnbindLoopAt(app, t0, lb, keys, obs, i, ok0, marked0)
    modifies app
    ensures app.Valid() && app.fetches == old(app.fetches)
    ensures UnbindLoopAt(app, t0, lb, keys, obs, i + 1, ok, marked)
  {
    ok := ok0;
    assert obs[..i + 1][..i] == obs[..i];
    assert obs[..i + 1] == obs[..i] + [obs[i]];
    var found;
    marked, found := MarkKeys(keys, marked0, obs[i]);
    if !found {
      ok := app.InvokeIn(t0, UnbindOps(lb, keys, obs[..i]), ok, UnbindServiceGroup(lb, obs[i]));
    }
  }

  /** The second binding loop: every unmarked key is bound. */
  method BindUnmarked(app: Appliance, lb: string, keys: seq<string>, marked: seq<bool>, ghost fetched: Option<seq<string>>)
    returns (ok: bool)
    requires app.Valid()
    requires |marked| == |keys|
    requires forall i :: 0 <= i < |keys| ==> (marked[i] <==> fetched.Some? && keys[i] in fetched.value)
    modifies app
    ensures app.Valid() && app.fetches == old(app.fetches)
    ensures app.trace == old(app.trace) + BindOps(lb, keys, fetched)
    ensures ok == app.AllAccepted(|old(app.trace)|, |app.trace|)
  {
    ok := true;
    var j := 0;
    while j < |keys|
      invariant 0 <= j <= |keys|
      invariant app.Valid() && app.fetches == old(app.fetches)
      invariant app.Made(old(app.trace), BindOps(lb, keys[..j], fetched), ok)
    {
      assert keys[..j + 1][..j] == keys[..j] && keys[..j + 1][j] == keys[j];
      assert BindOps(lb, keys[..j + 1], fetched)
          == BindOps(lb, keys[..j], fetched) + (if marked[j] then [] else [BindServiceGroup(lb, keys[j])]);
      if !marked[j] {
        ok := app.InvokeIn(old(app.trace), BindOps(lb, keys[..j], fetched), ok, BindServiceGroup(lb, keys[j]));
      }
      j := j + 1;
    }
    BindsDone(app.trace, old(app.trace), lb, keys, fetched);
  }

  lemma BindsDone(t: seq<Op>, t0: seq<Op>, lb: string, keys: seq<string>, fetched: Option<seq<string>>)
    requires t == t0 + BindOps(lb, keys[..|keys|], fetched)
    ensures t == t0 + BindOps(lb, keys, fetched)
  {
    assert keys[..|keys|] == keys;
  }

  /** The binding fetch, `n` being its number: NSNitroError (None) when the
      read fails or there is no lbvserver of that name. */
  ghost function BindingsFetch(app: Appliance, t: seq<Op>, n: nat, lb: string): Option<seq<string>> {
    if n in app.fetchFails || lb !in app.At(t).lbvservers then None else Some(LbBindingsOf(app.At(t), lb))
  }

  /** The binding reconciler (apply_netscaler_state.py:649-687). */
  method EnsureLbBindings(app: Appliance, lb: string, declared: seq<string>)
    returns (ok: bool, ghost keys: seq<string>, ghost fetched: Option<seq<string>>)
    requires app.Valid()
    modifies app
    ensures app.Valid() && app.fetches == old(app.fetches) + 1
    ensures fetched == BindingsFetch(app, old(app.trace), old(app.fetches), lb)
    ensures KeysOf(keys, declared)
    ensures app.trace == old(app.trace) + LbBindingOps(lb, keys, fetched)
    ensures ok == app.AllAccepted(|old(app.trace)|, |app.trace|)
  {
    assert app.config == app.At(app.trace);
    var got := app.FetchServiceGroupBindings(lb);
    fetched := got;
    var ks := DesiredKeys(declared);
    keys := ks;
    var removed := true;
    var marked := seq(|ks|, _ => false);
    if got.Some? {
      removed, marked := UnbindUndeclared(app, lb, ks, got.value);
    }
    ghost var unbinds := if fetched.Some? then UnbindOps(lb, ks, fetched.value) else [];
    assert app.trace == old(app.trace) + unbinds;
    ghost var t1 := app.trace;
    var added := BindUnmarked(app, lb, ks, marked, fetched);
    TraceAppend(old(app.trace), t1, app.trace, unbinds, BindOps(lb, ks, fetched));
    app.AcceptedSplit(|old(app.trace)|, |t1|, |app.trace|);
    ok := removed && added;
  }

  /** One entry's run from trace `t`, `n` being the number of its binding
      fetch: the listing it matched against, the match phase, and unless
      that raised the replace rule and the binding calls. */
  ghost predicate LbStep(app: Appliance, t: seq<Op>, n: nat, c: LbvserverConf, listing: seq<Vserver>,
                         keys: seq<string>, fetched: Option<seq<string>>, t': seq<Op>, raised: bool)
  {
    var v := c.vserver;
    var m := MatchesFound(listing, VserverBucket(v));
    var renamed := |t| !in app.fails;
    var t1 := t + LbMatchOps(m, v, renamed);
    var t2 := t1 + ReplaceOps(LbvserverKind, Get(app.At(t1).lbvservers, v.name), v);
    && Lists(app.At(t).lbvservers, listing, VserverName)
    && raised == MatchRaises(m, renamed)
    && (raised ==> t' == t1)
    && (!raised ==>
          && fetched == BindingsFetch(app, t2, n, v.name)
          && KeysOf(keys, c.serviceGroupBindings)
          && t' == t2 + LbBindingOps(v.name, keys, fetched))
  }

  /** ensure_lbvserver_state (apply_netscaler_state.py:516-689). */
  method EnsureLbvserverState(app: Appliance, c: LbvserverConf)
    returns (out: Outcome, ghost listing: seq<Vserver>, ghost keys: seq<string>, ghost fetched: Option<seq<string>>)
    requires app.Valid()
    modifies app
    ensures app.Valid() && app.fetches == old(app.fetches) + (if out.Raised? then 0 else 1)
    ensures LbStep(app, old(app.trace), old(app.fetches), c, listing, keys, fetched, app.trace, out.Raised?)
    ensures out.Returned? ==> out.ok == app.AllAccepted(|old(app.trace)|, |app.trace|)
  {
    var v := c.vserver;
    assert app.config == app.At(app.trace);
    var all := app.ListVservers(LbvserverKind);
    listing := all;
    var m := FindMatches(all, VserverBucket(v));
    var raised, matched := LbMatchPhase(app, all, m, v);
    if raised {
      return Raised, listing, [], None;
    }
    ghost var t1 := app.trace;
    assert app.config == app.At(t1);
    var replaced := ReplaceVserver(app, LbvserverKind, v);
    ghost var t2 := app.trace;
    var bound;
    bound, keys, fetched := EnsureLbBindings(app, v.name, c.serviceGroupBindings);
    app.AcceptedSplit(|old(app.trace)|, |t1|, |t2|);
    app.AcceptedSplit(|old(app.trace)|, |t2|, |app.trace|);
    out := Returned(matched && replaced && bound);
  }

  // ---------------------------------------------------------------------
  // The section

  function LbNames(cs: seq<LbvserverConf>): seq<string> {
    seq(|cs|, i requires 0 <= i < |cs| => cs[i].vserver.name)
  }

  function DeclaredLbvservers(conf: Option<seq<LbvserverConf>>): Option<seq<string>> {
    if conf.Some? then Some(LbNames(conf.value)) else None
  }

  /** The first `i` entries of `confs` ran, entry j from `starts[j]` to
      `starts[j + 1]`, the last of them raising when `raised`. */
  ghost predicate LbRunsUpTo(app: Appliance, confs: seq<LbvserverConf>, n0: nat, starts: seq<seq<Op>>,
                             listings: seq<seq<Vserver>>, keys: seq<seq<string>>, fetched: seq<Option<seq<string>>>,
                             i: nat, raised: bool)
  {
    && i <= |confs| && |starts| == i + 1 && |listings| == i && |keys| == i && |fetched| == i
    && forall j :: 0 <= j < i ==>
         LbStep(app, starts[j], n0 + j, confs[j], listings[j], keys[j], fetched[j], starts[j + 1], raised && j == i - 1)
  }

  /** One more entry run, after entries none of which raised, extends the
      record. */
  lemma LbRunsExtend(app: Appliance, confs: seq<LbvserverConf>, n0: nat, starts: seq<seq<Op>>,
                     listings: seq<seq<Vserver>>, keys: seq<seq<string>>, fetched: seq<Option<seq<string>>>, i: nat,
                     t: seq<Op>, n: nat, l: seq<Vserver>, ks: seq<string>, f: Option<seq<string>>, t': seq<Op>, r: bool)
    requires LbRunsUpTo(app, confs, n0, starts, listings, keys, fetched, i, false) && i < |confs|
    requires t == starts[i] && n == n0 + i && LbStep(app, t, n, confs[i], l, ks, f, t', r)
    ensures LbRunsUpTo(app, confs, n0, starts + [t'], listings + [l], keys + [ks], fetched + [f], i + 1, r)
  {
    var starts', listings', keys', fetched' := starts + [t'], listings + [l], keys + [ks], fetched + [f];
    forall j | 0 <= j < i + 1
      ensures LbStep(app, starts'[j], n0 + j, confs[j], listings'[j], keys'[j], fetched'[j], starts'[j + 1], r && j == i)
    {
      if j < i {
        assert LbStep(app, starts[j], n0 + j, confs[j], listings[j], keys[j], fetched[j], starts[j + 1], false);
        assert starts'[j] == starts[j] && starts'[j + 1] == starts[j + 1];
        assert listings'[j] == listings[j] && keys'[j] == keys[j] && fetched'[j] == fetched[j];
        assert (r && j == i) == false;
      } else {
        assert starts'[j] == starts[i] && starts'[j + 1] == t';
        assert listings'[j] == l && keys'[j] == ks && fetched'[j] == f;
        assert (r && j == i) == r;
      }
    }
  }

  /** The first loop of ensure_lbvservers_state: every entry in turn,
      results ignored, until an entry raises; the exception then leaves the
      section. `starts[j]` is the trace when entry j starts; the entries run
      are the first |listings|. */
  method RunLbEntries(app: Appliance, confs: seq<LbvserverConf>)
    returns (raised: bool, ghost starts: seq<seq<Op>>, ghost listings: seq<seq<Vserver>>,
             ghost keys: seq<seq<string>>, ghost fetched: seq<Option<seq<string>>>)
    requires app.Valid()
    modifies app
    ensures app.Valid()
    ensures |starts| == |listings| + 1 && |keys| == |listings| && |fetched| == |listings|
    ensures |listings| <= |confs| && (raised ==> |listings| > 0) && (!raised ==> |listings| == |confs|)
    ensures app.fetches == old(app.fetches) + |listings| - (if raised then 1 else 0)
    ensures starts[0] == old(app.trace) && starts[|listings|] == app.trace
    ensures forall j :: 0 <= j < |listings| ==>
              LbStep(app, starts[j], old(app.fetches) + j, confs[j], listings[j], keys[j], fetched[j], starts[j + 1],
                     raised && j == |listings| - 1)
  {
    raised := false;
    starts, listings, keys, fetched := [app.trace], [], [], [];
    var i := 0;
    while i < |confs| && !raised
      invariant 0 <= i <= |confs|
      invariant app.Valid()
      invariant |starts| == i + 1 && |listings| == i && |keys| == i && |fetched| == i
      invariant raised ==> i > 0
      invariant app.fetches == old(app.fetches) + i - (if raised then 1 else 0)
      invariant starts[0] == old(app.trace) && starts[i] == app.trace
      invariant LbRunsUpTo(app, confs, old(app.fetches), starts, listings, keys, fetched, i, raised)
    {
      assert app.config == app.At(app.trace);
      ghost var t, n := app.trace, app.fetches;
      var out, listing, ks, f := EnsureLbvserverState(app, confs[i]);
      LbRunsExtend(app, confs, old(app.fetches), starts, listings, keys, fetched, i, t, n, listing, ks, f, app.trace, out.Raised?);
      starts, listings, keys, fetched := starts + [app.trace], listings + [listing], keys + [ks], fetched + [f];
      raised := out.Raised?;
      i := i + 1;
    }
  }

  /** A run of ensure_lbvservers_state from trace `t0` and fetch count `f0`
      to trace `t'` and fetch count `f'`: entry j ran from `starts[j]` with
      fetch number `f0 + j`, the last entry run raising when `out` is
      Raised, which ends the section there; otherwise every entry ran and
      the collection listed `names` and deleted the undeclared ones, `out.ok`
      saying whether every delete was accepted. A raising entry made no
      fallible read. */
  ghost predicate LbSectionRan(app: Appliance, conf: Option<seq<LbvserverConf>>, t0: seq<Op>, f0: nat, out: Outcome,
                               starts: seq<seq<Op>>, listings: seq<seq<Vserver>>, keys: seq<seq<string>>,
                               fetched: seq<Option<seq<string>>>, names: seq<string>, t': seq<Op>, f': nat)
  {
    && |starts| == |listings| + 1 && |keys| == |listings| && |fetched| == |listings|
    && |listings| <= |Entries(conf)| && (out.Raised? ==> |listings| > 0)
    && (out.Returned? ==> |listings| == |Entries(conf)|)
    && f' == f0 + |listings| - (if out.Raised? then 1 else 0)
    && starts[0] == t0
    && (forall j :: 0 <= j < |listings| ==>
          LbStep(app, starts[j], f0 + j, Entries(conf)[j], listings[j], keys[j], fetched[j], starts[j + 1],
                 out.Raised? && j == |listings| - 1))
    && (out.Raised? ==> t' == starts[|listings|])
    && (out.Returned? ==>
          var gc := starts[|listings|];
          && NameListing(ObjectNames(app.At(gc), LbvserverKind), names)
          && t' == gc + Deletes(LbvserverKind, Undeclared(names, DeclaredLbvservers(conf)))
          && out.ok == app.AllAccepted(|gc|, |t'|))
  }

  /** ensure_lbvservers_state (apply_netscaler_state.py:475-514): the
      per-entry runs, then, unless one of them raised, the collection of
      undeclared lbvservers against a listing taken after them; only its
      deletes decide the result. */
  method EnsureLbvserversState(app: Appliance, conf: Option<seq<LbvserverConf>>)
    returns (out: Outcome, ghost starts: seq<seq<Op>>, ghost listings: seq<seq<Vserver>>,
             ghost keys: seq<seq<string>>, ghost fetched: seq<Option<seq<string>>>, ghost names: seq<string>)
    requires app.Valid()
    modifies app
    ensures app.Valid()
    ensures LbSectionRan(app, conf, old(app.trace), old(app.fetches), out, starts, listings, keys, fetched, names,
                         app.trace, app.fetches)
  {
    var raised;
    raised, starts, listings, keys, fetched := RunLbEntries(app, Entries(conf));
    if raised {
      return Raised, starts, listings, keys, fetched, [];
    }
    assert app.config == app.At(app.trace);
    var ok;
    ok, names := CollectUndeclared(app, LbvserverKind, DeclaredLbvservers(conf));
    out := Returned(ok);
  }
}
