/** The parts of ensure_lbvserver_state and ensure_csvserver_state that the
    two reconcilers share (apply_netscaler_state.py:516-647 and 1121-1247):
    the name-match branches of the match phase with their port and protocol
    check, and the replace rule applied to the object fetched by name. */
module Vservers {
  import opened Wrappers
  import opened NitroTypes
  import opened Matcher
  import opened ApplianceModel

  /** The name-matched vserver after `set_ipv46(vip_address)`. */
  function Moved(n: Vserver, c: VserverConf): Vserver {
    n.(ipv46 := c.vipAddress)
  }

  /** The port and protocol check: one update carrying the desired port and
      service type when either differs. */
  function CheckOps(k: Kind, u: Vserver, c: VserverConf): seq<Op> {
    if u.port != c.port || u.servicetype != c.protocol then [UpdateVserver(k, u.(port := c.port, servicetype := c.protocol))]
    else []
  }

  /** The match phase when a name match exists: the address match (if any)
      is deleted, the name match moved to the desired address, then checked. */
  function NameMatchOps(k: Kind, m: Matches<Vserver>, c: VserverConf): seq<Op>
    requires m.byName.Some?
  {
    (if m.byAddress.Some? then [Delete(k, m.byAddress.value.name)] else [])
    + ([UpdateVserver(k, Moved(m.byName.value, c))] + CheckOps(k, Moved(m.byName.value, c), c))
  }

  /** The replace rule on the vserver fetched by name: another port or service
      type means delete and create anew, another address alone an update in
      place, no such vserver a create. */
  function ReplaceOps(k: Kind, existing: Option<Vserver>, c: VserverConf): seq<Op> {
    if existing.None? then [AddVserver(k, NewVserver(c))]
    else
      var e := existing.value;
      if e.servicetype != c.protocol || e.port != c.port then [Delete(k, e.name), AddVserver(k, NewVserver(c))]
      else if e.ipv46 != c.vipAddress then [UpdateVserver(k, e.(ipv46 := c.vipAddress))]
      else []
  }

  /** All fields of a vserver of the desired name but the record itself. */
  predicate SameBindings(s: State, r: State) {
    r.lbBindings == s.lbBindings && r.defaultLbvserver == s.defaultLbvserver && r.policyBindings == s.policyBindings
  }

  // ---------------------------------------------------------------------
  // Properties

  /** Because the full match never fires, a listed vserver with the desired
      name is updated on every run, even when it already has the desired
      address, port and protocol. */
  lemma NameMatchAlwaysUpdates(all: seq<Vserver>, c: VserverConf, i: nat)
    requires i < |all| && all[i].name == c.name
    ensures var m := MatchesFound(all, VserverBucket(c));
            && m.full.None? && m.byName.Some? && m.byName.value.name == c.name
            && UpdateVserver(LbvserverKind, Moved(m.byName.value, c)) in NameMatchOps(LbvserverKind, m, c)
            && UpdateVserver(CsvserverKind, Moved(m.byName.value, c)) in NameMatchOps(CsvserverKind, m, c)
  {
    NoVserverFullMatch(all, c);
    VserverNameSlot(all, c);
  }

  /** When every call of the check is accepted, `u` carries the desired
      port and service type and nothing else changes. */
  lemma CheckConverges(s: State, k: Kind, u: Vserver, c: VserverConf)
    requires IsVserverKind(k) && u.name in Vservers(s, k)
    ensures var r := ApplyAll(s, CheckOps(k, u, c));
            && SameBindings(s, r)
            && Vservers(r, k) == Vservers(s, k)[u.name := if CheckOps(k, u, c) == [] then Vservers(s, k)[u.name]
                                                           else u.(port := c.port, servicetype := c.protocol)]
            && (k == LbvserverKind ==> r.csvservers == s.csvservers)
            && (k == CsvserverKind ==> r.lbvservers == s.lbvservers)
  {
    if CheckOps(k, u, c) != [] {
      ApplyAllOne(s, UpdateVserver(k, u.(port := c.port, servicetype := c.protocol)));
    }
  }

  /** When every call of the name-match branch is accepted the vserver of
      the desired name is the desired one, the address match (if any) is
      gone with its bindings, and nothing else changes. */
  lemma NameMatchConverges(s: State, k: Kind, all: seq<Vserver>, c: VserverConf)
    requires IsVserverKind(k) && WellKeyed(s) && Lists(Vservers(s, k), all, VserverName)
    requires MatchesFound(all, VserverBucket(c)).byName.Some?
    ensures var m := MatchesFound(all, VserverBucket(c));
            var s1 := if m.byAddress.Some? then DeleteObject(s, k, m.byAddress.value.name) else s;
            var r := ApplyAll(s, NameMatchOps(k, m, c));
            && (m.byAddress.Some? ==> m.byAddress.value.name != c.name)
            && Vservers(r, k) == Vservers(s1, k)[c.name := NewVserver(c)]
            && SameBindings(s1, r)
  {
    var m := MatchesFound(all, VserverBucket(c));
    VserverNameSlot(all, c);
    var u := Moved(m.byName.value, c);
    var rest := [UpdateVserver(k, u)] + CheckOps(k, u, c);
    if m.byAddress.Some? {
      var x := m.byAddress.value.name;
      assert NameMatchOps(k, m, c) == [Delete(k, x)] + rest;
      ApplyAllConcat(s, [Delete(k, x)], rest);
      ApplyAllOne(s, Delete(k, x));
      DropVserver(s, k, x);
      MoveConverges(DeleteObject(s, k, x), k, u, c);
    } else {
      assert NameMatchOps(k, m, c) == rest;
      MoveConverges(s, k, u, c);
    }
  }

  /** The update to the desired address and the check that follows leave
      the desired vserver under its name and touch nothing else. */
  lemma MoveConverges(s: State, k: Kind, u: Vserver, c: VserverConf)
    requires IsVserverKind(k) && u.name == c.name && u.ipv46 == c.vipAddress && c.name in Vservers(s, k)
    ensures var r := ApplyAll(s, [UpdateVserver(k, u)] + CheckOps(k, u, c));
            Vservers(r, k) == Vservers(s, k)[c.name := NewVserver(c)] && SameBindings(s, r)
  {
    var s2 := Apply(s, UpdateVserver(k, u));
    ApplyAllConcat(s, [UpdateVserver(k, u)], CheckOps(k, u, c));
    ApplyAllOne(s, UpdateVserver(k, u));
    StoreVserver(s, k, u);
    CheckConverges(s2, k, u, c);
    if CheckOps(k, u, c) == [] {
      assert u == NewVserver(c);
    } else {
      assert Vservers(s2, k)[c.name := u.(port := c.port, servicetype := c.protocol)] == Vservers(s, k)[c.name := NewVserver(c)];
    }
  }

  /** The calls of the replace rule: none exactly when the vserver is
      already the desired one; a create exactly when it is missing or has
      another port or service type, and then a delete first when it exists. */
  lemma ReplaceCalls(k: Kind, e: Option<Vserver>, c: VserverConf)
    requires e.Some? ==> e.value.name == c.name
    ensures var ops := ReplaceOps(k, e, c);
            && (ops == [] <==> e == Some(NewVserver(c)))
            && (AddVserver(k, NewVserver(c)) in ops <==> e.None? || e.value.port != c.port || e.value.servicetype != c.protocol)
            && (Delete(k, c.name) in ops <==> e.Some? && (e.value.port != c.port || e.value.servicetype != c.protocol))
            && |ops| <= 2
  {
  }

  /** Storing a vserver of type `k` changes that one map entry only. */
  lemma StoreVserver(s: State, k: Kind, v: Vserver)
    requires IsVserverKind(k)
    ensures Vservers(AddVserverTo(s, k, v), k) == Vservers(s, k)[v.name := v]
    ensures SameBindings(s, AddVserverTo(s, k, v))
  {
  }

  /** Deleting a vserver of type `k` removes that one map entry. */
  lemma DropVserver(s: State, k: Kind, n: string)
    requires IsVserverKind(k)
    ensures Vservers(DeleteObject(s, k, n), k) == Vservers(s, k) - {n}
  {
  }

  /** When every call of the replace rule is accepted the vserver of the
      desired name is exactly the desired one and no other vserver of that
      type changes; a vserver that is not created anew keeps its bindings. */
  lemma ReplaceConverges(s: State, k: Kind, c: VserverConf)
    requires IsVserverKind(k) && WellKeyed(s)
    ensures var e := Get(Vservers(s, k), c.name);
            var r := ApplyAll(s, ReplaceOps(k, e, c));
            && Vservers(r, k) == Vservers(s, k)[c.name := NewVserver(c)]
            && (e.Some? && e.value.port == c.port && e.value.servicetype == c.protocol ==> SameBindings(s, r))
  {
    var e := Get(Vservers(s, k), c.name);
    var d := NewVserver(c);
    if e.None? {
      assert ReplaceOps(k, e, c) == [AddVserver(k, d)];
      ReplaceAdds(s, k, d);
    } else {
      var v := e.value;
      assert v.name == c.name;
      if v.servicetype != c.protocol || v.port != c.port {
        assert ReplaceOps(k, e, c) == [Delete(k, c.name), AddVserver(k, d)];
        ReplaceRecreates(s, k, d);
      } else if v.ipv46 != c.vipAddress {
        assert ReplaceOps(k, e, c) == [UpdateVserver(k, d)];
        assert v.(ipv46 := c.vipAddress) == d;
        ReplaceUpdates(s, k, d);
      } else {
        assert ReplaceOps(k, e, c) == [];
        assert v == d;
        assert Vservers(s, k)[c.name := d] == Vservers(s, k);
      }
    }
  }

  lemma ReplaceAdds(s: State, k: Kind, d: Vserver)
    requires IsVserverKind(k)
    ensures Vservers(ApplyAll(s, [AddVserver(k, d)]), k) == Vservers(s, k)[d.name := d]
  {
    ApplyAllOne(s, AddVserver(k, d));
    StoreVserver(s, k, d);
  }

  lemma ReplaceRecreates(s: State, k: Kind, d: Vserver)
    requires IsVserverKind(k)
    ensures Vservers(ApplyAll(s, [Delete(k, d.name), AddVserver(k, d)]), k) == Vservers(s, k)[d.name := d]
  {
    ApplyAllTwo(s, Delete(k, d.name), AddVserver(k, d));
    DropVserver(s, k, d.name);
    StoreVserver(DeleteObject(s, k, d.name), k, d);
    assert (Vservers(s, k) - {d.name})[d.name := d] == Vservers(s, k)[d.name := d];
  }

  lemma ReplaceUpdates(s: State, k: Kind, d: Vserver)
    requires IsVserverKind(k) && d.name in Vservers(s, k)
    ensures var r := ApplyAll(s, [UpdateVserver(k, d)]);
            Vservers(r, k) == Vservers(s, k)[d.name := d] && SameBindings(s, r)
  {
    ApplyAllOne(s, UpdateVserver(k, d));
    StoreVserver(s, k, d);
  }


  // ---------------------------------------------------------------------
  // The shared steps

  /** The port and protocol check (apply_netscaler_state.py:586-598,
      1193-1205). */
  method CheckPortAndProtocol(app: Appliance, k: Kind, u: Vserver, c: VserverConf) returns (ok: bool)
    requires app.Valid()
    modifies app
    ensures app.Valid() && app.fetches == old(app.fetches)
    ensures app.trace == old(app.trace) + CheckOps(k, u, c)
    ensures ok == app.AllAccepted(|old(app.trace)|, |app.trace|)
  {
    var update := false;
    var v := u;
    if v.port != c.port {
      update := true;
      v := v.(port := c.port);
    }
    if v.servicetype != c.protocol {
      update := true;
      v := v.(servicetype := c.protocol);
    }
    ok := true;
    if update {
      ok := app.Invoke(UpdateVserver(k, v));
    }
  }

  /** The name-only and the two-object branches of the match phase
      (apply_netscaler_state.py:564-585, 1165-1192). */
  method ActOnNameMatch(app: Appliance, k: Kind, m: Matches<Vserver>, c: VserverConf) returns (ok: bool)
    requires app.Valid() && m.byName.Some?
    modifies app
    ensures app.Valid() && app.fetches == old(app.fetches)
    ensures app.trace == old(app.trace) + NameMatchOps(k, m, c)
    ensures ok == app.AllAccepted(|old(app.trace)|, |app.trace|)
  {
    ghost var pre: seq<Op> := if m.byAddress.Some? then [Delete(k, m.byAddress.value.name)] else [];
    ok := true;
    if m.byAddress.Some? {
      ok := app.Invoke(Delete(k, m.byAddress.value.name));
    }
    assert app.trace == old(app.trace) + pre;
    ghost var t1 := app.trace;
    ghost var rest := [UpdateVserver(k, Moved(m.byName.value, c))] + CheckOps(k, Moved(m.byName.value, c), c);
    var moved := MoveAndCheck(app, k, Moved(m.byName.value, c), c);
    TraceAppend(old(app.trace), t1, app.trace, pre, rest);
    assert NameMatchOps(k, m, c) == pre + rest;
    app.AcceptedSplit(|old(app.trace)|, |t1|, |app.trace|);
    ok := ok && moved;
  }

  /** `update()` with the new address, then the port and protocol check. */
  method MoveAndCheck(app: Appliance, k: Kind, u: Vserver, c: VserverConf) returns (ok: bool)
    requires app.Valid()
    modifies app
    ensures app.Valid() && app.fetches == old(app.fetches)
    ensures app.trace == old(app.trace) + ([UpdateVserver(k, u)] + CheckOps(k, u, c))
    ensures ok == app.AllAccepted(|old(app.trace)|, |app.trace|)
  {
    var updated := app.Invoke(UpdateVserver(k, u));
    ghost var t1 := app.trace;
    var checked := CheckPortAndProtocol(app, k, u, c);
    TraceAppend(old(app.trace), t1, app.trace, [UpdateVserver(k, u)], CheckOps(k, u, c));
    app.AcceptedSplit(|old(app.trace)|, |t1|, |app.trace|);
    ok := updated && checked;
  }

  /** The replace rule on the vserver fetched by name
      (apply_netscaler_state.py:600-647, 1207-1247); the `delete_needed` and
      `update_needed` flags of the source are laid out as branches. */
  method ReplaceVserver(app: Appliance, k: Kind, c: VserverConf) returns (ok: bool)
    requires app.Valid()
    modifies app
    ensures app.Valid() && app.fetches == old(app.fetches)
    ensures app.trace == old(app.trace) + ReplaceOps(k, Get(Vservers(old(app.config), k), c.name), c)
    ensures ok == app.AllAccepted(|old(app.trace)|, |app.trace|)
  {
    var existing := app.GetVserver(k, c.name);
    ok := ReplaceExisting(app, k, existing, c);
  }

  /** The branches of the replace rule once the vserver has been fetched. */
  method ReplaceExisting(app: Appliance, k: Kind, existing: Option<Vserver>, c: VserverConf) returns (ok: bool)
    requires app.Valid()
    modifies app
    ensures app.Valid() && app.fetches == old(app.fetches)
    ensures app.trace == old(app.trace) + ReplaceOps(k, existing, c)
    ensures ok == app.AllAccepted(|old(app.trace)|, |app.trace|)
  {
    if existing.None? {
      ok := app.Invoke(AddVserver(k, NewVserver(c)));
    } else if existing.value.servicetype != c.protocol || existing.value.port != c.port {
      var deleted := app.Invoke(Delete(k, existing.value.name));
      ghost var t1 := app.trace;
      var added := app.Invoke(AddVserver(k, NewVserver(c)));
      app.AcceptedSnoc(|old(app.trace)|, |t1|);
      ok := deleted && added;
    } else if existing.value.ipv46 != c.vipAddress {
      ok := app.Invoke(UpdateVserver(k, existing.value.(ipv46 := c.vipAddress)));
    } else {
      ok := true;
    }
  }

}
