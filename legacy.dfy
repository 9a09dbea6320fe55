/** The earlier revision, applyNetscalerState.py. Its server reconciler
    renames an address-only match instead of deleting it; its member sweep
    matches bindings by server name alone and updates the port in place; its
    service group collection builds the removal list before the entries run;
    and `main` makes one pass of three sections per group. The group object
    calls and the lbvserver reconciler are the same as in the newer revision
    and are reused from ServiceGroups and Lbvservers. */
module Legacy {
  import opened Wrappers
  import opened NitroTypes
  import opened Matcher
  import opened ApplianceModel
  import opened ApplianceRuns
  import opened Collect
  import Servers
  import ServiceGroups
  import Lbvservers

  // ---------------------------------------------------------------------
  // ensure_server_state

  /** The calls of ensure_server_state once `matches_found` is known
      (applyNetscalerState.py:63-111). */
  function LegacyServerOps(m: Matches<Server>, c: ServerConf): seq<Op> {
    if m.full.Some? then []
    else if m.byAddress.Some? && m.byName.None? then [RenameServer(m.byAddress.value.name, c.name)]
    else if m.byName.Some? && m.byAddress.None? then [UpdateServer(Servers.Readdressed(m.byName.value, c))]
    else if m.byName.Some? then
      [Delete(ServerKind, m.byAddress.value.name), UpdateServer(m.byName.value.(ipaddress := c.ipAddress))]
    else [AddServer(NewServer(c))]
  }

  /** The calls made against one listing of the servers. */
  function LegacyServerPlan(all: seq<Server>, c: ServerConf): seq<Op> {
    LegacyServerOps(MatchesFound(all, ServerBucket(c)), c)
  }

  /** A server with the desired name and address means no call, and only
      that. */
  lemma LegacyFullMatchNoCalls(all: seq<Server>, c: ServerConf)
    ensures LegacyServerPlan(all, c) == [] <==> Servers.FullMatch(all, c)
  {
    ServerSlots(all, c);
  }

  /** An address-only match is renamed to the desired name, and nothing is
      deleted or created. */
  lemma LegacyAddressOnlyRenames(all: seq<Server>, c: ServerConf)
    requires !Servers.FullMatch(all, c)
    requires forall j :: 0 <= j < |all| ==> all[j].name != c.name
    requires exists j :: 0 <= j < |all| && all[j].ipaddress == c.ipAddress
    ensures exists x :: x in all && x.ipaddress == c.ipAddress && x.name != c.name &&
                        LegacyServerPlan(all, c) == [RenameServer(x.name, c.name)]
  {
    ServerSlots(all, c);
  }

  /** A name match and an address match on two servers: the address match
      is deleted first, then the name match gets the desired address and
      keeps its translation fields. */
  lemma LegacyNameAndAddress(all: seq<Server>, c: ServerConf)
    requires !Servers.FullMatch(all, c)
    requires exists j :: 0 <= j < |all| && all[j].name == c.name
    requires exists j :: 0 <= j < |all| && all[j].name != c.name && all[j].ipaddress == c.ipAddress
    ensures exists x, n :: x in all && n in all && x.name != c.name && x.ipaddress == c.ipAddress && n.name == c.name &&
              LegacyServerPlan(all, c) == [Delete(ServerKind, x.name), UpdateServer(n.(ipaddress := c.ipAddress))]
  {
    ServerSlots(all, c);
    var m := MatchesFound(all, ServerBucket(c));
    assert m.byName.Some? && m.byAddress.Some?;
  }

  /** Without a full match and without an address match, a name match is
      updated with the desired address and cleared translation fields, and
      otherwise one server is created; no branch adds next to a rename. */
  lemma LegacyNoAddressMatch(all: seq<Server>, c: ServerConf)
    requires !Servers.FullMatch(all, c)
    requires forall j :: 0 <= j < |all| ==> all[j].name == c.name || all[j].ipaddress != c.ipAddress
    ensures (exists j :: 0 <= j < |all| && all[j].name == c.name) <==>
              exists n :: n in all && n.name == c.name && LegacyServerPlan(all, c) == [UpdateServer(Servers.Readdressed(n, c))]
    ensures (forall j :: 0 <= j < |all| ==> all[j].name != c.name) <==> LegacyServerPlan(all, c) == [AddServer(NewServer(c))]
  {
    ServerSlots(all, c);
    var m := MatchesFound(all, ServerBucket(c));
    if m.byName.None? {
      assert forall j :: 0 <= j < |all| ==> all[j].name != c.name;
    }
  }

  /** After the calls for `c`, state `r` holds the declared server with the
      desired address, every server with neither the desired name nor the
      desired address is as it was in `s`, and nothing but servers changed. */
  ghost predicate ServerConverged(s: State, r: State, c: ServerConf) {
    && c.name in r.servers && r.servers[c.name].ipaddress == c.ipAddress
    && (forall n :: n in s.servers && n != c.name && s.servers[n].ipaddress != c.ipAddress ==>
          n in r.servers && r.servers[n] == s.servers[n])
    && r.(servers := s.servers) == s
  }

  /** The state a rename of the address match leaves. */
  lemma RenameConverges(s: State, x: Server, c: ServerConf)
    requires WellKeyed(s) && x.name in s.servers && s.servers[x.name] == x && x.ipaddress == c.ipAddress
    requires x.name != c.name && c.name !in s.servers
    ensures ServerConverged(s, ApplyAll(s, [RenameServer(x.name, c.name)]), c)
  {
    ApplyAllOne(s, RenameServer(x.name, c.name));
  }

  /** The state the two-object branch leaves. */
  lemma DeleteUpdateConverges(s: State, x: Server, n: Server, c: ServerConf)
    requires WellKeyed(s) && x.name in s.servers && s.servers[x.name] == x && x.ipaddress == c.ipAddress
    requires n.name == c.name && c.name in s.servers && s.servers[c.name] == n && x.name != c.name
    ensures ServerConverged(s, ApplyAll(s, [Delete(ServerKind, x.name), UpdateServer(n.(ipaddress := c.ipAddress))]), c)
  {
    ApplyAllTwo(s, Delete(ServerKind, x.name), UpdateServer(n.(ipaddress := c.ipAddress)));
  }

  /** The state an update of the declared server leaves. */
  lemma UpdateConverges(s: State, u: Server, c: ServerConf)
    requires WellKeyed(s) && u.name == c.name && c.name in s.servers && u.ipaddress == c.ipAddress
    ensures ServerConverged(s, ApplyAll(s, [UpdateServer(u)]), c)
  {
    ApplyAllOne(s, UpdateServer(u));
  }

  /** The state the creation of the declared server leaves. */
  lemma AddConverges(s: State, c: ServerConf)
    requires WellKeyed(s) && c.name !in s.servers
    ensures ServerConverged(s, ApplyAll(s, [AddServer(NewServer(c))]), c)
  {
    ApplyAllOne(s, AddServer(NewServer(c)));
  }

  /** When every call is accepted the declared server exists with the
      desired address; a server with neither the desired name nor the
      desired address is left alone, and nothing but servers changes. */
  lemma LegacyServerConverges(s: State, all: seq<Server>, c: ServerConf)
    requires WellKeyed(s) && Lists(s.servers, all, ServerName)
    ensures ServerConverged(s, ApplyAll(s, LegacyServerPlan(all, c)), c)
  {
    ServerSlotValues(all, c);
    var m := MatchesFound(all, ServerBucket(c));
    if m.full.Some? {
      assert s.servers[c.name] == m.full.value;
    } else if m.byAddress.Some? && m.byName.None? {
      ServerSlots(all, c);
      assert c.name !in s.servers;
      RenameConverges(s, m.byAddress.value, c);
    } else if m.byName.Some? && m.byAddress.None? {
      UpdateConverges(s, Servers.Readdressed(m.byName.value, c), c);
    } else if m.byName.Some? {
      DeleteUpdateConverges(s, m.byAddress.value, m.byName.value, c);
    } else {
      ServerSlots(all, c);
      AddConverges(s, c);
    }
  }

  /** ensure_server_state (applyNetscalerState.py:49-113). */
  method LegacyEnsureServerState(app: Appliance, c: ServerConf) returns (ok: bool, ghost listing: seq<Server>)
    requires app.Valid()
    modifies app
    ensures app.Valid() && app.fetches == old(app.fetches)
    ensures Lists(old(app.config).servers, listing, ServerName)
    ensures app.trace == old(app.trace) + LegacyServerPlan(listing, c)
    ensures ok == app.AllAccepted(|old(app.trace)|, |app.trace|)
  {
    var all := app.ListServers();
    listing := all;
    var m := FindMatches(all, ServerBucket(c));
    ok := ActOnLegacyMatches(app, m, c);
  }

  /** The branches after the match loop (applyNetscalerState.py:63-111). */
  method ActOnLegacyMatches(app: Appliance, m: Matches<Server>, c: ServerConf) returns (ok: bool)
    requires app.Valid()
    modifies app
    ensures app.Valid() && app.fetches == old(app.fetches)
    ensures app.trace == old(app.trace) + LegacyServerOps(m, c)
    ensures ok == app.AllAccepted(|old(app.trace)|, |app.trace|)
  {
    if m.full.Some? {
      return true;
    }
    if m.byAddress.Some? && m.byName.None? {
      ok := app.Invoke(RenameServer(m.byAddress.value.name, c.name));
    } else if m.byName.Some? && m.byAddress.None? {
      ok := app.Invoke(UpdateServer(Servers.Readdressed(m.byName.value, c)));
    } else if m.byName.Some? {
      var deleted := app.Invoke(Delete(ServerKind, m.byAddress.value.name));
      ghost var t1 := app.trace;
      var updated := app.Invoke(UpdateServer(m.byName.value.(ipaddress := c.ipAddress)));
      app.AcceptedSnoc(|old(app.trace)|, |t1|);
      ok := deleted && updated;
    } else {
      ok := app.Invoke(AddServer(NewServer(c)));
    }
  }

  /** Entry `c` ran from trace `t` to trace `t'`: it took the listing of the
      servers at `t` and made its plan against it. */
  ghost predicate LegacyServerStep(app: Appliance, t: seq<Op>, listing: seq<Server>, c: ServerConf, t': seq<Op>) {
    Lists(app.At(t).servers, listing, ServerName) && t' == t + LegacyServerPlan(listing, c)
  }

  /** Every entry made its run, entry j starting at trace `starts[j]`. */
  ghost predicate ServerEntriesRan(app: Appliance, confs: seq<ServerConf>, starts: seq<seq<Op>>, listings: seq<seq<Server>>) {
    && |starts| == |confs| + 1 && |listings| == |confs|
    && forall j :: 0 <= j < |confs| ==> LegacyServerStep(app, starts[j], listings[j], confs[j], starts[j + 1])
  }

  /** The loop of ensure_servers_state over the entries, results ignored;
      `starts[j]` is the trace when entry j starts. */
  method RunLegacyServerEntries(app: Appliance, confs: seq<ServerConf>)
    returns (ghost starts: seq<seq<Op>>, ghost listings: seq<seq<Server>>)
    requires app.Valid()
    modifies app
    ensures app.Valid() && app.fetches == old(app.fetches)
    ensures |starts| == |confs| + 1 && |listings| == |confs|
    ensures starts[0] == old(app.trace) && starts[|confs|] == app.trace
    ensures ServerEntriesRan(app, confs, starts, listings)
  {
    starts, listings := [app.trace], [];
    var i := 0;
    while i < |confs|
      invariant 0 <= i <= |confs|
      invariant app.Valid() && app.fetches == old(app.fetches)
      invariant |starts| == i + 1 && |listings| == i
      invariant starts[0] == old(app.trace) && starts[i] == app.trace
      invariant forall j :: 0 <= j < i ==> LegacyServerStep(app, starts[j], listings[j], confs[j], starts[j + 1])
    {
      ghost var t := app.trace;
      assert app.config == app.At(t);
      var _, listing := LegacyEnsureServerState(app, confs[i]);
      LegacyServerRunsExtend(app, confs, starts, listings, i, listing, app.trace);
      starts, listings := starts + [app.trace], listings + [listing];
      i := i + 1;
    }
  }

  /** One more entry run extends the record of the loop. */
  lemma LegacyServerRunsExtend(app: Appliance, confs: seq<ServerConf>, starts: seq<seq<Op>>, listings: seq<seq<Server>>,
                               i: nat, l: seq<Server>, t': seq<Op>)
    requires i < |confs| && |starts| == i + 1 && |listings| == i
    requires forall j :: 0 <= j < i ==> LegacyServerStep(app, starts[j], listings[j], confs[j], starts[j + 1])
    requires LegacyServerStep(app, starts[i], l, confs[i], t')
    ensures forall j :: 0 <= j < i + 1 ==>
              LegacyServerStep(app, (starts + [t'])[j], (listings + [l])[j], confs[j], (starts + [t'])[j + 1])
  {
    forall j | 0 <= j < i + 1
      ensures LegacyServerStep(app, (starts + [t'])[j], (listings + [l])[j], confs[j], (starts + [t'])[j + 1])
    {
      assert (starts + [t'])[j] == starts[j] && (starts + [t'])[j + 1] == if j < i then starts[j + 1] else t';
      assert (listings + [l])[j] == if j < i then listings[j] else l;
    }
  }

  /** The ghost record of one run of ensure_servers_state. */
  datatype ServersRun = ServersRun(starts: seq<seq<Op>>, listings: seq<seq<Server>>, names: seq<string>)

  /** The servers section ran from trace `t0` to trace `t'`: each entry made
      its plan against the listing it took, then every listed server no entry
      names was deleted. */
  ghost predicate LegacyServersRan(app: Appliance, confs: seq<ServerConf>, t0: seq<Op>, r: ServersRun, t': seq<Op>) {
    && |r.starts| == |confs| + 1 && |r.listings| == |confs| && r.starts[0] == t0
    && ServerEntriesRan(app, confs, r.starts, r.listings)
    && NameListing(ObjectNames(app.At(r.starts[|confs|]), ServerKind), r.names)
    && t' == r.starts[|confs|] + Deletes(ServerKind, Undeclared(r.names, Some(Servers.ServerNames(confs))))
  }

  /** ensure_servers_state (applyNetscalerState.py:221-242): the per-entry
      runs, then the collection against a listing taken after them; only its
      deletes decide the result. The section is a list, never absent. */
  method LegacyEnsureServersState(app: Appliance, confs: seq<ServerConf>) returns (ok: bool, ghost r: ServersRun)
    requires app.Valid()
    modifies app
    ensures app.Valid() && app.fetches == old(app.fetches)
    ensures LegacyServersRan(app, confs, old(app.trace), r, app.trace)
    ensures ok == app.AllAccepted(|r.starts[|confs|]|, |app.trace|)
  {
    var starts, listings := RunLegacyServerEntries(app, confs);
    assert app.config == app.At(app.trace);
    ghost var names;
    ok, names := CollectUndeclared(app, ServerKind, Some(Servers.ServerNames(confs)));
    r := ServersRun(starts, listings, names);
  }

  // ---------------------------------------------------------------------
  // The member sweep of ensure_servicegroup_state

  /** Some desired entry names the server `name`. */
  predicate Named(es: seq<MemberEntry>, name: string) {
    exists j :: 0 <= j < |es| && es[j].name == name
  }

  /** One of the first `n` observed bindings is of server `name`. */
  predicate ObservedUpTo(obs: seq<Member>, name: string, n: nat)
    decreases n
  {
    n > 0 && ((n - 1 < |obs| && obs[n - 1].servername == name) || ObservedUpTo(obs, name, n - 1))
  }

  /** ObservedUpTo holds exactly when some observed binding before `n` is of
      that server. */
  lemma {:induction false} ObservedUpToWitness(obs: seq<Member>, name: string, n: nat)
    ensures ObservedUpTo(obs, name, n) <==> exists i :: 0 <= i < n && i < |obs| && obs[i].servername == name
    decreases n
  {
    if n > 0 {
      ObservedUpToWitness(obs, name, n - 1);
    }
  }

  /** One of the first `n` entries is of server `name`. */
  predicate NamedUpTo(es: seq<MemberEntry>, name: string, n: nat)
    decreases n
  {
    n > 0 && ((n - 1 < |es| && es[n - 1].name == name) || NamedUpTo(es, name, n - 1))
  }

  lemma {:induction false} NamedUpToWitness(es: seq<MemberEntry>, name: string, n: nat)
    ensures NamedUpTo(es, name, n) <==> exists i :: 0 <= i < n && i < |es| && es[i].name == name
    decreases n
  {
    if n > 0 {
      NamedUpToWitness(es, name, n - 1);
    }
  }

  /** The port the binding object holds after the inner loop has visited
      the first `n` entries: each entry of its server sets it to that
      entry's port. */
  function PortAfter(es: seq<MemberEntry>, name: string, p0: int, n: nat): int
    requires n <= |es|
    decreases n
  {
    if n == 0 then p0
    else if es[n - 1].name == name then es[n - 1].port
    else PortAfter(es, name, p0, n - 1)
  }

  /** The updates the inner loop makes for binding `b` over the first `n`
      entries: an entry of the binding's server whose port differs from the
      port the binding holds by then (applyNetscalerState.py:161-170). */
  function UpdateOps(g: string, es: seq<MemberEntry>, b: Member, n: nat): seq<Op>
    requires n <= |es|
    decreases n
  {
    if n == 0 then []
    else
      UpdateOps(g, es, b, n - 1)
        + (if es[n - 1].name == b.servername && PortAfter(es, b.servername, b.port, n - 1) != es[n - 1].port
           then [UpdateMember(g, Member(b.servername, es[n - 1].port))] else [])
  }

  /** The calls for one observed binding: its updates, then its delete when
      no entry names its server (applyNetscalerState.py:171-177). */
  function BindingOps(g: string, es: seq<MemberEntry>, b: Member): seq<Op> {
    UpdateOps(g, es, b, |es|) + (if Named(es, b.servername) then [] else [DeleteMember(g, b)])
  }

  /** The calls for the first `n` observed bindings. */
  function SweepOps(g: string, es: seq<MemberEntry>, obs: seq<Member>, n: nat): seq<Op>
    requires n <= |obs|
    decreases n
  {
    if n == 0 then [] else SweepOps(g, es, obs, n - 1) + BindingOps(g, es, obs[n - 1])
  }

  /** Whether entry `e` carries the `bound` key once the sweep has seen the
      observed bindings `obs`. */
  predicate BoundAfter(e: MemberEntry, obs: seq<Member>) {
    e.bound || ObservedUpTo(obs, e.name, |obs|)
  }

  /** The adds of the last loop over the first `n` entries: every entry
      without the `bound` key (applyNetscalerState.py:180-190). */
  function LegacyAddOps(g: string, es: seq<MemberEntry>, obs: seq<Member>, n: nat): seq<Op>
    requires n <= |es|
    decreases n
  {
    if n == 0 then []
    else
      LegacyAddOps(g, es, obs, n - 1)
        + (if BoundAfter(es[n - 1], obs) then [] else [AddMember(g, EntryMember(es[n - 1]))])
  }

  /** The member calls of one run: nothing when the fetch failed. */
  function LegacyMemberOps(g: string, es: seq<MemberEntry>, fetched: Option<seq<Member>>): seq<Op> {
    if fetched.None? then []
    else SweepOps(g, es, fetched.value, |fetched.value|) + LegacyAddOps(g, es, fetched.value, |es|)
  }

  /** `out` is `es` with the `bound` key set on every entry whose server
      one of the first `n` observed bindings names. */
  ghost predicate MarkedBy(out: seq<MemberEntry>, es: seq<MemberEntry>, obs: seq<Member>, n: nat) {
    && |out| == |es|
    && forall j :: 0 <= j < |es| ==> out[j] == es[j].(bound := es[j].bound || ObservedUpTo(obs, es[j].name, n))
  }

  lemma {:induction false} UpdateOpsContents(g: string, es: seq<MemberEntry>, b: Member, n: nat)
    requires n <= |es|
    ensures forall op :: op in UpdateOps(g, es, b, n) ==>
              exists j :: 0 <= j < n && es[j].name == b.servername && op == UpdateMember(g, EntryMember(es[j]))
    ensures forall j :: 0 <= j < n && es[j].name == b.servername && es[j].port != b.port &&
                        (forall i :: 0 <= i < j ==> es[i].name != b.servername) ==>
              UpdateMember(g, EntryMember(es[j])) in UpdateOps(g, es, b, n)
    decreases n
  {
    if n > 0 {
      UpdateOpsContents(g, es, b, n - 1);
      var k := n - 1;
      if es[k].name == b.servername && es[k].port != b.port && (forall i :: 0 <= i < k ==> es[i].name != b.servername) {
        PortUnchanged(es, b.servername, b.port, k);
      }
    }
  }

  /** Before the first entry of its server the binding holds its own port. */
  lemma {:induction false} PortUnchanged(es: seq<MemberEntry>, name: string, p0: int, n: nat)
    requires n <= |es| && forall i :: 0 <= i < n ==> es[i].name != name
    ensures PortAfter(es, name, p0, n) == p0
    decreases n
  {
    if n > 0 {
      PortUnchanged(es, name, p0, n - 1);
    }
  }

  /** The calls for one observed binding: updates of that binding's server
      to a desired entry, and its own delete, made exactly when no entry
      names its server. */
  lemma BindingOpsKinds(g: string, es: seq<MemberEntry>, b: Member)
    ensures forall op :: op in BindingOps(g, es, b) ==>
              || (op.UpdateMember? && op.groupName == g && op.member.servername == b.servername
                    && (exists j :: 0 <= j < |es| && op.member == EntryMember(es[j])))
              || op == DeleteMember(g, b)
    ensures forall x :: DeleteMember(g, x) in BindingOps(g, es, b) <==> x == b && !Named(es, b.servername)
  {
    UpdateOpsContents(g, es, b, |es|);
  }

  /** The sweep only updates members to a desired entry of an observed
      server and deletes members, all of group `g`. */
  lemma {:induction false} SweepOpsKinds(g: string, es: seq<MemberEntry>, obs: seq<Member>, n: nat)
    requires n <= |obs|
    ensures forall op :: op in SweepOps(g, es, obs, n) ==>
              || (op.UpdateMember? && op.groupName == g && (exists j :: 0 <= j < |es| && op.member == EntryMember(es[j]))
                    && ObservedUpTo(obs, op.member.servername, n))
              || (op.DeleteMember? && op.groupName == g)
    decreases n
  {
    if n > 0 {
      SweepOpsKinds(g, es, obs, n - 1);
      BindingOpsKinds(g, es, obs[n - 1]);
      var front, last := SweepOps(g, es, obs, n - 1), BindingOps(g, es, obs[n - 1]);
      assert SweepOps(g, es, obs, n) == front + last;
      forall op: Op | op in front + last
        ensures || (op.UpdateMember? && op.groupName == g && (exists j :: 0 <= j < |es| && op.member == EntryMember(es[j]))
                      && ObservedUpTo(obs, op.member.servername, n))
                || (op.DeleteMember? && op.groupName == g)
      {
        if op in front {
          if op.UpdateMember? {
            assert ObservedUpTo(obs, op.member.servername, n - 1);
          }
        } else {
          assert op in last;
        }
      }
    }
  }

  /** The sweep deletes an observed binding exactly when no entry names its
      server. */
  lemma {:induction false} SweepDeletes(g: string, es: seq<MemberEntry>, obs: seq<Member>, n: nat)
    requires n <= |obs|
    ensures forall b :: DeleteMember(g, b) in SweepOps(g, es, obs, n) <==> b in obs[..n] && !Named(es, b.servername)
    decreases n
  {
    if n > 0 {
      SweepDeletes(g, es, obs, n - 1);
      BindingOpsKinds(g, es, obs[n - 1]);
      var front, last := SweepOps(g, es, obs, n - 1), BindingOps(g, es, obs[n - 1]);
      assert SweepOps(g, es, obs, n) == front + last;
      assert obs[..n] == obs[..n - 1] + [obs[n - 1]];
    }
  }

  /** A binding whose server the first such entry gives another port is
      updated to that entry. */
  lemma SweepUpdates(g: string, es: seq<MemberEntry>, obs: seq<Member>, n: nat)
    requires n <= |obs|
    ensures forall i, j :: 0 <= i < n && 0 <= j < |es| && es[j].name == obs[i].servername && es[j].port != obs[i].port &&
                           (forall k :: 0 <= k < j ==> es[k].name != obs[i].servername) ==>
              UpdateMember(g, EntryMember(es[j])) in SweepOps(g, es, obs, n)
  {
    forall i, j | 0 <= i < n && 0 <= j < |es| && es[j].name == obs[i].servername && es[j].port != obs[i].port &&
                  (forall k :: 0 <= k < j ==> es[k].name != obs[i].servername)
      ensures UpdateMember(g, EntryMember(es[j])) in SweepOps(g, es, obs, n)
    {
      SweepUpdate(g, es, obs, n, i, j);
    }
  }

  /** The same for one binding `obs[i]` and its first entry `es[j]`. */
  lemma {:induction false} SweepUpdate(g: string, es: seq<MemberEntry>, obs: seq<Member>, n: nat, i: nat, j: nat)
    requires i < n <= |obs| && j < |es| && es[j].name == obs[i].servername && es[j].port != obs[i].port
    requires forall k :: 0 <= k < j ==> es[k].name != obs[i].servername
    ensures UpdateMember(g, EntryMember(es[j])) in SweepOps(g, es, obs, n)
    decreases n
  {
    var op := UpdateMember(g, EntryMember(es[j]));
    if i < n - 1 {
      SweepUpdate(g, es, obs, n - 1, i, j);
      InSweepFront(g, es, obs, n, op);
    } else {
      UpdateInBinding(g, es, obs[i], j);
      InSweepLast(g, es, obs, n, op);
    }
  }

  /** A call of the first `n - 1` bindings is a call of the first `n`. */
  lemma InSweepFront(g: string, es: seq<MemberEntry>, obs: seq<Member>, n: nat, op: Op)
    requires 0 < n <= |obs| && op in SweepOps(g, es, obs, n - 1)
    ensures op in SweepOps(g, es, obs, n)
  {
  }

  /** A call of binding `n - 1` is a call of the first `n`. */
  lemma InSweepLast(g: string, es: seq<MemberEntry>, obs: seq<Member>, n: nat, op: Op)
    requires 0 < n <= |obs| && op in BindingOps(g, es, obs[n - 1])
    ensures op in SweepOps(g, es, obs, n)
  {
  }

  /** The calls for one binding update it to its first entry of another port. */
  lemma UpdateInBinding(g: string, es: seq<MemberEntry>, b: Member, j: nat)
    requires j < |es| && es[j].name == b.servername && es[j].port != b.port
    requires forall k :: 0 <= k < j ==> es[k].name != b.servername
    ensures UpdateMember(g, EntryMember(es[j])) in BindingOps(g, es, b)
  {
    UpdateOpsContents(g, es, b, |es|);
  }

  lemma {:induction false} LegacyAddOpsContents(g: string, es: seq<MemberEntry>, obs: seq<Member>, n: nat)
    requires n <= |es|
    ensures forall m :: AddMember(g, m) in LegacyAddOps(g, es, obs, n) <==>
              exists j :: 0 <= j < n && !BoundAfter(es[j], obs) && m == EntryMember(es[j])
    ensures forall op :: op in LegacyAddOps(g, es, obs, n) ==> op.AddMember? && op.groupName == g
    decreases n
  {
    if n > 0 {
      LegacyAddOpsContents(g, es, obs, n - 1);
    }
  }

  /** The member calls of a run: none after a failed fetch; otherwise an
      observed binding is deleted exactly when no entry names its server; a
      binding whose server the entries name but with another port is
      updated in place to the first such entry's port; and an entry is added
      exactly when it carries no `bound` key and no observed binding is of
      its server, so a matched entry is never deleted and added again. */
  lemma LegacyMemberCalls(g: string, es: seq<MemberEntry>, fetched: Option<seq<Member>>)
    ensures fetched.None? ==> LegacyMemberOps(g, es, fetched) == []
    ensures fetched.Some? ==>
              var obs, ops := fetched.value, LegacyMemberOps(g, es, fetched);
              && (forall b :: DeleteMember(g, b) in ops <==> b in obs && !Named(es, b.servername))
              && (forall i, j :: 0 <= i < |obs| && 0 <= j < |es| && es[j].name == obs[i].servername &&
                                 es[j].port != obs[i].port && (forall k :: 0 <= k < j ==> es[k].name != obs[i].servername) ==>
                    UpdateMember(g, EntryMember(es[j])) in ops)
              && (forall m :: AddMember(g, m) in ops <==>
                    exists j :: 0 <= j < |es| && !es[j].bound && !ObservedUpTo(obs, es[j].name, |obs|) && m == EntryMember(es[j]))
              && (forall op :: op in ops && op.UpdateMember? ==> op.groupName == g && ObservedUpTo(obs, op.member.servername, |obs|))
  {
    if fetched.Some? {
      var obs := fetched.value;
      SweepOpsKinds(g, es, obs, |obs|);
      SweepDeletes(g, es, obs, |obs|);
      assert obs[..|obs|] == obs;
      SweepUpdates(g, es, obs, |obs|);
      LegacyAddOpsContents(g, es, obs, |es|);
      forall b | DeleteMember(g, b) in LegacyMemberOps(g, es, fetched)
        ensures DeleteMember(g, b) in SweepOps(g, es, obs, |obs|)
      {
        if DeleteMember(g, b) in LegacyAddOps(g, es, obs, |es|) {
          assert false;
        }
      }
    }
  }

  /** `cur` holds the entries `es` with some marks set. */
  predicate SameEntries(cur: seq<MemberEntry>, es: seq<MemberEntry>) {
    && |cur| == |es|
    && forall i :: 0 <= i < |es| ==> cur[i].name == es[i].name && cur[i].port == es[i].port
  }

  /** `marked` is `cur` with the `bound` key set on the entries of server
      `name`. */
  predicate MarkStep(cur: seq<MemberEntry>, marked: seq<MemberEntry>, name: string) {
    && |marked| == |cur|
    && forall i :: 0 <= i < |cur| ==> marked[i] == cur[i].(bound := cur[i].bound || cur[i].name == name)
  }

  /** Marking the server of binding n extends the marks of the first n. */
  lemma MarkAdvances(cur: seq<MemberEntry>, marked: seq<MemberEntry>, es: seq<MemberEntry>, obs: seq<Member>, n: nat)
    requires n < |obs| && MarkedBy(cur, es, obs, n) && MarkStep(cur, marked, obs[n].servername)
    ensures MarkedBy(marked, es, obs, n + 1)
  {
  }

  /** The inner loop for observed binding `b` over the entries `cur` (the
      entries `es` with the marks set so far): entries of its server get the
      `bound` key, and each one whose port differs from the binding's
      current port moves the binding there. */
  method MatchBinding(app: Appliance, g: string, ghost es: seq<MemberEntry>, cur: seq<MemberEntry>, b: Member)
    returns (ok: bool, marked: seq<MemberEntry>, found: bool)
    requires app.Valid() && SameEntries(cur, es)
    modifies app
    ensures app.Valid() && app.fetches == old(app.fetches)
    ensures app.trace == old(app.trace) + UpdateOps(g, es, b, |es|)
    ensures ok == app.AllAccepted(|old(app.trace)|, |app.trace|)
    ensures found == Named(es, b.servername)
    ensures MarkStep(cur, marked, b.servername)
  {
    ok, found, marked := true, false, cur;
    var port := b.port;
    var j := 0;
    while j < |cur|
      invariant app.Valid() && app.fetches == old(app.fetches)
      invariant MatchedUpTo(app, old(app.trace), g, es, cur, b, j, port, ok, found, marked)
    {
      ok, port, found, marked := MatchEntry(app, g, es, cur, b, j, port, old(app.trace), ok, found, marked);
      j := j + 1;
    }
    NamedUpToWitness(es, b.servername, |es|);
  }

  /** The inner loop for binding `b`, started at trace `t0`, has visited the
      first `j` entries: it made their updates, `port` is the binding's
      port, `ok` says whether every call was accepted, `found` whether one
      of them is of its server, and `marked` holds their marks. */
  ghost predicate MatchedUpTo(app: Appliance, t0: seq<Op>, g: string, es: seq<MemberEntry>, cur: seq<MemberEntry>,
                              b: Member, j: nat, port: int, ok: bool, found: bool, marked: seq<MemberEntry>)
    reads app
  {
    && j <= |cur| && SameEntries(cur, es) && |t0| <= |app.trace|
    && app.trace == t0 + UpdateOps(g, es, b, j)
    && port == PortAfter(es, b.servername, b.port, j)
    && ok == app.AllAccepted(|t0|, |app.trace|)
    && found == NamedUpTo(es, b.servername, j)
    && MarkedUpTo(cur, marked, b.servername, j)
  }

  /** One entry of the inner loop. */
  method MatchEntry(app: Appliance, g: string, ghost es: seq<MemberEntry>, cur: seq<MemberEntry>, b: Member, j: nat,
                    port0: int, ghost t0: seq<Op>, ok0: bool, found0: bool, marked0: seq<MemberEntry>)
    returns (ok: bool, port: int, found: bool, marked: seq<MemberEntry>)
    requires app.Valid() && j < |cur| && MatchedUpTo(app, t0, g, es, cur, b, j, port0, ok0, found0, marked0)
    modifies app
    ensures app.Valid() && app.fetches == old(app.fetches)
    ensures MatchedUpTo(app, t0, g, es, cur, b, j + 1, port, ok, found, marked)
  {
    ok, port, found, marked := ok0, port0, found0, marked0;
    assert cur[j].name == es[j].name && cur[j].port == es[j].port;
    ghost var step := if es[j].name == b.servername && port != es[j].port then [UpdateMember(g, Member(b.servername, es[j].port))] else [];
    if b.servername == cur[j].name {
      found := true;
      marked := marked[j := cur[j].(bound := true)];
      if port != cur[j].port {
        port := cur[j].port;
        var updated := app.Invoke(UpdateMember(g, Member(b.servername, cur[j].port)));
        app.AcceptedSnoc(|t0|, |old(app.trace)|);
        ok := ok && updated;
      }
    }
    assert app.trace == old(app.trace) + step;
    assert UpdateOps(g, es, b, j + 1) == UpdateOps(g, es, b, j) + step;
    MarkedExtend(cur, marked0, b.servername, j, marked);
  }

  /** The inner loop has marked the first `j` entries of `cur` and left the
      rest as they were. */
  ghost predicate MarkedUpTo(cur: seq<MemberEntry>, marked: seq<MemberEntry>, name: string, j: nat) {
    && j <= |cur| && |marked| == |cur|
    && (forall i :: 0 <= i < j ==> marked[i] == cur[i].(bound := cur[i].bound || cur[i].name == name))
    && (forall i :: j <= i < |cur| ==> marked[i] == cur[i])
  }

  /** Entry `j` is marked exactly when it is of the server `name`. */
  lemma MarkedExtend(cur: seq<MemberEntry>, marked: seq<MemberEntry>, name: string, j: nat, marked': seq<MemberEntry>)
    requires MarkedUpTo(cur, marked, name, j) && j < |cur|
    requires if cur[j].name == name then marked' == marked[j := cur[j].(bound := true)] else marked' == marked
    ensures MarkedUpTo(cur, marked', name, j + 1)
  {
    assert marked'[j] == cur[j].(bound := cur[j].bound || cur[j].name == name);
    forall i | 0 <= i < |cur| && i != j
      ensures marked'[i] == marked[i]
    {
    }
  }

  /** One pass of the sweep for observed binding `obs[n]`: the inner loop,
      then the delete when no entry names its server. */
  method SweepBinding(app: Appliance, g: string, ghost es: seq<MemberEntry>, cur: seq<MemberEntry>,
                      obs: seq<Member>, n: nat)
    returns (ok: bool, marked: seq<MemberEntry>)
    requires app.Valid() && n < |obs| && MarkedBy(cur, es, obs, n)
    modifies app
    ensures app.Valid() && app.fetches == old(app.fetches)
    ensures app.trace == old(app.trace) + BindingOps(g, es, obs[n])
    ensures ok == app.AllAccepted(|old(app.trace)|, |app.trace|)
    ensures MarkedBy(marked, es, obs, n + 1)
  {
    assert SameEntries(cur, es);
    var found;
    ok, marked, found := MatchBinding(app, g, es, cur, obs[n]);
    MarkAdvances(cur, marked, es, obs, n);
    if !found {
      var deleted := app.Invoke(DeleteMember(g, obs[n]));
      app.AcceptedSnoc(|old(app.trace)|, |app.trace| - 1);
      ok := ok && deleted;
    }
  }

  /** A trace that has made the sweep of the first `n` bindings and then
      the calls of binding `n` has made the sweep of the first `n + 1`. */
  lemma SweepTraceStep(t0: seq<Op>, t1: seq<Op>, t2: seq<Op>, g: string, es: seq<MemberEntry>, obs: seq<Member>, n: nat)
    requires n < |obs|
    requires t1 == t0 + SweepOps(g, es, obs, n) && t2 == t1 + BindingOps(g, es, obs[n])
    ensures t2 == t0 + SweepOps(g, es, obs, n + 1)
  {
    assert SweepOps(g, es, obs, n + 1) == SweepOps(g, es, obs, n) + BindingOps(g, es, obs[n]);
  }

  /** The sweep over the observed bindings (applyNetscalerState.py:156-177). */
  method LegacySweep(app: Appliance, g: string, es: seq<MemberEntry>, obs: seq<Member>)
    returns (ok: bool, marked: seq<MemberEntry>)
    requires app.Valid()
    modifies app
    ensures app.Valid() && app.fetches == old(app.fetches)
    ensures Swept(app, old(app.trace), g, es, obs, |obs|, ok, marked)
  {
    ok, marked := true, es;
    var i := 0;
    while i < |obs|
      invariant 0 <= i <= |obs|
      invariant app.Valid() && app.fetches == old(app.fetches)
      invariant Swept(app, old(app.trace), g, es, obs, i, ok, marked)
    {
      ok, marked := SweepStep(app, g, es, marked, obs, i, old(app.trace), ok);
      i := i + 1;
    }
  }

  /** The sweep started at trace `t0` has visited the first `n` observed
      bindings: it made their calls, `ok` says whether all were accepted,
      and `marked` carries the `bound` keys set so far. */
  ghost predicate Swept(app: Appliance, t0: seq<Op>, g: string, es: seq<MemberEntry>, obs: seq<Member>, n: nat,
                        ok: bool, marked: seq<MemberEntry>)
    reads app
  {
    && n <= |obs| && |t0| <= |app.trace|
    && app.trace == t0 + SweepOps(g, es, obs, n)
    && ok == app.AllAccepted(|t0|, |app.trace|)
    && MarkedBy(marked, es, obs, n)
  }

  /** One iteration of the sweep. */
  method SweepStep(app: Appliance, g: string, ghost es: seq<MemberEntry>, cur: seq<MemberEntry>, obs: seq<Member>,
                   n: nat, ghost t0: seq<Op>, ok0: bool)
    returns (ok: bool, marked: seq<MemberEntry>)
    requires app.Valid() && n < |obs| && Swept(app, t0, g, es, obs, n, ok0, cur)
    modifies app
    ensures app.Valid() && app.fetches == old(app.fetches)
    ensures Swept(app, t0, g, es, obs, n + 1, ok, marked)
  {
    ghost var t1 := app.trace;
    var swept;
    swept, marked := SweepBinding(app, g, es, cur, obs, n);
    app.AcceptedSplit(|t0|, |t1|, |app.trace|);
    SweepTraceStep(t0, t1, app.trace, g, es, obs, n);
    ok := ok0 && swept;
  }

  /** The last loop: every entry left without the `bound` key is added. */
  method LegacyAddUnbound(app: Appliance, g: string, ghost es: seq<MemberEntry>, marked: seq<MemberEntry>,
                          ghost obs: seq<Member>)
    returns (ok: bool)
    requires app.Valid() && MarkedBy(marked, es, obs, |obs|)
    modifies app
    ensures app.Valid() && app.fetches == old(app.fetches)
    ensures app.trace == old(app.trace) + LegacyAddOps(g, es, obs, |es|)
    ensures ok == app.AllAccepted(|old(app.trace)|, |app.trace|)
  {
    ok := true;
    var j := 0;
    while j < |marked|
      invariant 0 <= j <= |marked| == |es|
      invariant app.Valid() && app.fetches == old(app.fetches)
      invariant app.Made(old(app.trace), LegacyAddOps(g, es, obs, j), ok)
    {
      assert marked[j].bound == BoundAfter(es[j], obs) && EntryMember(marked[j]) == EntryMember(es[j]);
      if !marked[j].bound {
        ok := app.InvokeIn(old(app.trace), LegacyAddOps(g, es, obs, j), ok, AddMember(g, Member(marked[j].name, marked[j].port)));
      }
      j := j + 1;
    }
  }

  /** The member calls after a successful fetch: the sweep over the
      observed bindings, then the adds. */
  method LegacySweepMembers(app: Appliance, g: string, es: seq<MemberEntry>, obs: seq<Member>)
    returns (ok: bool, marked: seq<MemberEntry>)
    requires app.Valid()
    modifies app
    ensures app.Valid() && app.fetches == old(app.fetches)
    ensures app.trace == old(app.trace) + LegacyMemberOps(g, es, Some(obs))
    ensures ok == app.AllAccepted(|old(app.trace)|, |app.trace|)
    ensures MarkedBy(marked, es, obs, |obs|)
  {
    var swept, added;
    swept, marked := LegacySweep(app, g, es, obs);
    assert Swept(app, old(app.trace), g, es, obs, |obs|, swept, marked);
    ghost var t1 := app.trace;
    added := LegacyAddUnbound(app, g, es, marked, obs);
    app.AcceptedSplit(|old(app.trace)|, |t1|, |app.trace|);
    ghost var sweep, adds := SweepOps(g, es, obs, |obs|), LegacyAddOps(g, es, obs, |es|);
    assert app.trace == old(app.trace) + (sweep + adds);
    ok := swept && added;
  }

  /** ensure_servicegroup_state (applyNetscalerState.py:116-193): the group
      calls, the member fetch, and, when it succeeded, the sweep and the
      adds. The entries keep the `bound` keys the sweep set. */
  method LegacyEnsureServicegroupState(app: Appliance, c: ServiceGroupConf)
    returns (ok: bool, entries: seq<MemberEntry>, ghost fetched: Option<seq<Member>>)
    requires app.Valid()
    modifies app
    ensures app.Valid() && app.fetches == old(app.fetches) + 1
    ensures LegacyGroupStep(app, old(app.trace), old(app.fetches), c, fetched, app.trace)
    ensures fetched.None? ==> entries == c.servers
    ensures fetched.Some? ==> MarkedBy(entries, c.servers, fetched.value, |fetched.value|)
    ensures ok == app.AllAccepted(|old(app.trace)|, |app.trace|)
  {
    assert old(app.config) == app.At(app.trace);
    ok := ServiceGroups.EnsureGroupObject(app, c);
    ghost var t1 := app.trace;
    assert app.config == app.At(t1);
    var got := app.FetchMembers(c.name);
    fetched := got;
    entries := c.servers;
    if got.Some? {
      var swept;
      swept, entries := LegacySweepMembers(app, c.name, c.servers, got.value);
      app.AcceptedSplit(|old(app.trace)|, |t1|, |app.trace|);
      ok := ok && swept;
    } else {
      assert app.trace == t1 + [];
    }
  }

  // ---------------------------------------------------------------------
  // ensure_servicegroups_state

  /** One entry's run from trace `t` with fetch number `n`. */
  ghost predicate LegacyGroupStep(app: Appliance, t: seq<Op>, n: nat, c: ServiceGroupConf,
                                  fetched: Option<seq<Member>>, t': seq<Op>)
  {
    var t1 := t + ServiceGroups.GroupOps(Get(app.At(t).serviceGroups, c.name), c);
    && fetched == ServiceGroups.Fetched(app, t1, n, c.name)
    && t' == t1 + LegacyMemberOps(c.name, c.servers, fetched)
  }

  /** The first `i` entries made their runs, entry j starting at trace
      `starts[j]` with fetch number `n0 + j`. */
  ghost predicate GroupEntriesUpTo(app: Appliance, confs: seq<ServiceGroupConf>, n0: nat, starts: seq<seq<Op>>,
                                   fetched: seq<Option<seq<Member>>>, i: nat)
  {
    && i <= |confs| && |starts| == i + 1 && |fetched| == i
    && forall j :: 0 <= j < i ==> LegacyGroupStep(app, starts[j], n0 + j, confs[j], fetched[j], starts[j + 1])
  }

  /** Every entry made its run. */
  ghost predicate GroupEntriesRan(app: Appliance, confs: seq<ServiceGroupConf>, n0: nat, starts: seq<seq<Op>>,
                                  fetched: seq<Option<seq<Member>>>)
  {
    GroupEntriesUpTo(app, confs, n0, starts, fetched, |confs|)
  }

  /** One more entry run extends the record. */
  lemma GroupEntriesExtend(app: Appliance, confs: seq<ServiceGroupConf>, n0: nat, starts: seq<seq<Op>>,
                           fetched: seq<Option<seq<Member>>>, i: nat, f: Option<seq<Member>>, t': seq<Op>)
    requires GroupEntriesUpTo(app, confs, n0, starts, fetched, i) && i < |confs|
    requires LegacyGroupStep(app, starts[i], n0 + i, confs[i], f, t')
    ensures GroupEntriesUpTo(app, confs, n0, starts + [t'], fetched + [f], i + 1)
  {
    var starts', fetched' := starts + [t'], fetched + [f];
    forall j | 0 <= j < i + 1
      ensures LegacyGroupStep(app, starts'[j], n0 + j, confs[j], fetched'[j], starts'[j + 1])
    {
      if j < i {
        assert starts'[j] == starts[j] && starts'[j + 1] == starts[j + 1] && fetched'[j] == fetched[j];
      } else {
        assert starts'[j] == starts[i] && starts'[j + 1] == t' && fetched'[j] == f;
      }
    }
  }

  /** The loop over the entries, results ignored. */
  method RunLegacyGroupEntries(app: Appliance, confs: seq<ServiceGroupConf>)
    returns (ghost starts: seq<seq<Op>>, ghost fetched: seq<Option<seq<Member>>>)
    requires app.Valid()
    modifies app
    ensures app.Valid() && app.fetches == old(app.fetches) + |confs|
    ensures |starts| == |confs| + 1 && |fetched| == |confs|
    ensures starts[0] == old(app.trace) && starts[|confs|] == app.trace
    ensures GroupEntriesRan(app, confs, old(app.fetches), starts, fetched)
  {
    starts, fetched := [app.trace], [];
    var i := 0;
    while i < |confs|
      invariant 0 <= i <= |confs|
      invariant app.Valid() && app.fetches == old(app.fetches) + i
      invariant |starts| == i + 1 && starts[0] == old(app.trace) && starts[i] == app.trace
      invariant GroupEntriesUpTo(app, confs, old(app.fetches), starts, fetched, i)
    {
      assert app.config == app.At(app.trace);
      var done, entries, f := LegacyEnsureServicegroupState(app, confs[i]);
      GroupEntriesExtend(app, confs, old(app.fetches), starts, fetched, i, f, app.trace);
      starts, fetched := starts + [app.trace], fetched + [f];
      i := i + 1;
    }
  }

  /** The ghost record of one run of ensure_servicegroups_state. */
  datatype GroupsRun = GroupsRun(names: seq<string>, starts: seq<seq<Op>>, fetched: seq<Option<seq<Member>>>)

  /** The service groups section ran from trace `t0` with fetch number `n0`
      to trace `t'`: the names were listed in the state at `t0`, each entry
      made its calls, then every listed group no entry names was deleted. */
  ghost predicate LegacyGroupsRan(app: Appliance, confs: seq<ServiceGroupConf>, t0: seq<Op>, n0: nat, r: GroupsRun, t': seq<Op>) {
    && NameListing(ObjectNames(app.At(t0), ServiceGroupKind), r.names)
    && |r.starts| == |confs| + 1 && |r.fetched| == |confs| && r.starts[0] == t0
    && GroupEntriesRan(app, confs, n0, r.starts, r.fetched)
    && t' == r.starts[|confs|] + Deletes(ServiceGroupKind, Undeclared(r.names, Some(ServiceGroups.GroupNames(confs))))
  }

  /** ensure_servicegroups_state (applyNetscalerState.py:195-219): the
      removal list comes from a listing taken before any entry runs, and its
      deletes are made after all of them; only they decide the result. */
  method LegacyEnsureServicegroupsState(app: Appliance, confs: seq<ServiceGroupConf>) returns (ok: bool, ghost r: GroupsRun)
    requires app.Valid()
    modifies app
    ensures app.Valid() && app.fetches == old(app.fetches) + |confs|
    ensures LegacyGroupsRan(app, confs, old(app.trace), old(app.fetches), r, app.trace)
    ensures ok == app.AllAccepted(|r.starts[|confs|]|, |app.trace|)
  {
    assert app.config == app.At(app.trace);
    var listed := app.ListNames(ServiceGroupKind);
    var toRemove := RemovalList(listed, Some(ServiceGroups.GroupNames(confs)));
    var starts, fetched := RunLegacyGroupEntries(app, confs);
    ok := DeleteAll(app, ServiceGroupKind, toRemove);
    r := GroupsRun(listed, starts, fetched);
  }

  /** Every group the collection deletes was listed before the entries ran,
      so a group an entry created is never removed by it. */
  lemma {:induction false} EarlyListingOnly(k: Kind, names: seq<string>, declared: Option<seq<string>>)
    ensures forall op :: op in Deletes(k, Undeclared(names, declared)) ==>
              op == Delete(k, op.name) && op.name in names && !Declared(declared, op.name)
  {
    var xs := Undeclared(names, declared);
    forall op | op in Deletes(k, xs)
      ensures op == Delete(k, op.name) && op.name in names && !Declared(declared, op.name)
    {
      var i :| 0 <= i < |xs| && Deletes(k, xs)[i] == op;
      assert op.name == xs[i] && xs[i] in xs;
    }
  }

  // ---------------------------------------------------------------------
  // main

  /** One ns_group of the YAML document of this revision. */
  datatype LegacyGroup = LegacyGroup(servers: seq<ServerConf>, serviceGroups: seq<ServiceGroupConf>,
                                     lbVservers: seq<LbvserverConf>)

  /** What the reconciliation of one group did, over its span `s`: the
      servers section ran as `sr` from `s.t0` up to trace `mid1`, the
      service groups section as `gr` up to trace `mid2` and fetch count
      `fmid`, and the lbvservers section, with result `lb` and records
      `lbStarts` .. `lbNames`, up to trace `s.t'` and fetch count `s.f'`. */
  datatype LegacyRun = LegacyRun(sr: ServersRun, mid1: seq<Op>, gr: GroupsRun, mid2: seq<Op>, fmid: nat,
                                 lb: Outcome, lbStarts: seq<seq<Op>>, lbListings: seq<seq<Vserver>>,
                                 lbKeys: seq<seq<string>>, lbFetched: seq<Option<seq<string>>>, lbNames: seq<string>)

  /** Group `g` was reconciled over span `s` as `r` says: the three
      sections one after the other, each from where the one before ended;
      the servers section makes no fallible read and the service groups
      section one per entry. */
  ghost predicate LegacyGroupRan(app: Appliance, g: LegacyGroup, r: LegacyRun, s: Span) {
    && LegacyServersRan(app, g.servers, s.t0, r.sr, r.mid1)
    && LegacyGroupsRan(app, g.serviceGroups, r.mid1, s.f0, r.gr, r.mid2) && r.fmid == s.f0 + |g.serviceGroups|
    && Lbvservers.LbSectionRan(app, Some(g.lbVservers), r.mid2, r.fmid, r.lb, r.lbStarts,
                               r.lbListings, r.lbKeys, r.lbFetched, r.lbNames, s.t', s.f')
  }

  /** The body of the loop of `main` for one group, once connected
      (applyNetscalerState.py:449-455): servers, then service groups, then
      lbvservers, one pass; an exception from the lbvservers section leaves
      `main`. `r` records what each section did over the span `s` from the
      appliance's state on entry to its state on exit. */
  method LegacyProcessGroup(app: Appliance, g: LegacyGroup) returns (raised: bool, ghost r: LegacyRun, ghost s: Span)
    requires app.Valid()
    modifies app
    ensures app.Valid()
    ensures LegacyGroupRan(app, g, r, s) && raised == r.lb.Raised?
    ensures s.t0 == old(app.trace) && s.f0 == old(app.fetches) && s.t' == app.trace && s.f' == app.fetches
  {
    ghost var t0, f0 := app.trace, app.fetches;
    var serversOk, sr := LegacyEnsureServersState(app, g.servers);
    ghost var mid1 := app.trace;
    assert LegacyServersRan(app, g.servers, t0, sr, mid1);
    var groupsOk, gr := LegacyEnsureServicegroupsState(app, g.serviceGroups);
    ghost var mid2, f2 := app.trace, app.fetches;
    assert LegacyGroupsRan(app, g.serviceGroups, mid1, f0, gr, mid2) && f2 == f0 + |g.serviceGroups|;
    var out, starts, listings, keys, fetched, names := Lbvservers.EnsureLbvserversState(app, Some(g.lbVservers));
    raised := out.Raised?;
    r := LegacyRun(sr, mid1, gr, mid2, f2, out, starts, listings, keys, fetched, names);
    s := Span(t0, f0, app.trace, app.fetches);
    assert Lbvservers.LbSectionRan(app, Some(g.lbVservers), mid2, f2, out, starts, listings, keys, fetched, names,
                                   app.trace, app.fetches);
  }

  /** The loop of `main` (applyNetscalerState.py:446-456): group j is
      reconciled on appliance `apps[j]` (two groups may name the same
      instance), one group after the other; an exception from a group's
      lbvservers section ends `main`, so no later group is touched.
      `processed` counts the groups whose reconciliation started, and
      `runs[j]` and `spans[j]` record what that of group j did, as
      LegacyMainRan says. */
  method LegacyMain(apps: seq<Appliance>, groups: seq<LegacyGroup>)
    returns (raised: bool, processed: nat, ghost runs: seq<LegacyRun>, ghost spans: seq<Span>)
    requires |apps| == |groups|
    requires forall j :: 0 <= j < |apps| ==> apps[j].Valid()
    modifies set j | 0 <= j < |apps| :: apps[j]
    ensures processed <= |groups| && |runs| == |spans| == processed
    ensures !raised ==> processed == |groups|
    ensures raised ==> processed >= 1
    ensures LegacyMainRan(apps, groups, runs, spans, old(TracesOf(apps)), old(FetchesOf(apps)), raised)
    ensures forall a :: a in apps && (forall j :: 0 <= j < processed ==> apps[j] != a) ==>
              a.trace == old(a.trace) && a.fetches == old(a.fetches)
  {
    ghost var t0s, f0s := TracesOf(apps), FetchesOf(apps);
    raised, processed, runs, spans := false, 0, [], [];
    while processed < |groups| && !raised
      invariant processed == |runs| == |spans| <= |groups| && (raised ==> processed >= 1)
      invariant LegacyMainRan(apps, groups, runs, spans, t0s, f0s, raised)
    {
      raised, runs, spans := LegacyMainStep(apps, groups, processed, runs, spans, t0s, f0s);
      processed := processed + 1;
    }
    forall a | a in apps && (forall j :: 0 <= j < processed ==> apps[j] != a)
      ensures a.trace == old(a.trace) && a.fetches == old(a.fetches)
    {
      UnusedUntouched(apps, spans, TracesOf(apps), FetchesOf(apps), t0s, f0s, a);
      var i :| 0 <= i < |apps| && apps[i] == a;
    }
  }

  /** Group j of `runs` was reconciled over `spans[j]` as `runs[j]` says,
      only the last of them raising, and it did when `raised`; RunsRanAt
      states it for one j. */
  ghost predicate RunsRan(apps: seq<Appliance>, groups: seq<LegacyGroup>, runs: seq<LegacyRun>, spans: seq<Span>,
                          raised: bool)
    decreases |runs|
  {
    && |runs| == |spans| <= |apps| == |groups|
    && (|runs| > 0 ==>
          var k := |runs| - 1;
          && RunsRan(apps, groups, runs[..k], spans[..k], false)
          && LegacyGroupRan(apps[k], groups[k], runs[k], spans[k]) && runs[k].lb.Raised? == raised)
  }

  /** Group j of the record ran as `runs[j]` says. */
  lemma {:induction false} RunsRanAt(apps: seq<Appliance>, groups: seq<LegacyGroup>, runs: seq<LegacyRun>,
                                     spans: seq<Span>, raised: bool, j: nat)
    requires RunsRan(apps, groups, runs, spans, raised) && j < |runs|
    ensures LegacyGroupRan(apps[j], groups[j], runs[j], spans[j]) && runs[j].lb.Raised? == (raised && j == |runs| - 1)
    decreases |runs|
  {
    var k := |runs| - 1;
    if j < k {
      RunsRanAt(apps, groups, runs[..k], spans[..k], false, j);
      assert runs[..k][j] == runs[j] && spans[..k][j] == spans[j];
    }
  }

  /** The loop of `main` has reconciled the groups of `runs` from the
      traces `t0s` and fetch counts `f0s`: every appliance is valid, each
      group ran as its record says, starting where the last earlier group on
      its appliance ended, and each appliance ends where the last group on
      it ended. */
  ghost predicate LegacyMainRan(apps: seq<Appliance>, groups: seq<LegacyGroup>, runs: seq<LegacyRun>, spans: seq<Span>,
                                t0s: seq<seq<Op>>, f0s: seq<nat>, raised: bool)
    reads apps
  {
    && (forall j :: 0 <= j < |apps| ==> apps[j].Valid())
    && RunsRan(apps, groups, runs, spans, raised)
    && SpansChained(apps, spans, t0s, f0s)
    && EndsAsSpans(apps, spans, TracesOf(apps), FetchesOf(apps), t0s, f0s)
  }

  /** One more group run, after runs none of which raised, extends the
      record of what the groups did. */
  lemma RunsRanExtend(apps: seq<Appliance>, groups: seq<LegacyGroup>, runs: seq<LegacyRun>, spans: seq<Span>,
                      r: LegacyRun, s: Span, raised: bool)
    requires |runs| < |apps| && RunsRan(apps, groups, runs, spans, false)
    requires LegacyGroupRan(apps[|runs|], groups[|runs|], r, s) && r.lb.Raised? == raised
    ensures RunsRan(apps, groups, runs + [r], spans + [s], raised)
  {
    assert (runs + [r])[..|runs|] == runs && (spans + [s])[..|spans|] == spans;
  }

  /** Group `k` of the loop, on its own appliance. */
  method LegacyMainStep(apps: seq<Appliance>, groups: seq<LegacyGroup>, k: nat, ghost runs: seq<LegacyRun>,
                        ghost spans: seq<Span>, ghost t0s: seq<seq<Op>>, ghost f0s: seq<nat>)
    returns (raised: bool, ghost runs': seq<LegacyRun>, ghost spans': seq<Span>)
    requires k == |runs| < |apps| && LegacyMainRan(apps, groups, runs, spans, t0s, f0s, false)
    modifies apps[k]
    ensures |runs'| == |spans'| == k + 1 && LegacyMainRan(apps, groups, runs', spans', t0s, f0s, raised)
  {
    ghost var traces, fetches := TracesOf(apps), FetchesOf(apps);
    ghost var r, s;
    raised, r, s := LegacyProcessGroup(apps[k], groups[k]);
    RunsRanExtend(apps, groups, runs, spans, r, s, raised);
    SpansExtend(apps, spans, t0s, f0s, traces, fetches, TracesOf(apps), FetchesOf(apps), s);
    runs', spans' := runs + [r], spans + [s];
  }
}
