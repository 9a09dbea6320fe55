/** Servers in apply_netscaler_state.py: ensure_server_state reconciles one
    declared server against the listed servers; ensure_servers_state runs it
    for every entry and then deletes the undeclared servers. */
module Servers {
  import opened Wrappers
  import opened NitroTypes
  import opened Matcher
  import opened ApplianceModel
  import opened Collect

  /** The name-matched server as sent to NSServer.update: the desired address,
      translation ip and mask cleared. */
  function Readdressed(n: Server, c: ServerConf): Server {
    n.(ipaddress := c.ipAddress, translationip := None, translationmask := None)
  }

  /** The calls ensure_server_state makes once `matches_found` is known. */
  function ServerOps(m: Matches<Server>, c: ServerConf): seq<Op> {
    if m.full.Some? then []
    else
      (if m.byAddress.Some? then [Delete(ServerKind, m.byAddress.value.name)] else [])
      + (if m.byName.Some? then [UpdateServer(Readdressed(m.byName.value, c))] else [AddServer(NewServer(c))])
  }

  /** The calls made against one listing of the servers. */
  function ServerPlan(all: seq<Server>, c: ServerConf): seq<Op> {
    ServerOps(MatchesFound(all, ServerBucket(c)), c)
  }

  ghost predicate FullMatch(all: seq<Server>, c: ServerConf) {
    exists i :: 0 <= i < |all| && all[i].name == c.name && all[i].ipaddress == c.ipAddress
  }

  /** A server with the desired name and ip means no call at all, and only
      that. */
  lemma ServerFullMatchNoCalls(all: seq<Server>, c: ServerConf)
    ensures ServerPlan(all, c) == [] <==> FullMatch(all, c)
  {
    ServerSlots(all, c);
  }

  /** Without a full match: a name match is updated in place with the desired
      address and cleared translation fields and nothing is created;
      otherwise exactly one server is created; the last address-only match
      is deleted first; nothing is ever renamed. */
  lemma ServerNoFullMatch(all: seq<Server>, c: ServerConf)
    requires !FullMatch(all, c)
    ensures var ops := ServerPlan(all, c);
      && 1 <= |ops| <= 2
      && ((exists i :: 0 <= i < |all| && all[i].name == c.name) <==>
            exists n :: n in all && n.name == c.name && ops[|ops| - 1] == UpdateServer(Readdressed(n, c)))
      && ((forall i :: 0 <= i < |all| ==> all[i].name != c.name) <==> ops[|ops| - 1] == AddServer(NewServer(c)))
      && (|ops| == 2 <==> exists i :: 0 <= i < |all| && all[i].name != c.name && all[i].ipaddress == c.ipAddress)
      && (|ops| == 2 ==> exists x :: x in all && x.name != c.name && x.ipaddress == c.ipAddress && ops[0] == Delete(ServerKind, x.name))
      && forall op :: op in ops ==> !op.RenameServer? && (!op.AddServer? || op == AddServer(NewServer(c)))
  {
    ServerSlots(all, c);
    var m := MatchesFound(all, ServerBucket(c));
    if m.byName.None? {
      assert forall i :: 0 <= i < |all| ==> all[i].name != c.name;
    }
  }

  /** The server the last call of a plan writes under the desired name. */
  function Written(m: Matches<Server>, c: ServerConf): Server {
    if m.byName.Some? then Readdressed(m.byName.value, c) else NewServer(c)
  }

  /** The last call of a plan without a full match stores `Written`. */
  lemma ServerWrite(s: State, m: Matches<Server>, c: ServerConf)
    requires m.byName.Some? ==> m.byName.value.name == c.name && c.name in s.servers
    ensures var last := if m.byName.Some? then UpdateServer(Readdressed(m.byName.value, c)) else AddServer(NewServer(c));
            Apply(s, last) == s.(servers := s.servers[c.name := Written(m, c)])
  {
  }

  /** The state a plan without a full match leaves: the address match `x`
      (if any) deleted, then `v` stored under the desired name. */
  lemma WrittenConverges(s: State, x: Option<string>, v: Server, c: ServerConf)
    requires v.name == c.name && v.ipaddress == c.ipAddress
    requires x.Some? ==> x.value in s.servers && s.servers[x.value].ipaddress == c.ipAddress
    ensures var s1 := if x.Some? then s.(servers := s.servers - {x.value}) else s;
      var r := s1.(servers := s1.servers[c.name := v]);
      && c.name in r.servers && r.servers[c.name].ipaddress == c.ipAddress
      && (forall n :: n in s.servers && n != c.name && s.servers[n].ipaddress != c.ipAddress ==>
            n in r.servers && r.servers[n] == s.servers[n])
      && r.(servers := s.servers) == s
  {
  }

  /** When every call is accepted the declared server exists with the
      desired address, and a server that neither has the desired name nor
      shares the desired address is left alone; nothing but servers changes. */
  lemma ServerConverges(s: State, all: seq<Server>, c: ServerConf)
    requires WellKeyed(s) && Lists(s.servers, all, ServerName)
    ensures var r := ApplyAll(s, ServerPlan(all, c));
      && c.name in r.servers && r.servers[c.name].ipaddress == c.ipAddress
      && (forall n :: n in s.servers && n != c.name && s.servers[n].ipaddress != c.ipAddress ==>
            n in r.servers && r.servers[n] == s.servers[n])
      && r.(servers := s.servers) == s
  {
    ServerSlotValues(all, c);
    var m := MatchesFound(all, ServerBucket(c));
    if m.full.Some? {
      assert s.servers[c.name] == m.full.value;
      assert ServerPlan(all, c) == [];
    } else {
      var last := if m.byName.Some? then UpdateServer(Readdressed(m.byName.value, c)) else AddServer(NewServer(c));
      if m.byAddress.Some? {
        var x := m.byAddress.value.name;
        assert ServerPlan(all, c) == [Delete(ServerKind, x), last];
        ApplyAllTwo(s, Delete(ServerKind, x), last);
        ServerWrite(s.(servers := s.servers - {x}), m, c);
        WrittenConverges(s, Some(x), Written(m, c), c);
      } else {
        assert ServerPlan(all, c) == [last];
        ApplyAllOne(s, last);
        ServerWrite(s, m, c);
        WrittenConverges(s, None, Written(m, c), c);
      }
    }
  }

  /** ensure_server_state (apply_netscaler_state.py:211-285): list the
      servers, fill `matches_found`, act on it. */
  method EnsureServerState(app: Appliance, c: ServerConf) returns (ok: bool, ghost listing: seq<Server>)
    requires app.Valid()
    modifies app
    ensures app.Valid() && app.fetches == old(app.fetches)
    ensures Lists(old(app.config).servers, listing, ServerName)
    ensures app.trace == old(app.trace) + ServerPlan(listing, c)
    ensures ok == app.AllAccepted(|old(app.trace)|, |app.trace|)
  {
    var all := app.ListServers();
    listing := all;
    var m := FindMatches(all, ServerBucket(c));
    ok := ActOnServerMatches(app, m, c);
  }

  /** The branches of ensure_server_state after the match loop
      (apply_netscaler_state.py:235-283). The address-only and the two-object
      cases both delete the address match first; a name match is then
      updated, otherwise a server is added. */
  method ActOnServerMatches(app: Appliance, m: Matches<Server>, c: ServerConf) returns (ok: bool)
    requires app.Valid()
    modifies app
    ensures app.Valid() && app.fetches == old(app.fetches)
    ensures app.trace == old(app.trace) + ServerOps(m, c)
    ensures ok == app.AllAccepted(|old(app.trace)|, |app.trace|)
  {
    if m.full.Some? {
      return true;
    }
    var deleted := true;
    if m.byAddress.Some? {
      deleted := app.Invoke(Delete(ServerKind, m.byAddress.value.name));
    }
    ghost var t1 := app.trace;
    var done;
    if m.byName.Some? {
      done := app.Invoke(UpdateServer(Readdressed(m.byName.value, c)));
    } else {
      done := app.Invoke(AddServer(NewServer(c)));
    }
    app.AcceptedSnoc(|old(app.trace)|, |t1|);
    ok := deleted && done;
  }

  /** The names the entries of a servers section declare. */
  function ServerNames(cs: seq<ServerConf>): seq<string> {
    seq(|cs|, i requires 0 <= i < |cs| => cs[i].name)
  }

  function DeclaredServers(conf: Option<seq<ServerConf>>): Option<seq<string>> {
    if conf.Some? then Some(ServerNames(conf.value)) else None
  }

  /** Entry `c` ran from trace `t` to trace `t'`, against `listing`, the
      servers as they were at `t`. */
  ghost predicate ServerStep(app: Appliance, t: seq<Op>, listing: seq<Server>, c: ServerConf, t': seq<Op>) {
    && Lists(app.At(t).servers, listing, ServerName)
    && t' == t + ServerPlan(listing, c)
  }

  /** The first `i` entries of `confs` ran, entry j from `starts[j]` to
      `starts[j + 1]`. */
  ghost predicate ServerRunsUpTo(app: Appliance, confs: seq<ServerConf>, starts: seq<seq<Op>>,
                                 listings: seq<seq<Server>>, i: nat)
  {
    && i <= |confs| && |starts| == i + 1 && |listings| == i
    && forall j :: 0 <= j < i ==> ServerStep(app, starts[j], listings[j], confs[j], starts[j + 1])
  }

  /** One more entry run extends the record. */
  lemma ServerRunsExtend(app: Appliance, confs: seq<ServerConf>, starts: seq<seq<Op>>,
                         listings: seq<seq<Server>>, i: nat, l: seq<Server>, t': seq<Op>)
    requires ServerRunsUpTo(app, confs, starts, listings, i) && i < |confs|
    requires ServerStep(app, starts[i], l, confs[i], t')
    ensures ServerRunsUpTo(app, confs, starts + [t'], listings + [l], i + 1)
  {
    var starts', listings' := starts + [t'], listings + [l];
    forall j | 0 <= j < i + 1
      ensures ServerStep(app, starts'[j], listings'[j], confs[j], starts'[j + 1])
    {
      if j < i {
        assert starts'[j] == starts[j] && starts'[j + 1] == starts[j + 1] && listings'[j] == listings[j];
      } else {
        assert starts'[j] == starts[i] && starts'[j + 1] == t' && listings'[j] == l;
      }
    }
  }

  /** The first loop of ensure_servers_state: every entry reconciled in
      turn, each against a listing of the servers as they are when it starts;
      the per-entry results are ignored. `starts[j]` is the trace when entry j
      starts, `starts[|confs|]` the trace at the end. */
  method RunServerEntries(app: Appliance, confs: seq<ServerConf>)
    returns (ghost starts: seq<seq<Op>>, ghost listings: seq<seq<Server>>)
    requires app.Valid()
    modifies app
    ensures app.Valid() && app.fetches == old(app.fetches)
    ensures |starts| == |confs| + 1 && |listings| == |confs|
    ensures starts[0] == old(app.trace) && starts[|confs|] == app.trace
    ensures forall j :: 0 <= j < |confs| ==> ServerStep(app, starts[j], listings[j], confs[j], starts[j + 1])
  {
    starts, listings := [app.trace], [];
    var i := 0;
    while i < |confs|
      invariant 0 <= i <= |confs|
      invariant app.Valid() && app.fetches == old(app.fetches)
      invariant |starts| == i + 1 && starts[0] == old(app.trace) && starts[i] == app.trace
      invariant ServerRunsUpTo(app, confs, starts, listings, i)
    {
      assert app.config == app.At(app.trace);
      var _, listing := EnsureServerState(app, confs[i]);
      ServerRunsExtend(app, confs, starts, listings, i, listing, app.trace);
      starts, listings := starts + [app.trace], listings + [listing];
      i := i + 1;
    }
  }

  /** A run of ensure_servers_state from trace `t0` and fetch count `f0`
      to trace `t'` and fetch count `f'`: entry j ran from `starts[j]` to
      `starts[j + 1]`, seeing `listings[j]`, then the collection listed
      `names` and deleted the undeclared ones; `ok` says whether every
      delete was accepted, and no fallible read was made. */
  ghost predicate ServersSectionRan(app: Appliance, conf: Option<seq<ServerConf>>, t0: seq<Op>, f0: nat, ok: bool,
                                    starts: seq<seq<Op>>, listings: seq<seq<Server>>, names: seq<string>,
                                    t': seq<Op>, f': nat)
  {
    && f' == f0
    && |starts| == |Entries(conf)| + 1 && |listings| == |Entries(conf)| && starts[0] == t0
    && (forall j :: 0 <= j < |Entries(conf)| ==> ServerStep(app, starts[j], listings[j], Entries(conf)[j], starts[j + 1]))
    && var gc := starts[|Entries(conf)|];
       && NameListing(ObjectNames(app.At(gc), ServerKind), names)
       && t' == gc + Deletes(ServerKind, Undeclared(names, DeclaredServers(conf)))
       && ok == app.AllAccepted(|gc|, |t'|)
  }

  /** ensure_servers_state (apply_netscaler_state.py:434-473): the per-entry
      runs, then the garbage collection against a listing taken after them;
      only the deletes of the collection decide the result. `starts` and
      `listings` are as in RunServerEntries. */
  method EnsureServersState(app: Appliance, conf: Option<seq<ServerConf>>)
    returns (ok: bool, ghost starts: seq<seq<Op>>, ghost listings: seq<seq<Server>>, ghost names: seq<string>)
    requires app.Valid()
    modifies app
    ensures app.Valid()
    ensures ServersSectionRan(app, conf, old(app.trace), old(app.fetches), ok, starts, listings, names, app.trace, app.fetches)
  {
    starts, listings := RunServerEntries(app, Entries(conf));
    assert app.config == app.At(app.trace);
    ok, names := CollectUndeclared(app, ServerKind, DeclaredServers(conf));
  }
}
