/** The reconciliation loop of `main` in apply_netscaler_state.py: for a
    connected group without the `build` flag, six passes, each visiting the
    six section types of `yaml_config_resource_types` in order and handing
    each reconciler its section or None. The `exec` dispatch on the type name
    becomes a match over an enumeration. */
module Scheduler {
  import opened Wrappers
  import opened NitroTypes
  import opened ApplianceModel
  import opened ApplianceRuns
  import Servers
  import ServiceGroups
  import Lbvservers
  import Csvservers
  import CsActions
  import CsPolicies

  /** The entries of yaml_config_resource_types. */
  datatype SectionType =
    | ServersSection | ServiceGroupsSection | LbvserversSection | CsvserversSection | CsActionsSection | CsPoliciesSection

  /** yaml_config_resource_types (apply_netscaler_state.py:38). */
  const YamlConfigResourceTypes: seq<SectionType> :=
    [ServersSection, ServiceGroupsSection, LbvserversSection, CsvserversSection, CsActionsSection, CsPoliciesSection]

  /** The number of passes: `i` runs from 0 to 5. */
  const Passes: nat := 6

  /** One ns_group of the YAML document: each section may be absent, and
      `build` says whether the key is present. */
  datatype NsGroup = NsGroup(
    servers: Option<seq<ServerConf>>,
    serviceGroups: Option<seq<ServiceGroupConf>>,
    lbvservers: Option<seq<LbvserverConf>>,
    csvservers: Option<seq<CsvserverConf>>,
    csActions: Option<seq<CsActionConf>>,
    csPolicies: Option<seq<CsPolicyConf>>,
    build: bool)

  /** Whether the group carries a section of type `t`. */
  predicate Present(g: NsGroup, t: SectionType) {
    match t
    case ServersSection => g.servers.Some?
    case ServiceGroupsSection => g.serviceGroups.Some?
    case LbvserversSection => g.lbvservers.Some?
    case CsvserversSection => g.csvservers.Some?
    case CsActionsSection => g.csActions.Some?
    case CsPoliciesSection => g.csPolicies.Some?
  }

  /** One reconciler call of the loop: the pass, the type, and whether it
      was handed a section (true) or None (false). */
  datatype Call = Call(pass: nat, section: SectionType, present: bool)

  /** The call of type number `j` in pass `p`. */
  function CallAt(g: NsGroup, p: nat, j: nat): Call
    requires j < |YamlConfigResourceTypes|
  {
    Call(p, YamlConfigResourceTypes[j], Present(g, YamlConfigResourceTypes[j]))
  }

  /** The calls of pass `i` over the first `n` types. */
  function PassCalls(g: NsGroup, i: nat, n: nat): seq<Call>
    requires n <= |YamlConfigResourceTypes|
  {
    seq(n, j requires 0 <= j < n => CallAt(g, i, j))
  }

  /** The calls of the first `k` passes, each pass the six types in order. */
  function PassesCalls(g: NsGroup, k: nat): seq<Call>
    decreases k
  {
    if k == 0 then [] else PassesCalls(g, k - 1) + PassCalls(g, k - 1, |YamlConfigResourceTypes|)
  }

  /** The calls `main` makes for one group: none when the connection failed
      or the group carries `build`. */
  function Schedule(g: NsGroup, connected: bool): seq<Call> {
    if !connected || g.build then [] else PassesCalls(g, Passes)
  }

  /** Call `6 * p + j` of the first `k` passes is type `j` of pass `p`. */
  lemma {:induction false} PassesIndex(g: NsGroup, k: nat)
    ensures |PassesCalls(g, k)| == 6 * k
    ensures forall p, j :: 0 <= p < k && 0 <= j < |YamlConfigResourceTypes| ==> PassesCalls(g, k)[6 * p + j] == CallAt(g, p, j)
    decreases k
  {
    if k > 0 {
      PassesIndex(g, k - 1);
      var front, pass := PassesCalls(g, k - 1), PassCalls(g, k - 1, |YamlConfigResourceTypes|);
      forall p, j | 0 <= p < k && 0 <= j < |YamlConfigResourceTypes|
        ensures PassesCalls(g, k)[6 * p + j] == CallAt(g, p, j)
      {
        if p < k - 1 {
          assert PassesCalls(g, k)[6 * p + j] == front[6 * p + j];
        } else {
          assert PassesCalls(g, k)[6 * p + j] == pass[j];
        }
      }
    }
  }

  /** The calls of fewer passes start those of more. */
  lemma {:induction false} PassesGrow(g: NsGroup, a: nat, b: nat)
    requires a <= b
    ensures PassesCalls(g, a) <= PassesCalls(g, b)
    decreases b - a
  {
    if a < b {
      PassesGrow(g, a, b - 1);
      assert PassesCalls(g, b - 1) <= PassesCalls(g, b);
    }
  }

  /** A connected group without `build` gets exactly six passes of six
      calls, pass p visiting the types in the order of
      yaml_config_resource_types and handing None for an absent section; any
      other group gets no call at all. */
  lemma ScheduleShape(g: NsGroup, connected: bool)
    ensures !connected || g.build ==> Schedule(g, connected) == []
    ensures connected && !g.build ==>
              && |Schedule(g, connected)| == Passes * |YamlConfigResourceTypes|
              && forall p, j :: 0 <= p < Passes && 0 <= j < |YamlConfigResourceTypes| ==>
                   Schedule(g, connected)[6 * p + j] == CallAt(g, p, j)
  {
    PassesIndex(g, Passes);
  }

  /** The reconciler calls never change which sections a group carries. */
  predicate SameShape(g: NsGroup, g': NsGroup) {
    && g'.build == g.build
    && g'.servers.Some? == g.servers.Some? && g'.serviceGroups.Some? == g.serviceGroups.Some?
    && g'.lbvservers.Some? == g.lbvservers.Some? && g'.csvservers.Some? == g.csvservers.Some?
    && g'.csActions.Some? == g.csActions.Some? && g'.csPolicies.Some? == g.csPolicies.Some?
  }

  /** What one reconciler call left behind, besides the trace: the result
      and the ghost records of the run, one shape per type. */
  datatype Visit =
    | ServersVisit(ok: bool, starts: seq<seq<Op>>, serverListings: seq<seq<Server>>, names: seq<string>)
    | GroupsVisit(ok: bool, groupsOut: Option<seq<ServiceGroupConf>>, starts: seq<seq<Op>>,
                  memberFetches: seq<Option<seq<Member>>>, names: seq<string>)
    | LbVisit(out: Outcome, starts: seq<seq<Op>>, vserverListings: seq<seq<Vserver>>, keys: seq<seq<string>>,
              bindingFetches: seq<Option<seq<string>>>, names: seq<string>)
    | CsVisit(ok: bool, csOut: Option<seq<CsvserverConf>>, runs: seq<Csvservers.CsRun>, names: seq<string>)
    | ActionsVisit(starts: seq<seq<Op>>, names: seq<string>)
    | PoliciesVisit(starts: seq<seq<Op>>, policyNames: Option<seq<string>>)

  /** The reconciler of type `t` ran on group `g` from trace `t0` and fetch
      count `f0` to trace `t'` and fetch count `f'`, as the record `v` of
      its type says, leaving the group `g'`; `raised` says whether it raised,
      which only the lbvserver reconciler can do. */
  ghost predicate Visited(app: Appliance, g: NsGroup, t: SectionType, t0: seq<Op>, f0: nat, v: Visit, raised: bool,
                          g': NsGroup, t': seq<Op>, f': nat)
  {
    match t
    case ServersSection =>
      && v.ServersVisit? && !raised && g' == g
      && Servers.ServersSectionRan(app, g.servers, t0, f0, v.ok, v.starts, v.serverListings, v.names, t', f')
    case ServiceGroupsSection =>
      && v.GroupsVisit? && !raised && g' == g.(serviceGroups := v.groupsOut)
      && ServiceGroups.GroupsSectionRan(app, g.serviceGroups, t0, f0, v.ok, v.groupsOut, v.starts, v.memberFetches,
                                        v.names, t', f')
    case LbvserversSection =>
      && v.LbVisit? && raised == v.out.Raised? && g' == g
      && Lbvservers.LbSectionRan(app, g.lbvservers, t0, f0, v.out, v.starts, v.vserverListings, v.keys,
                                 v.bindingFetches, v.names, t', f')
    case CsvserversSection =>
      && v.CsVisit? && !raised && g' == g.(csvservers := v.csOut)
      && Csvservers.CsSectionRan(app, g.csvservers, t0, f0, v.ok, v.csOut, v.runs, v.names, t', f')
    case CsActionsSection =>
      && v.ActionsVisit? && !raised && g' == g
      && CsActions.ActionsSectionRan(app, g.csActions, t0, f0, v.starts, v.names, t', f')
    case CsPoliciesSection =>
      && v.PoliciesVisit? && !raised && g' == g
      && CsPolicies.PoliciesSectionRan(app, g.csPolicies, t0, f0, v.starts, v.policyNames, t', f')
  }

  /** The `exec` of `main` for one type: the reconciler of that type on its
      section. The service group and csvserver reconcilers leave their
      markers in the section, which the later passes then see; only the
      lbvserver reconciler can raise. */
  method Dispatch(app: Appliance, g: NsGroup, t: SectionType) returns (raised: bool, g': NsGroup, ghost v: Visit)
    requires app.Valid()
    modifies app
    ensures app.Valid()
    ensures Visited(app, g, t, old(app.trace), old(app.fetches), v, raised, g', app.trace, app.fetches)
    ensures SameShape(g, g')
    ensures raised ==> t == LbvserversSection
  {
    raised, g' := false, g;
    match t
    case ServersSection =>
      var ok, starts, listings, names := Servers.EnsureServersState(app, g.servers);
      v := ServersVisit(ok, starts, listings, names);
    case ServiceGroupsSection =>
      var ok, out, starts, fetched, names := ServiceGroups.EnsureServiceGroupsState(app, g.serviceGroups);
      g', v := g.(serviceGroups := out), GroupsVisit(ok, out, starts, fetched, names);
    case LbvserversSection =>
      var out, starts, listings, keys, fetched, names := Lbvservers.EnsureLbvserversState(app, g.lbvservers);
      raised, v := out.Raised?, LbVisit(out, starts, listings, keys, fetched, names);
    case CsvserversSection =>
      var ok, out, runs, names := Csvservers.EnsureCsvserversState(app, g.csvservers);
      g', v := g.(csvservers := out), CsVisit(ok, out, runs, names);
    case CsActionsSection =>
      var ok, starts, names := CsActions.EnsureCsActionsState(app, g.csActions);
      v := ActionsVisit(starts, names);
    case CsPoliciesSection =>
      var ok, starts, names := CsPolicies.EnsureCsPoliciesState(app, g.csPolicies);
      v := PoliciesVisit(starts, names);
  }

  /** Call j of `calls` ran the reconciler of its type on the group
      `groups[j]`, handed a section exactly when that group carries one,
      from trace `marks[j]` and fetch count `fmarks[j]` to `marks[j + 1]`
      and `fmarks[j + 1]`, leaving the group `groups[j + 1]`; only the last
      call may have raised, and it did when `raised`. */
  ghost predicate Visits(app: Appliance, calls: seq<Call>, groups: seq<NsGroup>, marks: seq<seq<Op>>, fmarks: seq<nat>,
                         visits: seq<Visit>, raised: bool)
  {
    && |groups| == |marks| == |fmarks| == |calls| + 1 && |visits| == |calls|
    && forall j {:trigger visits[j]} :: 0 <= j < |calls| ==>
         && calls[j].present == Present(groups[j], calls[j].section)
         && Visited(app, groups[j], calls[j].section, marks[j], fmarks[j], visits[j], raised && j == |calls| - 1,
                    groups[j + 1], marks[j + 1], fmarks[j + 1])
  }

  /** One more call, after calls none of which raised, extends the record. */
  lemma VisitsExtend(app: Appliance, calls: seq<Call>, groups: seq<NsGroup>, marks: seq<seq<Op>>, fmarks: seq<nat>,
                     visits: seq<Visit>, c: Call, g': NsGroup, t': seq<Op>, f': nat, v: Visit, raised: bool)
    requires Visits(app, calls, groups, marks, fmarks, visits, false)
    requires c.present == Present(groups[|calls|], c.section)
    requires Visited(app, groups[|calls|], c.section, marks[|calls|], fmarks[|calls|], v, raised, g', t', f')
    ensures Visits(app, calls + [c], groups + [g'], marks + [t'], fmarks + [f'], visits + [v], raised)
  {
    var calls', groups', marks', fmarks', visits' := calls + [c], groups + [g'], marks + [t'], fmarks + [f'], visits + [v];
    forall j | 0 <= j < |calls'|
      ensures calls'[j].present == Present(groups'[j], calls'[j].section)
      ensures Visited(app, groups'[j], calls'[j].section, marks'[j], fmarks'[j], visits'[j], raised && j == |calls'| - 1,
                      groups'[j + 1], marks'[j + 1], fmarks'[j + 1])
    {
      if j < |calls| {
        assert calls'[j] == calls[j] && groups'[j] == groups[j] && groups'[j + 1] == groups[j + 1];
        assert marks'[j] == marks[j] && marks'[j + 1] == marks[j + 1] && visits'[j] == visits[j];
        assert fmarks'[j] == fmarks[j] && fmarks'[j + 1] == fmarks[j + 1];
      }
    }
  }

  /** What ProcessGroup recorded for one group: the reconciler calls made,
      in order, and, as Visits says, the group, trace and fetch count
      between them and what each reconciler did. */
  datatype GroupRun = GroupRun(calls: seq<Call>, groups: seq<NsGroup>, marks: seq<seq<Op>>, fmarks: seq<nat>,
                               visits: seq<Visit>)

  /** Group `g`, with connection flag `connected`, was reconciled over span
      `s` as `r` says: its calls are its whole schedule, or, when it
      raised, a start of it ending at an lbvserver reconciler; each call
      ran its reconciler as Visits says, the first from the group as
      declared and from the start of the span, the last ending at its end. */
  ghost predicate GroupRan(app: Appliance, g: NsGroup, connected: bool, r: GroupRun, s: Span, raised: bool) {
    && (!raised ==> r.calls == Schedule(g, connected))
    && (raised ==> 0 < |r.calls| && r.calls <= Schedule(g, connected)
                   && r.calls[|r.calls| - 1].section == LbvserversSection)
    && Visits(app, r.calls, r.groups, r.marks, r.fmarks, r.visits, raised)
    && r.groups[0] == g && r.marks[0] == s.t0 && r.fmarks[0] == s.f0
    && r.marks[|r.calls|] == s.t' && r.fmarks[|r.calls|] == s.f'
  }

  /** The body of the loop of `main` for one group
      (apply_netscaler_state.py:1691-1718), the snapshot left aside: without
      a connection or with `build` no reconciler runs; otherwise the passes
      run until done or until a reconciler raises, which ends `main`. `r`
      records the reconciler calls made, in order, and what each of them
      did, over the span `s` from the appliance's state on entry to its
      state on exit, as GroupRan says. */
  method ProcessGroup(app: Appliance, g: NsGroup, connected: bool) returns (raised: bool, ghost r: GroupRun, ghost s: Span)
    requires app.Valid()
    modifies app
    ensures app.Valid()
    ensures GroupRan(app, g, connected, r, s, raised)
    ensures s.t0 == old(app.trace) && s.f0 == old(app.fetches) && s.t' == app.trace && s.f' == app.fetches
    ensures !connected || g.build ==> !raised && app.trace == old(app.trace) && app.fetches == old(app.fetches)
  {
    ghost var t0, f0 := app.trace, app.fetches;
    ghost var calls, groups, marks, fmarks, visits;
    if !connected || g.build {
      raised, calls, groups, marks, fmarks, visits := false, [], [g], [app.trace], [app.fetches], [];
    } else {
      raised, calls, groups, marks, fmarks, visits := RunPasses(app, g);
    }
    r, s := GroupRun(calls, groups, marks, fmarks, visits), Span(t0, f0, app.trace, app.fetches);
  }

  /** The six passes of a connected group without `build`, until a
      reconciler raises. */
  method RunPasses(app: Appliance, g: NsGroup)
    returns (raised: bool, ghost calls: seq<Call>, ghost groups: seq<NsGroup>, ghost marks: seq<seq<Op>>,
             ghost fmarks: seq<nat>, ghost visits: seq<Visit>)
    requires app.Valid()
    modifies app
    ensures app.Valid()
    ensures !raised ==> calls == PassesCalls(g, Passes)
    ensures raised ==> 0 < |calls| && calls <= PassesCalls(g, Passes) && calls[|calls| - 1].section == LbvserversSection
    ensures Visits(app, calls, groups, marks, fmarks, visits, raised)
    ensures groups[0] == g && marks[0] == old(app.trace) && fmarks[0] == old(app.fetches)
    ensures marks[|calls|] == app.trace && fmarks[|calls|] == app.fetches
  {
    raised, calls, groups, marks, fmarks, visits := false, [], [g], [app.trace], [app.fetches], [];
    var cur := g;
    var i := 0;
    while i <= 5
      invariant 0 <= i <= Passes && app.Valid() && SameShape(g, cur)
      invariant calls == PassesCalls(g, i)
      invariant Visits(app, calls, groups, marks, fmarks, visits, false)
      invariant groups[0] == g && marks[0] == old(app.trace) && fmarks[0] == old(app.fetches)
      invariant groups[|calls|] == cur && marks[|calls|] == app.trace && fmarks[|calls|] == app.fetches
    {
      var n;
      raised, cur, n, calls, groups, marks, fmarks, visits := RunPass(app, g, cur, i, calls, groups, marks, fmarks, visits);
      if raised {
        PrefixOfSchedule(g, i, n);
        return;
      }
      i := i + 1;
    }
  }

  /** One pass of the loop of `main` (apply_netscaler_state.py:1710-1717):
      the types in the order of yaml_config_resource_types, until a
      reconciler raises. `n` is the number of types visited, the last of
      them the lbvservers when the pass raised. The ghost records of the
      calls made before the pass grow by those of the pass, each call built
      from the type dispatched, as Visits says. */
  method RunPass(app: Appliance, ghost g: NsGroup, cur: NsGroup, i: nat, ghost calls0: seq<Call>,
                 ghost groups0: seq<NsGroup>, ghost marks0: seq<seq<Op>>, ghost fmarks0: seq<nat>, ghost visits0: seq<Visit>)
    returns (raised: bool, cur': NsGroup, n: nat, ghost calls: seq<Call>, ghost groups: seq<NsGroup>,
             ghost marks: seq<seq<Op>>, ghost fmarks: seq<nat>, ghost visits: seq<Visit>)
    requires app.Valid() && SameShape(g, cur)
    requires Visits(app, calls0, groups0, marks0, fmarks0, visits0, false)
    requires groups0[|calls0|] == cur && marks0[|calls0|] == app.trace && fmarks0[|calls0|] == app.fetches
    modifies app
    ensures app.Valid() && SameShape(g, cur')
    ensures n <= |YamlConfigResourceTypes|
    ensures !raised ==> n == |YamlConfigResourceTypes|
    ensures raised ==> 0 < n && YamlConfigResourceTypes[n - 1] == LbvserversSection
    ensures calls == calls0 + PassCalls(g, i, n)
    ensures Visits(app, calls, groups, marks, fmarks, visits, raised)
    ensures groups[0] == groups0[0] && marks[0] == marks0[0] && fmarks[0] == fmarks0[0]
    ensures groups[|calls|] == cur' && marks[|calls|] == app.trace && fmarks[|calls|] == app.fetches
  {
    raised, cur', n := false, cur, 0;
    calls, groups, marks, fmarks, visits := calls0, groups0, marks0, fmarks0, visits0;
    while n < |YamlConfigResourceTypes|
      invariant n <= |YamlConfigResourceTypes| && app.Valid() && SameShape(g, cur')
      invariant calls == calls0 + PassCalls(g, i, n)
      invariant Visits(app, calls, groups, marks, fmarks, visits, false)
      invariant groups[0] == groups0[0] && marks[0] == marks0[0] && fmarks[0] == fmarks0[0]
      invariant groups[|calls|] == cur' && marks[|calls|] == app.trace && fmarks[|calls|] == app.fetches
    {
      raised, cur', calls, groups, marks, fmarks, visits := PassStep(app, g, cur', i, n, calls, groups, marks, fmarks, visits);
      PassCallsNext(g, i, n);
      n := n + 1;
      if raised {
        return;
      }
    }
  }

  /** Type number `n` of pass `i`: its reconciler on the group `cur`, and
      the call, built from the type dispatched, and what it did added to
      the records. */
  method PassStep(app: Appliance, ghost g: NsGroup, cur: NsGroup, i: nat, n: nat, ghost calls: seq<Call>,
                  ghost groups: seq<NsGroup>, ghost marks: seq<seq<Op>>, ghost fmarks: seq<nat>, ghost visits: seq<Visit>)
    returns (raised: bool, cur': NsGroup, ghost calls': seq<Call>, ghost groups': seq<NsGroup>,
             ghost marks': seq<seq<Op>>, ghost fmarks': seq<nat>, ghost visits': seq<Visit>)
    requires n < |YamlConfigResourceTypes| && app.Valid() && SameShape(g, cur)
    requires Visits(app, calls, groups, marks, fmarks, visits, false)
    requires groups[|calls|] == cur && marks[|calls|] == app.trace && fmarks[|calls|] == app.fetches
    modifies app
    ensures app.Valid() && SameShape(g, cur') && (raised ==> YamlConfigResourceTypes[n] == LbvserversSection)
    ensures calls' == calls + [CallAt(g, i, n)]
    ensures Visits(app, calls', groups', marks', fmarks', visits', raised)
    ensures groups'[0] == groups[0] && marks'[0] == marks[0] && fmarks'[0] == fmarks[0]
    ensures groups'[|calls'|] == cur' && marks'[|calls'|] == app.trace && fmarks'[|calls'|] == app.fetches
  {
    var t := YamlConfigResourceTypes[n];
    ghost var c := Call(i, t, Present(cur, t));
    ghost var v;
    raised, cur', v := Dispatch(app, cur, t);
    VisitsExtend(app, calls, groups, marks, fmarks, visits, c, cur', app.trace, app.fetches, v, raised);
    calls', groups', marks', fmarks', visits' := calls + [c], groups + [cur'], marks + [app.trace], fmarks + [app.fetches], visits + [v];
  }

  /** Pass `i` over one more type adds the call of that type. */
  lemma PassCallsNext(g: NsGroup, i: nat, n: nat)
    requires n < |YamlConfigResourceTypes|
    ensures PassCalls(g, i, n + 1) == PassCalls(g, i, n) + [CallAt(g, i, n)]
  {
    assert PassCalls(g, i, n + 1)[..n] == PassCalls(g, i, n);
  }

  /** The calls up to type `n` of pass `i` start the schedule of a
      connected group. */
  lemma PrefixOfSchedule(g: NsGroup, i: nat, n: nat)
    requires i < Passes && n <= |YamlConfigResourceTypes|
    ensures PassesCalls(g, i) + PassCalls(g, i, n) <= PassesCalls(g, Passes)
  {
    PassesGrow(g, i + 1, Passes);
    var front, part, pass := PassesCalls(g, i), PassCalls(g, i, n), PassCalls(g, i, |YamlConfigResourceTypes|);
    assert front + part <= front + pass;
  }

  /** The loop of `main` over the groups (apply_netscaler_state.py:1688-1720):
      group j is reconciled on appliance `apps[j]` when `connected[j]` (two
      groups may name the same instance), one group after the other; a
      raise ends the loop. `runs[j]` and `spans[j]` record what was done
      for group j, as GroupsRan says, and an appliance no run used sees no
      call. */
  method ReconcileGroups(apps: seq<Appliance>, groups: seq<NsGroup>, connected: seq<bool>)
    returns (raised: bool, ghost runs: seq<GroupRun>, ghost spans: seq<Span>)
    requires |apps| == |groups| == |connected|
    requires forall j :: 0 <= j < |apps| ==> apps[j].Valid()
    modifies set j | 0 <= j < |apps| :: apps[j]
    ensures |runs| == |spans| <= |groups| && (!raised ==> |runs| == |groups|) && (raised ==> |runs| > 0)
    ensures GroupsRan(apps, groups, connected, runs, spans, old(TracesOf(apps)), old(FetchesOf(apps)), raised)
    ensures forall a :: a in apps && (forall j :: 0 <= j < |runs| ==> apps[j] != a) ==>
              a.trace == old(a.trace) && a.fetches == old(a.fetches)
  {
    ghost var t0s, f0s := TracesOf(apps), FetchesOf(apps);
    raised, runs, spans := false, [], [];
    var k := 0;
    while k < |groups| && !raised
      invariant k == |runs| == |spans| <= |groups| && (raised ==> k > 0)
      invariant GroupsRan(apps, groups, connected, runs, spans, t0s, f0s, raised)
    {
      raised, runs, spans := GroupStep(apps, groups, connected, k, runs, spans, t0s, f0s);
      k := k + 1;
    }
    forall a | a in apps && (forall j :: 0 <= j < |runs| ==> apps[j] != a)
      ensures a.trace == old(a.trace) && a.fetches == old(a.fetches)
    {
      UnusedUntouched(apps, spans, TracesOf(apps), FetchesOf(apps), t0s, f0s, a);
      var i :| 0 <= i < |apps| && apps[i] == a;
    }
  }

  /** Group j of `runs` was reconciled over `spans[j]` as `runs[j]` says,
      only the last of them raising, and it did when `raised`; GroupRunsAt
      states it for one j. */
  ghost predicate GroupRunsRan(apps: seq<Appliance>, groups: seq<NsGroup>, connected: seq<bool>, runs: seq<GroupRun>,
                               spans: seq<Span>, raised: bool)
    decreases |runs|
  {
    && |runs| == |spans| <= |apps| == |groups| == |connected|
    && (|runs| > 0 ==>
          var k := |runs| - 1;
          && GroupRunsRan(apps, groups, connected, runs[..k], spans[..k], false)
          && GroupRan(apps[k], groups[k], connected[k], runs[k], spans[k], raised))
  }

  /** Group j of the record ran as `runs[j]` says; only the last may have
      raised. */
  lemma {:induction false} GroupRunsAt(apps: seq<Appliance>, groups: seq<NsGroup>, connected: seq<bool>,
                                       runs: seq<GroupRun>, spans: seq<Span>, raised: bool, j: nat)
    requires GroupRunsRan(apps, groups, connected, runs, spans, raised) && j < |runs|
    ensures GroupRan(apps[j], groups[j], connected[j], runs[j], spans[j], raised && j == |runs| - 1)
    decreases |runs|
  {
    var k := |runs| - 1;
    if j < k {
      GroupRunsAt(apps, groups, connected, runs[..k], spans[..k], false, j);
      assert runs[..k][j] == runs[j] && spans[..k][j] == spans[j];
    }
  }

  /** One more group run, after runs none of which raised, extends the
      record of what the groups did. */
  lemma GroupRunsExtend(apps: seq<Appliance>, groups: seq<NsGroup>, connected: seq<bool>, runs: seq<GroupRun>,
                        spans: seq<Span>, r: GroupRun, s: Span, raised: bool)
    requires |runs| < |apps| && GroupRunsRan(apps, groups, connected, runs, spans, false)
    requires GroupRan(apps[|runs|], groups[|runs|], connected[|runs|], r, s, raised)
    ensures GroupRunsRan(apps, groups, connected, runs + [r], spans + [s], raised)
  {
    var runs', spans' := runs + [r], spans + [s];
    assert runs'[..|runs|] == runs && spans'[..|spans|] == spans;
    assert runs'[|runs|] == r && spans'[|runs|] == s;
  }

  /** The loop has reconciled the groups of `runs` from the traces `t0s`
      and fetch counts `f0s`: every appliance is valid, each group ran as
      its record says, starting where the last earlier group on its
      appliance ended, and each appliance ends where the last group on it
      ended. */
  ghost predicate GroupsRan(apps: seq<Appliance>, groups: seq<NsGroup>, connected: seq<bool>, runs: seq<GroupRun>,
                            spans: seq<Span>, t0s: seq<seq<Op>>, f0s: seq<nat>, raised: bool)
    reads apps
  {
    && (forall j :: 0 <= j < |apps| ==> apps[j].Valid())
    && GroupRunsRan(apps, groups, connected, runs, spans, raised)
    && SpansChained(apps, spans, t0s, f0s)
    && EndsAsSpans(apps, spans, TracesOf(apps), FetchesOf(apps), t0s, f0s)
  }

  /** Group `k` of the loop, on its own appliance. */
  method GroupStep(apps: seq<Appliance>, groups: seq<NsGroup>, connected: seq<bool>, k: nat,
                   ghost runs: seq<GroupRun>, ghost spans: seq<Span>, ghost t0s: seq<seq<Op>>, ghost f0s: seq<nat>)
    returns (raised: bool, ghost runs': seq<GroupRun>, ghost spans': seq<Span>)
    requires k == |runs| < |apps| && GroupsRan(apps, groups, connected, runs, spans, t0s, f0s, false)
    modifies apps[k]
    ensures |runs'| == |spans'| == k + 1 && GroupsRan(apps, groups, connected, runs', spans', t0s, f0s, raised)
  {
    ghost var traces, fetches := TracesOf(apps), FetchesOf(apps);
    ghost var r, s;
    raised, r, s := ProcessGroup(apps[k], groups[k], connected[k]);
    GroupRunsExtend(apps, groups, connected, runs, spans, r, s, raised);
    SpansExtend(apps, spans, t0s, f0s, traces, fetches, TracesOf(apps), FetchesOf(apps), s);
    runs', spans' := runs + [r], spans + [s];
  }
}
