/** The appliance as the engine sees it: per-type maps from name to record,
    per-parent binding lists, and the list of mutating calls made so far.
    Every NSNitroError a mutating call can raise comes from an oracle
    indexed by the call's position in that list. */
module ApplianceModel {
  import opened Wrappers
  import opened NitroTypes

  /** The appliance configuration. A binding map has no entry for a parent
      without bindings. */
  datatype State = State(
    servers: map<string, Server>,
    serviceGroups: map<string, ServiceGroup>,
    members: map<string, seq<Member>>,
    lbvservers: map<string, Vserver>,
    csvservers: map<string, Vserver>,
    lbBindings: map<string, seq<string>>,
    defaultLbvserver: map<string, string>,
    policyBindings: map<string, seq<PolicyBinding>>,
    csActions: map<string, CsAction>,
    csPolicies: map<string, CsPolicy>)

  /** Every object of `m` is stored under its own name. */
  ghost predicate KeyedBy<R>(m: map<string, R>, key: R -> string) {
    forall n :: n in m ==> key(m[n]) == n
  }

  ghost predicate WellKeyed(s: State) {
    && KeyedBy(s.servers, ServerName)
    && KeyedBy(s.serviceGroups, ServiceGroupName)
    && KeyedBy(s.lbvservers, VserverName)
    && KeyedBy(s.csvservers, VserverName)
    && KeyedBy(s.csActions, CsActionName)
    && KeyedBy(s.csPolicies, CsPolicyName)
  }

  predicate IsVserverKind(k: Kind) {
    k == LbvserverKind || k == CsvserverKind
  }

  function Get<R>(m: map<string, R>, name: string): (r: Option<R>)
    ensures r.Some? <==> name in m
    ensures r.Some? ==> r.value == m[name]
  {
    if name in m then Some(m[name]) else None
  }

  function Vservers(s: State, k: Kind): map<string, Vserver> {
    if k == CsvserverKind then s.csvservers else s.lbvservers
  }

  function MembersOf(s: State, group: string): seq<Member> {
    if group in s.members then s.members[group] else []
  }

  function LbBindingsOf(s: State, lb: string): seq<string> {
    if lb in s.lbBindings then s.lbBindings[lb] else []
  }

  function PolicyBindingsOf(s: State, cs: string): seq<PolicyBinding> {
    if cs in s.policyBindings then s.policyBindings[cs] else []
  }

  /** A binding list after adding `x`: the appliance holds a binding once. */
  function AppendNew<T(==)>(xs: seq<T>, x: T): seq<T> {
    if x in xs then xs else xs + [x]
  }

  /** A binding list after removing the binding `x`. */
  function Without<T(==)>(xs: seq<T>, x: T): seq<T>
    decreases |xs|
  {
    if xs == [] then [] else (if xs[0] == x then [] else [xs[0]]) + Without(xs[1..], x)
  }

  /** A policy binding list after unbinding the policy named `name`. */
  function WithoutPolicy(xs: seq<PolicyBinding>, name: string): seq<PolicyBinding>
    decreases |xs|
  {
    if xs == [] then []
    else (if xs[0].policyname == name then [] else [xs[0]]) + WithoutPolicy(xs[1..], name)
  }

  /** A member list after NSServiceGroupServerBinding.update: the member of
      that server now uses the given port. */
  function Reported(xs: seq<Member>, m: Member): seq<Member>
    decreases |xs|
  {
    if xs == [] then []
    else [if xs[0].servername == m.servername then m else xs[0]] + Reported(xs[1..], m)
  }

  lemma {:induction false} WithoutContents<T>(xs: seq<T>, x: T)
    ensures forall y :: y in Without(xs, x) <==> y in xs && y != x
    decreases |xs|
  {
    if xs != [] {
      WithoutContents(xs[1..], x);
      assert xs == [xs[0]] + xs[1..];
    }
  }

  lemma {:induction false} WithoutPolicyContents(xs: seq<PolicyBinding>, name: string)
    ensures forall y :: y in WithoutPolicy(xs, name) <==> y in xs && y.policyname != name
    decreases |xs|
  {
    if xs != [] {
      WithoutPolicyContents(xs[1..], name);
      assert xs == [xs[0]] + xs[1..];
    }
  }

  /** The entry of `m` moved from `from` to `to`, as a rename carries an
      object's own bindings along. */
  function MoveKey<R>(m: map<string, R>, from: string, to: string): map<string, R> {
    if from in m then (m - {from})[to := m[from]] else m - {to}
  }

  /** Deleting an object drops the bindings it owns. */
  function DeleteObject(s: State, k: Kind, n: string): State {
    match k
    case ServerKind => s.(servers := s.servers - {n})
    case ServiceGroupKind => s.(serviceGroups := s.serviceGroups - {n}, members := s.members - {n})
    case LbvserverKind => s.(lbvservers := s.lbvservers - {n}, lbBindings := s.lbBindings - {n})
    case CsvserverKind =>
      s.(csvservers := s.csvservers - {n}, defaultLbvserver := s.defaultLbvserver - {n},
         policyBindings := s.policyBindings - {n})
    case CsActionKind => s.(csActions := s.csActions - {n})
    case CsPolicyKind => s.(csPolicies := s.csPolicies - {n})
  }

  function AddVserverTo(s: State, k: Kind, v: Vserver): State {
    if k == LbvserverKind then s.(lbvservers := s.lbvservers[v.name := v])
    else if k == CsvserverKind then s.(csvservers := s.csvservers[v.name := v])
    else s
  }

  function RenameVserverIn(s: State, k: Kind, o: string, n: string): State {
    if k == LbvserverKind && o in s.lbvservers then
      s.(lbvservers := (s.lbvservers - {o})[n := s.lbvservers[o].(name := n)],
         lbBindings := MoveKey(s.lbBindings, o, n))
    else if k == CsvserverKind && o in s.csvservers then
      s.(csvservers := (s.csvservers - {o})[n := s.csvservers[o].(name := n)],
         defaultLbvserver := MoveKey(s.defaultLbvserver, o, n),
         policyBindings := MoveKey(s.policyBindings, o, n))
    else s
  }

  /** The effect of a mutating call the appliance accepted. */
  function Apply(s: State, op: Op): State {
    match op
    case Delete(k, n) => DeleteObject(s, k, n)
    case AddServer(v) => s.(servers := s.servers[v.name := v])
    case UpdateServer(v) => if v.name in s.servers then s.(servers := s.servers[v.name := v]) else s
    case RenameServer(o, n) =>
      if o in s.servers then s.(servers := (s.servers - {o})[n := s.servers[o].(name := n)]) else s
    case AddServiceGroup(g) => s.(serviceGroups := s.serviceGroups[g.name := g])
    case AddMember(g, m) =>
      if g in s.serviceGroups then s.(members := s.members[g := AppendNew(MembersOf(s, g), m)]) else s
    case UpdateMember(g, m) =>
      if g in s.members then s.(members := s.members[g := Reported(s.members[g], m)]) else s
    case DeleteMember(g, m) =>
      if g in s.members then s.(members := s.members[g := Without(s.members[g], m)]) else s
    case AddVserver(k, v) => AddVserverTo(s, k, v)
    case UpdateVserver(k, v) => if v.name in Vservers(s, k) then AddVserverTo(s, k, v) else s
    case RenameVserver(k, o, n) => RenameVserverIn(s, k, o, n)
    case BindServiceGroup(lb, g) =>
      if lb in s.lbvservers then s.(lbBindings := s.lbBindings[lb := AppendNew(LbBindingsOf(s, lb), g)]) else s
    case UnbindServiceGroup(lb, g) =>
      if lb in s.lbBindings then s.(lbBindings := s.lbBindings[lb := Without(s.lbBindings[lb], g)])
      else s
    case AddDefaultLbvserver(cs, lb) =>
      if cs in s.csvservers then s.(defaultLbvserver := s.defaultLbvserver[cs := lb]) else s
    case UpdateDefaultLbvserver(cs, lb) =>
      if cs in s.defaultLbvserver then s.(defaultLbvserver := s.defaultLbvserver[cs := lb]) else s
    case DeleteDefaultLbvserver(cs) => s.(defaultLbvserver := s.defaultLbvserver - {cs})
    case BindPolicy(cs, b) =>
      if cs in s.csvservers then s.(policyBindings := s.policyBindings[cs := AppendNew(PolicyBindingsOf(s, cs), b)])
      else s
    case UnbindPolicy(cs, b) =>
      if cs in s.policyBindings then
        s.(policyBindings := s.policyBindings[cs := WithoutPolicy(s.policyBindings[cs], b.policyname)])
      else s
    case AddCsAction(a) => s.(csActions := s.csActions[a.name := a])
    case UpdateCsAction(a) => if a.name in s.csActions then s.(csActions := s.csActions[a.name := a]) else s
    case AddCsPolicy(n, rule, action) =>
      s.(csPolicies := s.csPolicies[n := CsPolicy(n, rule, Some(action), AdvancedPolicy)])
    case UpdateCsPolicy(n, rule, action) =>
      if n in s.csPolicies then s.(csPolicies := s.csPolicies[n := s.csPolicies[n].(rule := rule, action := Some(action))])
      else s
  }

  lemma KeyedByStore<R>(m: map<string, R>, key: R -> string, n: string, x: R)
    requires KeyedBy(m, key) && key(x) == n
    ensures KeyedBy(m[n := x], key) && KeyedBy(m - {n}, key)
  {
  }

  lemma AddServerKeepsWellKeyed(s: State, v: Server)
    requires WellKeyed(s)
    ensures WellKeyed(Apply(s, AddServer(v)))
  {
    KeyedByStore(s.servers, ServerName, v.name, v);
  }

  lemma UpdateServerKeepsWellKeyed(s: State, v: Server)
    requires WellKeyed(s)
    ensures WellKeyed(Apply(s, UpdateServer(v)))
  {
    if v.name in s.servers {
      KeyedByStore(s.servers, ServerName, v.name, v);
    }
  }

  lemma RenameServerKeepsWellKeyed(s: State, o: string, n: string)
    requires WellKeyed(s)
    ensures WellKeyed(Apply(s, RenameServer(o, n)))
  {
    if o in s.servers {
      KeyedByStore(s.servers, ServerName, o, s.servers[o]);
      KeyedByStore(s.servers - {o}, ServerName, n, s.servers[o].(name := n));
    }
  }

  lemma AddServiceGroupKeepsWellKeyed(s: State, g: ServiceGroup)
    requires WellKeyed(s)
    ensures WellKeyed(Apply(s, AddServiceGroup(g)))
  {
    KeyedByStore(s.serviceGroups, ServiceGroupName, g.name, g);
  }

  lemma AddVserverKeepsWellKeyed(s: State, k: Kind, v: Vserver)
    requires WellKeyed(s)
    ensures WellKeyed(Apply(s, AddVserver(k, v)))
  {
    KeyedByStore(s.lbvservers, VserverName, v.name, v);
    KeyedByStore(s.csvservers, VserverName, v.name, v);
  }

  lemma UpdateVserverKeepsWellKeyed(s: State, k: Kind, v: Vserver)
    requires WellKeyed(s)
    ensures WellKeyed(Apply(s, UpdateVserver(k, v)))
  {
    if v.name in Vservers(s, k) {
      AddVserverKeepsWellKeyed(s, k, v);
      assert Apply(s, UpdateVserver(k, v)) == Apply(s, AddVserver(k, v));
    }
  }

  lemma RenameVserverKeepsWellKeyed(s: State, k: Kind, o: string, n: string)
    requires WellKeyed(s)
    ensures WellKeyed(Apply(s, RenameVserver(k, o, n)))
  {
    if k == LbvserverKind && o in s.lbvservers {
      KeyedByStore(s.lbvservers, VserverName, o, s.lbvservers[o]);
      KeyedByStore(s.lbvservers - {o}, VserverName, n, s.lbvservers[o].(name := n));
    } else if k == CsvserverKind && o in s.csvservers {
      KeyedByStore(s.csvservers, VserverName, o, s.csvservers[o]);
      KeyedByStore(s.csvservers - {o}, VserverName, n, s.csvservers[o].(name := n));
    }
  }

  lemma AddCsActionKeepsWellKeyed(s: State, a: CsAction)
    requires WellKeyed(s)
    ensures WellKeyed(Apply(s, AddCsAction(a)))
  {
    KeyedByStore(s.csActions, CsActionName, a.name, a);
  }

  lemma UpdateCsActionKeepsWellKeyed(s: State, a: CsAction)
    requires WellKeyed(s)
    ensures WellKeyed(Apply(s, UpdateCsAction(a)))
  {
    if a.name in s.csActions {
      KeyedByStore(s.csActions, CsActionName, a.name, a);
    }
  }

  lemma AddCsPolicyKeepsWellKeyed(s: State, n: string, rule: string, action: string)
    requires WellKeyed(s)
    ensures WellKeyed(Apply(s, AddCsPolicy(n, rule, action)))
  {
    KeyedByStore(s.csPolicies, CsPolicyName, n, CsPolicy(n, rule, Some(action), AdvancedPolicy));
  }

  lemma UpdateCsPolicyKeepsWellKeyed(s: State, n: string, rule: string, action: string)
    requires WellKeyed(s)
    ensures WellKeyed(Apply(s, UpdateCsPolicy(n, rule, action)))
  {
    if n in s.csPolicies {
      KeyedByStore(s.csPolicies, CsPolicyName, n, s.csPolicies[n].(rule := rule, action := Some(action)));
    }
  }

  lemma DeleteKeepsWellKeyed(s: State, k: Kind, n: string)
    requires WellKeyed(s)
    ensures WellKeyed(Apply(s, Delete(k, n)))
  {
  }

  /** Binding calls leave every object alone. */
  lemma AddMemberKeepsObjects(s: State, op: Op)
    requires op.AddMember?
    ensures Apply(s, op).servers == s.servers && Apply(s, op).serviceGroups == s.serviceGroups
    ensures Apply(s, op).lbvservers == s.lbvservers && Apply(s, op).csvservers == s.csvservers
    ensures Apply(s, op).csActions == s.csActions && Apply(s, op).csPolicies == s.csPolicies
  {
  }

  lemma UpdateMemberKeepsObjects(s: State, op: Op)
    requires op.UpdateMember?
    ensures Apply(s, op).servers == s.servers && Apply(s, op).serviceGroups == s.serviceGroups
    ensures Apply(s, op).lbvservers == s.lbvservers && Apply(s, op).csvservers == s.csvservers
    ensures Apply(s, op).csActions == s.csActions && Apply(s, op).csPolicies == s.csPolicies
  {
  }

  lemma DeleteMemberKeepsObjects(s: State, op: Op)
    requires op.DeleteMember?
    ensures Apply(s, op).servers == s.servers && Apply(s, op).serviceGroups == s.serviceGroups
    ensures Apply(s, op).lbvservers == s.lbvservers && Apply(s, op).csvservers == s.csvservers
    ensures Apply(s, op).csActions == s.csActions && Apply(s, op).csPolicies == s.csPolicies
  {
  }

  lemma LbBindingOpKeepsObjects(s: State, op: Op)
    requires op.BindServiceGroup? || op.UnbindServiceGroup?
    ensures Apply(s, op).servers == s.servers && Apply(s, op).serviceGroups == s.serviceGroups
    ensures Apply(s, op).lbvservers == s.lbvservers && Apply(s, op).csvservers == s.csvservers
    ensures Apply(s, op).csActions == s.csActions && Apply(s, op).csPolicies == s.csPolicies
  {
  }

  lemma DefaultEdgeOpKeepsObjects(s: State, op: Op)
    requires op.AddDefaultLbvserver? || op.UpdateDefaultLbvserver? || op.DeleteDefaultLbvserver?
    ensures Apply(s, op).servers == s.servers && Apply(s, op).serviceGroups == s.serviceGroups
    ensures Apply(s, op).lbvservers == s.lbvservers && Apply(s, op).csvservers == s.csvservers
    ensures Apply(s, op).csActions == s.csActions && Apply(s, op).csPolicies == s.csPolicies
  {
  }

  lemma PolicyBindingOpKeepsObjects(s: State, op: Op)
    requires op.BindPolicy? || op.UnbindPolicy?
    ensures Apply(s, op).servers == s.servers && Apply(s, op).serviceGroups == s.serviceGroups
    ensures Apply(s, op).lbvservers == s.lbvservers && Apply(s, op).csvservers == s.csvservers
    ensures Apply(s, op).csActions == s.csActions && Apply(s, op).csPolicies == s.csPolicies
  {
  }

  /** An accepted call keeps every object under its own name. */
  lemma ApplyKeepsWellKeyed(s: State, op: Op)
    requires WellKeyed(s)
    ensures WellKeyed(Apply(s, op))
  {
    match op
    case Delete(k, n) => DeleteKeepsWellKeyed(s, k, n);
    case AddServer(v) => AddServerKeepsWellKeyed(s, v);
    case UpdateServer(v) => UpdateServerKeepsWellKeyed(s, v);
    case RenameServer(o, n) => RenameServerKeepsWellKeyed(s, o, n);
    case AddServiceGroup(g) => AddServiceGroupKeepsWellKeyed(s, g);
    case AddVserver(k, v) => AddVserverKeepsWellKeyed(s, k, v);
    case UpdateVserver(k, v) => UpdateVserverKeepsWellKeyed(s, k, v);
    case RenameVserver(k, o, n) => RenameVserverKeepsWellKeyed(s, k, o, n);
    case AddCsAction(a) => AddCsActionKeepsWellKeyed(s, a);
    case UpdateCsAction(a) => UpdateCsActionKeepsWellKeyed(s, a);
    case AddCsPolicy(n, rule, action) => AddCsPolicyKeepsWellKeyed(s, n, rule, action);
    case UpdateCsPolicy(n, rule, action) => UpdateCsPolicyKeepsWellKeyed(s, n, rule, action);
    case AddMember(_, _) => AddMemberKeepsObjects(s, op);
    case UpdateMember(_, _) => UpdateMemberKeepsObjects(s, op);
    case DeleteMember(_, _) => DeleteMemberKeepsObjects(s, op);
    case BindServiceGroup(_, _) => LbBindingOpKeepsObjects(s, op);
    case UnbindServiceGroup(_, _) => LbBindingOpKeepsObjects(s, op);
    case AddDefaultLbvserver(_, _) => DefaultEdgeOpKeepsObjects(s, op);
    case UpdateDefaultLbvserver(_, _) => DefaultEdgeOpKeepsObjects(s, op);
    case DeleteDefaultLbvserver(_) => DefaultEdgeOpKeepsObjects(s, op);
    case BindPolicy(_, _) => PolicyBindingOpKeepsObjects(s, op);
    case UnbindPolicy(_, _) => PolicyBindingOpKeepsObjects(s, op);
  }

  /** The configuration after the calls `t`, the call at position i taking
      effect unless i is in `fails`. */
  function Replay(s0: State, t: seq<Op>, fails: set<nat>): State
    decreases |t|
  {
    if t == [] then s0
    else
      var before := Replay(s0, t[..|t| - 1], fails);
      if |t| - 1 in fails then before else Apply(before, t[|t| - 1])
  }

  /** The configuration after `ops` when every one of them is accepted. */
  function ApplyAll(s: State, ops: seq<Op>): State
    decreases |ops|
  {
    if ops == [] then s else ApplyAll(Apply(s, ops[0]), ops[1..])
  }

  /** The lemma that ties the two views of a run: calls that are all accepted
      have the effect of applying them in order. */
  lemma {:induction false} ApplyAllSnoc(s: State, ops: seq<Op>, op: Op)
    ensures ApplyAll(s, ops + [op]) == Apply(ApplyAll(s, ops), op)
    decreases |ops|
  {
    if ops == [] {
      assert ops + [op] == [op];
    } else {
      assert (ops + [op])[1..] == ops[1..] + [op];
      ApplyAllSnoc(Apply(s, ops[0]), ops[1..], op);
    }
  }

  lemma {:induction false} ApplyAllConcat(s: State, ops: seq<Op>, more: seq<Op>)
    ensures ApplyAll(s, ops + more) == ApplyAll(ApplyAll(s, ops), more)
    decreases |ops|
  {
    if ops == [] {
      assert ops + more == more;
    } else {
      assert (ops + more)[1..] == ops[1..] + more;
      ApplyAllConcat(Apply(s, ops[0]), ops[1..], more);
    }
  }

  lemma ApplyAllOne(s: State, a: Op)
    ensures ApplyAll(s, [a]) == Apply(s, a)
  {
    assert [a][1..] == [];
  }

  lemma ApplyAllTwo(s: State, a: Op, b: Op)
    ensures ApplyAll(s, [a, b]) == Apply(Apply(s, a), b)
  {
    assert [a, b][1..] == [b];
    ApplyAllOne(Apply(s, a), b);
  }

  /** Calls made in two stretches are the calls of both, in order. */
  lemma TraceAppend(t0: seq<Op>, t1: seq<Op>, t2: seq<Op>, a: seq<Op>, b: seq<Op>)
    requires t1 == t0 + a && t2 == t1 + b
    ensures t2 == t0 + (a + b)
  {
    assert t0 + a + b == t0 + (a + b);
  }

  lemma {:induction false} ReplayAccepted(s0: State, t: seq<Op>, ops: seq<Op>, fails: set<nat>)
    requires forall i :: |t| <= i < |t| + |ops| ==> i !in fails
    ensures Replay(s0, t + ops, fails) == ApplyAll(Replay(s0, t, fails), ops)
    decreases |ops|
  {
    if ops == [] {
      assert t + ops == t;
    } else {
      var front := ops[..|ops| - 1];
      assert (t + ops)[..|t + ops| - 1] == t + front;
      ReplayAccepted(s0, t, front, fails);
      assert front + [ops[|ops| - 1]] == ops;
      ApplyAllSnoc(Replay(s0, t, fails), front, ops[|ops| - 1]);
    }
  }

  /** The calls of several reconciler runs, one after the other. */
  function Flatten(pss: seq<seq<Op>>): seq<Op>
    decreases |pss|
  {
    if pss == [] then [] else Flatten(pss[..|pss| - 1]) + pss[|pss| - 1]
  }

  /** The names of the objects of one type. */
  function ObjectNames(s: State, k: Kind): set<string> {
    match k
    case ServerKind => s.servers.Keys
    case ServiceGroupKind => s.serviceGroups.Keys
    case LbvserverKind => s.lbvservers.Keys
    case CsvserverKind => s.csvservers.Keys
    case CsActionKind => s.csActions.Keys
    case CsPolicyKind => s.csPolicies.Keys
  }

  /** `names` lists the set `ns`, each name once. */
  ghost predicate NameListing(ns: set<string>, names: seq<string>) {
    && (forall i :: 0 <= i < |names| ==> names[i] in ns)
    && (forall n :: n in ns ==> n in names)
    && (forall i, j :: 0 <= i < j < |names| ==> names[i] != names[j])
  }

  /** `all` is one listing of the objects of `m`: every object once, in some
      order the appliance chooses. */
  ghost predicate Lists<R>(m: map<string, R>, all: seq<R>, key: R -> string) {
    && (forall i :: 0 <= i < |all| ==> key(all[i]) in m && m[key(all[i])] == all[i])
    && (forall k :: k in m ==> exists i :: 0 <= i < |all| && key(all[i]) == k)
    && (forall i, j :: 0 <= i < j < |all| ==> key(all[i]) != key(all[j]))
  }

  /** Lists the objects of `m` in an arbitrary order. */
  method Enumerate<R>(m: map<string, R>, ghost key: R -> string) returns (all: seq<R>)
    requires forall k :: k in m ==> key(m[k]) == k
    ensures Lists(m, all, key)
  {
    var rest := m.Keys;
    all := [];
    while rest != {}
      invariant rest <= m.Keys
      invariant forall i :: 0 <= i < |all| ==> key(all[i]) in m && m[key(all[i])] == all[i] && key(all[i]) !in rest
      invariant forall k :: k in m && k !in rest ==> exists i :: 0 <= i < |all| && key(all[i]) == k
      invariant forall i, j :: 0 <= i < j < |all| ==> key(all[i]) != key(all[j])
      decreases rest
    {
      var k :| k in rest;
      var before := all;
      all := all + [m[k]];
      assert key(all[|all| - 1]) == k;
      forall k' | k' in m && k' !in rest - {k}
        ensures exists i :: 0 <= i < |all| && key(all[i]) == k'
      {
        if k' != k {
          var i :| 0 <= i < |before| && key(before[i]) == k';
          assert all[i] == before[i];
        }
      }
      rest := rest - {k};
    }
  }

  /** The appliance reached through one NSNitro session. */
  class Appliance {
    /** The configuration the appliance holds now. */
    var config: State

    /** Every mutating call made, in order, accepted or not. */
    var trace: seq<Op>
    /** How many fallible reads have been made. */
    var fetches: nat

    ghost const init: State
    /** The positions of the mutating calls that raise NSNitroError. */
    const fails: set<nat>
    /** The numbers of the fallible reads that raise NSNitroError. */
    const fetchFails: set<nat>

    /** The configuration is the initial one with the accepted calls applied. */
    ghost predicate Valid()
      reads this
    {
      WellKeyed(config) && config == Replay(init, trace, fails)
    }

    /** The configuration once the calls `t` have been made. */
    ghost function At(t: seq<Op>): State {
      Replay(init, t, fails)
    }

    /** Whether every mutating call at positions from..to-1 was accepted. */
    ghost predicate AllAccepted(from: nat, to: nat) {
      forall i :: from <= i < to ==> i !in fails
    }

    lemma AcceptedSnoc(from: nat, to: nat)
      requires from <= to
      ensures AllAccepted(from, to + 1) <==> AllAccepted(from, to) && to !in fails
    {
    }

    lemma AcceptedSplit(a: nat, b: nat, c: nat)
      requires a <= b <= c
      ensures AllAccepted(a, c) <==> AllAccepted(a, b) && AllAccepted(b, c)
    {
    }

    constructor (s0: State, fails: set<nat>, fetchFails: set<nat>)
      requires WellKeyed(s0)
      ensures Valid() && config == s0 && trace == [] && fetches == 0
      ensures this.fails == fails && this.fetchFails == fetchFails
    {
      config := s0;
      trace, fetches := [], 0;
      init := s0;
      this.fails, this.fetchFails := fails, fetchFails;
    }

    /** One mutating call: recorded, and applied unless it raises. */
    method Invoke(op: Op) returns (ok: bool)
      requires Valid()
      modifies this
      ensures Valid() && trace == old(trace) + [op] && fetches == old(fetches)
      ensures ok == (|old(trace)| !in fails)
      ensures config == if ok then Apply(old(config), op) else old(config)
    {
      ok := |trace| !in fails;
      assert (trace + [op])[..|trace|] == trace;
      if ok {
        ApplyKeepsWellKeyed(config, op);
        config := Apply(config, op);
      }
      trace := trace + [op];
    }

    /** Since trace `t0` the calls `ops` were made, and `ok` says whether
        every one of them was accepted. */
    ghost predicate Made(t0: seq<Op>, ops: seq<Op>, ok: bool)
      reads this
    {
      |t0| <= |trace| && trace == t0 + ops && ok == AllAccepted(|t0|, |trace|)
    }

    /** A mutating call within a run of calls begun at `t0` whose result is
        the conjunction of the calls' results, as every reconciler loop
        keeps it. */
    method InvokeIn(ghost t0: seq<Op>, ghost ops: seq<Op>, ok0: bool, op: Op) returns (ok: bool)
      requires Valid() && Made(t0, ops, ok0)
      modifies this
      ensures Valid() && fetches == old(fetches) && Made(t0, ops + [op], ok)
    {
      var accepted := Invoke(op);
      AcceptedSnoc(|t0|, |old(trace)|);
      assert t0 + ops + [op] == t0 + (ops + [op]);
      ok := ok0 && accepted;
    }

    /** The names of all objects of one type: what each garbage collection
        reads from its get_all. */
    method ListNames(k: Kind) returns (names: seq<string>)
      ensures NameListing(ObjectNames(config, k), names)
    {
      var rest := ObjectNames(config, k);
      names := [];
      while rest != {}
        invariant rest <= ObjectNames(config, k)
        invariant forall i :: 0 <= i < |names| ==> names[i] in ObjectNames(config, k) && names[i] !in rest
        invariant forall n :: n in ObjectNames(config, k) && n !in rest ==> n in names
        invariant forall i, j :: 0 <= i < j < |names| ==> names[i] != names[j]
        decreases rest
      {
        var n :| n in rest;
        names := names + [n];
        rest := rest - {n};
      }
    }

    method ListServers() returns (all: seq<Server>)
      requires Valid()
      ensures Lists(config.servers, all, ServerName)
    {
      all := Enumerate(config.servers, ServerName);
    }

    method ListServiceGroups() returns (all: seq<ServiceGroup>)
      requires Valid()
      ensures Lists(config.serviceGroups, all, ServiceGroupName)
    {
      all := Enumerate(config.serviceGroups, ServiceGroupName);
    }

    method ListVservers(k: Kind) returns (all: seq<Vserver>)
      requires Valid() && IsVserverKind(k)
      ensures Lists(Vservers(config, k), all, VserverName)
    {
      all := Enumerate(Vservers(config, k), VserverName);
    }

    method ListCsActions() returns (all: seq<CsAction>)
      requires Valid()
      ensures Lists(config.csActions, all, CsActionName)
    {
      all := Enumerate(config.csActions, CsActionName);
    }

    /** NSCSPolicy().get_all, which may raise. */
    method ListCsPolicies() returns (all: Option<seq<CsPolicy>>)
      requires Valid()
      modifies this`fetches
      ensures fetches == old(fetches) + 1
      ensures all.None? <==> old(fetches) in fetchFails
      ensures all.Some? ==> Lists(config.csPolicies, all.value, CsPolicyName)
    {
      if fetches in fetchFails {
        all := None;
      } else {
        var listed := Enumerate(config.csPolicies, CsPolicyName);
        all := Some(listed);
      }
      fetches := fetches + 1;
    }

    /** A get by name: NSNitroError (None) exactly when there is no such object. */
    method GetServiceGroup(name: string) returns (r: Option<ServiceGroup>)
      ensures r == Get(config.serviceGroups, name)
    {
      r := Get(config.serviceGroups, name);
    }

    method GetVserver(k: Kind, name: string) returns (r: Option<Vserver>)
      ensures r == Get(Vservers(config, k), name)
    {
      r := Get(Vservers(config, k), name);
    }

    method GetCsAction(name: string) returns (r: Option<CsAction>)
      ensures r == Get(config.csActions, name)
    {
      r := Get(config.csActions, name);
    }

    method GetCsPolicy(name: string) returns (r: Option<CsPolicy>)
      ensures r == Get(config.csPolicies, name)
    {
      r := Get(config.csPolicies, name);
    }

    /** get_csvserver_lbvserver_binding: the default lbvserver edge, if any. */
    method GetDefaultLbvserver(cs: string) returns (r: Option<string>)
      ensures r == Get(config.defaultLbvserver, cs)
    {
      r := Get(config.defaultLbvserver, cs);
    }

    /** The member bindings of a service group; NSNitroError (None) when the
        read fails or there is no such group. */
    method FetchMembers(group: string) returns (r: Option<seq<Member>>)
      modifies this`fetches
      ensures fetches == old(fetches) + 1
      ensures r == if old(fetches) in fetchFails || group !in config.serviceGroups then None
                   else Some(MembersOf(config, group))
    {
      r := if fetches in fetchFails || group !in config.serviceGroups then None else Some(MembersOf(config, group));
      fetches := fetches + 1;
    }

    /** The service groups bound to an lbvserver. */
    method FetchServiceGroupBindings(lb: string) returns (r: Option<seq<string>>)
      modifies this`fetches
      ensures fetches == old(fetches) + 1
      ensures r == if old(fetches) in fetchFails || lb !in config.lbvservers then None
                   else Some(LbBindingsOf(config, lb))
    {
      r := if fetches in fetchFails || lb !in config.lbvservers then None else Some(LbBindingsOf(config, lb));
      fetches := fetches + 1;
    }

    /** The policies bound to a csvserver. */
    method FetchPolicyBindings(cs: string) returns (r: Option<seq<PolicyBinding>>)
      modifies this`fetches
      ensures fetches == old(fetches) + 1
      ensures r == if old(fetches) in fetchFails || cs !in config.csvservers then None
                   else Some(PolicyBindingsOf(config, cs))
    {
      r := if fetches in fetchFails || cs !in config.csvservers then None else Some(PolicyBindingsOf(config, cs));
      fetches := fetches + 1;
    }
  }
}
