/** Content-switching policies in apply_netscaler_state.py:
    ensure_cs_policy_state keeps an Advanced Policy of the declared name and
    brings its rule and action in line, and replaces a policy of any other
    type; ensure_cs_policies_state runs it for every entry and then deletes
    the undeclared policies, provided the listing of all policies succeeds. */
module CsPolicies {
  import opened Wrappers
  import opened NitroTypes
  import opened ApplianceModel
  import opened Collect

  /** The policy a desired entry leaves on the appliance. */
  function DesiredPolicy(c: CsPolicyConf): CsPolicy {
    CsPolicy(c.name, c.expression, Some(c.action), AdvancedPolicy)
  }

  /** The calls ensure_cs_policy_state makes once the get by name is known.
      An Advanced Policy is updated when its rule differs or its action is
      missing or differs; a policy of another type is deleted and created
      again; a missing one is created. */
  function CsPolicyOps(existing: Option<CsPolicy>, c: CsPolicyConf): seq<Op> {
    if existing.Some? && existing.value.cspolicytype == AdvancedPolicy then
      if existing.value.rule != c.expression || existing.value.action != Some(c.action) then
        [UpdateCsPolicy(existing.value.name, c.expression, c.action)]
      else []
    else
      (if existing.Some? then [Delete(CsPolicyKind, existing.value.name)] else [])
        + [AddCsPolicy(c.name, c.expression, c.action)]
  }

  /** No call exactly when the policy already is the desired one; an update
      exactly when an Advanced Policy differs; otherwise the policy is
      created, after the delete of one of another type. */
  lemma CsPolicyCalls(existing: Option<CsPolicy>, c: CsPolicyConf)
    requires existing.Some? ==> existing.value.name == c.name
    ensures var ops := CsPolicyOps(existing, c);
            && (ops == [] <==> existing == Some(DesiredPolicy(c)))
            && (ops == [UpdateCsPolicy(c.name, c.expression, c.action)] <==>
                  existing.Some? && existing.value.cspolicytype == AdvancedPolicy && existing != Some(DesiredPolicy(c)))
            && (ops == [Delete(CsPolicyKind, c.name), AddCsPolicy(c.name, c.expression, c.action)] <==>
                  existing.Some? && existing.value.cspolicytype != AdvancedPolicy)
            && (ops == [AddCsPolicy(c.name, c.expression, c.action)] <==> existing.None?)
  {
    var ops := CsPolicyOps(existing, c);
    if existing.Some? && existing.value.cspolicytype == AdvancedPolicy {
      assert |ops| <= 1;
    } else if existing.Some? {
      assert ops == [Delete(CsPolicyKind, c.name), AddCsPolicy(c.name, c.expression, c.action)];
    } else {
      assert ops == [AddCsPolicy(c.name, c.expression, c.action)];
    }
  }

  /** When every call is accepted the policy of that name is the desired
      Advanced Policy and nothing else changes. */
  lemma CsPolicyConverges(s: State, c: CsPolicyConf)
    requires WellKeyed(s)
    ensures ApplyAll(s, CsPolicyOps(Get(s.csPolicies, c.name), c)) == s.(csPolicies := s.csPolicies[c.name := DesiredPolicy(c)])
  {
    var existing := Get(s.csPolicies, c.name);
    var d := DesiredPolicy(c);
    if existing.Some? && existing.value.cspolicytype == AdvancedPolicy {
      assert CsPolicyName(existing.value) == c.name;
      if existing == Some(d) {
        assert s.csPolicies[c.name := d] == s.csPolicies;
      } else {
        assert CsPolicyOps(existing, c) == [UpdateCsPolicy(c.name, c.expression, c.action)];
        PolicyUpdated(s, c);
      }
    } else if existing.Some? {
      assert CsPolicyName(existing.value) == c.name;
      assert CsPolicyOps(existing, c) == [Delete(CsPolicyKind, c.name), AddCsPolicy(c.name, c.expression, c.action)];
      PolicyReplaced(s, c);
    } else {
      ApplyAllOne(s, AddCsPolicy(c.name, c.expression, c.action));
    }
  }

  /** The update of an Advanced Policy stores the desired policy. */
  lemma PolicyUpdated(s: State, c: CsPolicyConf)
    requires WellKeyed(s) && c.name in s.csPolicies && s.csPolicies[c.name].cspolicytype == AdvancedPolicy
    ensures ApplyAll(s, [UpdateCsPolicy(c.name, c.expression, c.action)])
              == s.(csPolicies := s.csPolicies[c.name := DesiredPolicy(c)])
  {
    assert s.csPolicies[c.name].(rule := c.expression, action := Some(c.action)) == DesiredPolicy(c);
    ApplyAllOne(s, UpdateCsPolicy(c.name, c.expression, c.action));
  }

  /** Deleting a policy and adding the desired one stores the desired one. */
  lemma PolicyReplaced(s: State, c: CsPolicyConf)
    ensures ApplyAll(s, [Delete(CsPolicyKind, c.name), AddCsPolicy(c.name, c.expression, c.action)])
              == s.(csPolicies := s.csPolicies[c.name := DesiredPolicy(c)])
  {
    var s1 := s.(csPolicies := s.csPolicies - {c.name});
    assert Apply(s, Delete(CsPolicyKind, c.name)) == s1;
    assert (s.csPolicies - {c.name})[c.name := DesiredPolicy(c)] == s.csPolicies[c.name := DesiredPolicy(c)];
    ApplyAllTwo(s, Delete(CsPolicyKind, c.name), AddCsPolicy(c.name, c.expression, c.action));
  }

  /** A second run against the converged state makes no call. */
  lemma CsPolicySettles(s: State, c: CsPolicyConf)
    requires WellKeyed(s)
    ensures var r := ApplyAll(s, CsPolicyOps(Get(s.csPolicies, c.name), c));
            CsPolicyOps(Get(r.csPolicies, c.name), c) == []
  {
    CsPolicyConverges(s, c);
  }

  /** ensure_cs_policy_state (apply_netscaler_state.py:926-986): every
      NSNitroError is caught and logged, and nothing is returned. */
  method EnsureCsPolicyState(app: Appliance, c: CsPolicyConf)
    requires app.Valid()
    modifies app
    ensures app.Valid() && app.fetches == old(app.fetches)
    ensures app.trace == old(app.trace) + CsPolicyPlan(old(app.config), c)
  {
    var existing := app.GetCsPolicy(c.name);
    var needNew := true;
    if existing.Some? {
      if existing.value.cspolicytype == AdvancedPolicy {
        needNew := false;
        if existing.value.rule != c.expression || existing.value.action != Some(c.action) {
          var updated := app.Invoke(UpdateCsPolicy(existing.value.name, c.expression, c.action));
        }
      } else {
        var deleted := app.Invoke(Delete(CsPolicyKind, existing.value.name));
      }
    }
    if needNew {
      var added := app.Invoke(AddCsPolicy(c.name, c.expression, c.action));
    }
  }

  function CsPolicyNames(cs: seq<CsPolicyConf>): seq<string> {
    seq(|cs|, i requires 0 <= i < |cs| => cs[i].name)
  }

  function DeclaredCsPolicies(conf: Option<seq<CsPolicyConf>>): Option<seq<string>> {
    if conf.Some? then Some(CsPolicyNames(conf.value)) else None
  }

  /** The names of a listing of policies, in listing order. */
  function ListedNames(all: seq<CsPolicy>): seq<string> {
    seq(|all|, i requires 0 <= i < |all| => all[i].name)
  }

  /** A listing of the policies names every policy once. */
  lemma ListedNamesListing(m: map<string, CsPolicy>, all: seq<CsPolicy>)
    requires Lists(m, all, CsPolicyName)
    ensures NameListing(m.Keys, ListedNames(all))
  {
    forall n | n in m.Keys
      ensures n in ListedNames(all)
    {
      var i :| 0 <= i < |all| && CsPolicyName(all[i]) == n;
      assert ListedNames(all)[i] == n;
    }
  }

  /** NSCSPolicy().get_all, reduced to the policy names; None when it
      raises. */
  method ListPolicyNames(app: Appliance) returns (names: Option<seq<string>>)
    requires app.Valid()
    modifies app`fetches
    ensures app.fetches == old(app.fetches) + 1
    ensures names.None? <==> old(app.fetches) in app.fetchFails
    ensures names.Some? ==> NameListing(ObjectNames(app.config, CsPolicyKind), names.value)
  {
    var all := app.ListCsPolicies();
    if all.Some? {
      ListedNamesListing(app.config.csPolicies, all.value);
      names := Some(ListedNames(all.value));
    } else {
      names := None;
    }
  }

  /** The collection of ensure_cs_policies_state: when the listing raises
      nothing is deleted; otherwise every listed policy no entry names is
      deleted, results ignored. */
  method CollectCsPolicies(app: Appliance, declared: Option<seq<string>>) returns (names: Option<seq<string>>)
    requires app.Valid()
    modifies app
    ensures app.Valid() && app.fetches == old(app.fetches) + 1
    ensures names.None? <==> old(app.fetches) in app.fetchFails
    ensures names.None? ==> app.trace == old(app.trace)
    ensures names.Some? ==>
              && NameListing(ObjectNames(old(app.config), CsPolicyKind), names.value)
              && app.trace == old(app.trace) + Deletes(CsPolicyKind, Undeclared(names.value, declared))
  {
    names := ListPolicyNames(app);
    if names.Some? {
      var toRemove := RemovalList(names.value, declared);
      var deleted := DeleteAll(app, CsPolicyKind, toRemove);
    }
  }

  /** The calls entry `c` makes when the run reaches it in state `s`. */
  function CsPolicyPlan(s: State, c: CsPolicyConf): seq<Op> {
    CsPolicyOps(Get(s.csPolicies, c.name), c)
  }

  /** The first `i` entries of `confs` ran, entry j from `starts[j]` to
      `starts[j + 1]`. */
  ghost predicate CsPolicyRunsUpTo(app: Appliance, confs: seq<CsPolicyConf>, starts: seq<seq<Op>>, i: nat) {
    && i <= |confs| && |starts| == i + 1
    && forall j :: 0 <= j < i ==> starts[j + 1] == starts[j] + CsPolicyPlan(app.At(starts[j]), confs[j])
  }

  /** One more entry run extends the record. */
  lemma CsPolicyRunsExtend(app: Appliance, confs: seq<CsPolicyConf>, starts: seq<seq<Op>>, i: nat, t': seq<Op>)
    requires CsPolicyRunsUpTo(app, confs, starts, i) && i < |confs|
    requires t' == starts[i] + CsPolicyPlan(app.At(starts[i]), confs[i])
    ensures CsPolicyRunsUpTo(app, confs, starts + [t'], i + 1)
  {
    var starts' := starts + [t'];
    forall j | 0 <= j < i + 1
      ensures starts'[j + 1] == starts'[j] + CsPolicyPlan(app.At(starts'[j]), confs[j])
    {
      if j < i {
        assert starts'[j] == starts[j] && starts'[j + 1] == starts[j + 1];
      } else {
        assert starts'[j] == starts[i] && starts'[j + 1] == t';
      }
    }
  }

  /** The first loop of ensure_cs_policies_state; `starts[j]` is the trace
      when entry j starts. */
  method RunCsPolicyEntries(app: Appliance, confs: seq<CsPolicyConf>) returns (ghost starts: seq<seq<Op>>)
    requires app.Valid()
    modifies app
    ensures app.Valid() && app.fetches == old(app.fetches)
    ensures |starts| == |confs| + 1 && starts[0] == old(app.trace) && starts[|confs|] == app.trace
    ensures forall j :: 0 <= j < |confs| ==> starts[j + 1] == starts[j] + CsPolicyPlan(app.At(starts[j]), confs[j])
  {
    starts := [app.trace];
    var i := 0;
    while i < |confs|
      invariant 0 <= i <= |confs|
      invariant app.Valid() && app.fetches == old(app.fetches)
      invariant |starts| == i + 1 && starts[0] == old(app.trace) && starts[i] == app.trace
      invariant CsPolicyRunsUpTo(app, confs, starts, i)
    {
      ghost var t := app.trace;
      assert app.config == app.At(t);
      EnsureCsPolicyState(app, confs[i]);
      assert app.trace == t + CsPolicyPlan(app.At(t), confs[i]);
      CsPolicyRunsExtend(app, confs, starts, i, app.trace);
      starts := starts + [app.trace];
      i := i + 1;
    }
  }

  /** A run of ensure_cs_policies_state from trace `t0` and fetch count
      `f0` to trace `t'` and fetch count `f'`: entry j made its plan from
      `starts[j]`, then the collection made its one fallible read, number
      `f0`; when that read failed (`names` is None) nothing more was done,
      otherwise it listed `names` and deleted the undeclared ones. */
  ghost predicate PoliciesSectionRan(app: Appliance, conf: Option<seq<CsPolicyConf>>, t0: seq<Op>, f0: nat,
                                     starts: seq<seq<Op>>, names: Option<seq<string>>, t': seq<Op>, f': nat)
  {
    && f' == f0 + 1
    && |starts| == |Entries(conf)| + 1 && starts[0] == t0
    && (forall j :: 0 <= j < |Entries(conf)| ==>
          starts[j + 1] == starts[j] + CsPolicyPlan(app.At(starts[j]), Entries(conf)[j]))
    && (names.None? <==> f0 in app.fetchFails)
    && var gc := starts[|Entries(conf)|];
       && (names.None? ==> t' == gc)
       && (names.Some? ==>
             && NameListing(ObjectNames(app.At(gc), CsPolicyKind), names.value)
             && t' == gc + Deletes(CsPolicyKind, Undeclared(names.value, DeclaredCsPolicies(conf))))
  }

  /** ensure_cs_policies_state (apply_netscaler_state.py:863-903): the
      per-entry runs, then the collection; the result is always true. */
  method EnsureCsPoliciesState(app: Appliance, conf: Option<seq<CsPolicyConf>>)
    returns (ok: bool, ghost starts: seq<seq<Op>>, ghost names: Option<seq<string>>)
    requires app.Valid()
    modifies app
    ensures app.Valid()
    ensures PoliciesSectionRan(app, conf, old(app.trace), old(app.fetches), starts, names, app.trace, app.fetches)
    ensures ok
  {
    starts := RunCsPolicyEntries(app, Entries(conf));
    assert app.config == app.At(app.trace);
    names := CollectCsPolicies(app, DeclaredCsPolicies(conf));
    ok := true;
  }
}
