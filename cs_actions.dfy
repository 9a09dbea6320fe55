/** Content-switching actions in apply_netscaler_state.py:
    ensure_cs_action_state looks the declared action up by name and updates
    its target or creates it; ensure_cs_actions_state runs it for every
    entry and then deletes the undeclared actions. */
module CsActions {
  import opened Wrappers
  import opened NitroTypes
  import opened ApplianceModel
  import opened Collect

  /** The action a desired entry stands for. */
  function NewCsAction(c: CsActionConf): CsAction {
    CsAction(c.name, c.targetLbvserver)
  }

  /** The calls ensure_cs_action_state makes once the get by name is
      known: an existing action with another target is updated, a missing
      one is added. */
  function CsActionOps(existing: Option<CsAction>, c: CsActionConf): seq<Op> {
    if existing.Some? then
      if existing.value.targetlbvserver != c.targetLbvserver then
        [UpdateCsAction(existing.value.(targetlbvserver := c.targetLbvserver))]
      else []
    else [AddCsAction(NewCsAction(c))]
  }

  /** At most one call, none exactly when the action already is the desired
      one, and an add exactly when there is no action of that name. */
  lemma CsActionCalls(existing: Option<CsAction>, c: CsActionConf)
    requires existing.Some? ==> existing.value.name == c.name
    ensures var ops := CsActionOps(existing, c);
            && |ops| <= 1
            && (ops == [] <==> existing == Some(NewCsAction(c)))
            && (ops == [AddCsAction(NewCsAction(c))] <==> existing.None?)
  {
  }

  /** When the call is accepted the action of that name is the desired one
      and nothing else changes. */
  lemma CsActionConverges(s: State, c: CsActionConf)
    requires WellKeyed(s)
    ensures ApplyAll(s, CsActionOps(Get(s.csActions, c.name), c)) == s.(csActions := s.csActions[c.name := NewCsAction(c)])
  {
    var existing := Get(s.csActions, c.name);
    if existing.None? {
      ApplyAllOne(s, AddCsAction(NewCsAction(c)));
    } else {
      var a := existing.value;
      assert CsActionName(a) == c.name;
      if a.targetlbvserver != c.targetLbvserver {
        ApplyAllOne(s, UpdateCsAction(a.(targetlbvserver := c.targetLbvserver)));
      } else {
        assert a == NewCsAction(c);
        assert s.csActions[c.name := NewCsAction(c)] == s.csActions;
      }
    }
  }

  /** A second run against the converged state makes no call. */
  lemma CsActionSettles(s: State, c: CsActionConf)
    requires WellKeyed(s)
    ensures var r := ApplyAll(s, CsActionOps(Get(s.csActions, c.name), c));
            CsActionOps(Get(r.csActions, c.name), c) == []
  {
    CsActionConverges(s, c);
  }

  /** ensure_cs_action_state (apply_netscaler_state.py:781-802): the
      result of the update is ignored; only the add can make it false. */
  method EnsureCsActionState(app: Appliance, c: CsActionConf) returns (ok: bool)
    requires app.Valid()
    modifies app
    ensures app.Valid() && app.fetches == old(app.fetches)
    ensures app.trace == old(app.trace) + CsActionPlan(old(app.config), c)
    ensures ok == (Get(old(app.config).csActions, c.name).Some? || app.AllAccepted(|old(app.trace)|, |app.trace|))
  {
    ok := true;
    var existing := app.GetCsAction(c.name);
    if existing.Some? {
      if existing.value.targetlbvserver != c.targetLbvserver {
        var updated := app.Invoke(UpdateCsAction(existing.value.(targetlbvserver := c.targetLbvserver)));
      }
    } else {
      ok := app.Invoke(AddCsAction(NewCsAction(c)));
    }
  }

  function CsActionNames(cs: seq<CsActionConf>): seq<string> {
    seq(|cs|, i requires 0 <= i < |cs| => cs[i].name)
  }

  function DeclaredCsActions(conf: Option<seq<CsActionConf>>): Option<seq<string>> {
    if conf.Some? then Some(CsActionNames(conf.value)) else None
  }

  /** The calls entry `c` makes when the run reaches it in state `s`. */
  function CsActionPlan(s: State, c: CsActionConf): seq<Op> {
    CsActionOps(Get(s.csActions, c.name), c)
  }

  /** The first `i` entries of `confs` ran, entry j from `starts[j]` to
      `starts[j + 1]`. */
  ghost predicate CsActionRunsUpTo(app: Appliance, confs: seq<CsActionConf>, starts: seq<seq<Op>>, i: nat) {
    && i <= |confs| && |starts| == i + 1
    && forall j :: 0 <= j < i ==> starts[j + 1] == starts[j] + CsActionPlan(app.At(starts[j]), confs[j])
  }

  /** One more entry run extends the record. */
  lemma CsActionRunsExtend(app: Appliance, confs: seq<CsActionConf>, starts: seq<seq<Op>>, i: nat, t': seq<Op>)
    requires CsActionRunsUpTo(app, confs, starts, i) && i < |confs|
    requires t' == starts[i] + CsActionPlan(app.At(starts[i]), confs[i])
    ensures CsActionRunsUpTo(app, confs, starts + [t'], i + 1)
  {
    var starts' := starts + [t'];
    forall j | 0 <= j < i + 1
      ensures starts'[j + 1] == starts'[j] + CsActionPlan(app.At(starts'[j]), confs[j])
    {
      if j < i {
        assert starts'[j] == starts[j] && starts'[j + 1] == starts[j + 1];
      } else {
        assert starts'[j] == starts[i] && starts'[j + 1] == t';
      }
    }
  }

  /** The first loop of ensure_cs_actions_state, results ignored;
      `starts[j]` is the trace when entry j starts. */
  method RunCsActionEntries(app: Appliance, confs: seq<CsActionConf>) returns (ghost starts: seq<seq<Op>>)
    requires app.Valid()
    modifies app
    ensures app.Valid() && app.fetches == old(app.fetches)
    ensures |starts| == |confs| + 1 && starts[0] == old(app.trace) && starts[|confs|] == app.trace
    ensures forall j :: 0 <= j < |confs| ==> starts[j + 1] == starts[j] + CsActionPlan(app.At(starts[j]), confs[j])
  {
    starts := [app.trace];
    var i := 0;
    while i < |confs|
      invariant 0 <= i <= |confs|
      invariant app.Valid() && app.fetches == old(app.fetches)
      invariant |starts| == i + 1 && starts[0] == old(app.trace) && starts[i] == app.trace
      invariant CsActionRunsUpTo(app, confs, starts, i)
    {
      assert app.config == app.At(app.trace);
      var ok := EnsureCsActionState(app, confs[i]);
      CsActionRunsExtend(app, confs, starts, i, app.trace);
      starts := starts + [app.trace];
      i := i + 1;
    }
  }

  /** A run of ensure_cs_actions_state from trace `t0` and fetch count `f0`
      to trace `t'` and fetch count `f'`: entry j made its plan from
      `starts[j]`, then the collection listed `names` and deleted the
      undeclared ones; no fallible read was made. */
  ghost predicate ActionsSectionRan(app: Appliance, conf: Option<seq<CsActionConf>>, t0: seq<Op>, f0: nat,
                                    starts: seq<seq<Op>>, names: seq<string>, t': seq<Op>, f': nat)
  {
    && f' == f0
    && |starts| == |Entries(conf)| + 1 && starts[0] == t0
    && (forall j :: 0 <= j < |Entries(conf)| ==>
          starts[j + 1] == starts[j] + CsActionPlan(app.At(starts[j]), Entries(conf)[j]))
    && var gc := starts[|Entries(conf)|];
       && NameListing(ObjectNames(app.At(gc), CsActionKind), names)
       && t' == gc + Deletes(CsActionKind, Undeclared(names, DeclaredCsActions(conf)))
  }

  /** ensure_cs_actions_state (apply_netscaler_state.py:826-860): the
      per-entry runs, then every listed action no entry names is deleted;
      the result is true whatever the calls did. */
  method EnsureCsActionsState(app: Appliance, conf: Option<seq<CsActionConf>>)
    returns (ok: bool, ghost starts: seq<seq<Op>>, ghost names: seq<string>)
    requires app.Valid()
    modifies app
    ensures app.Valid()
    ensures ActionsSectionRan(app, conf, old(app.trace), old(app.fetches), starts, names, app.trace, app.fetches)
    ensures ok
  {
    starts := RunCsActionEntries(app, Entries(conf));
    assert app.config == app.At(app.trace);
    var collected;
    collected, names := CollectUndeclared(app, CsActionKind, DeclaredCsActions(conf));
    ok := true;
  }
}
