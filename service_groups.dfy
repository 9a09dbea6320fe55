/** Service groups in apply_netscaler_state.py: ensure_service_group_state
    makes sure the group exists with the desired service type and then
    sweeps its member bindings against the desired `servers` entries;
    ensure_service_groups_state runs it for every entry and then deletes the
    undeclared groups. */
module ServiceGroups {
  import opened Wrappers
  import opened NitroTypes
  import opened ApplianceModel
  import opened Collect

  /** The group a desired entry creates. */
  function NewGroup(c: ServiceGroupConf): ServiceGroup {
    ServiceGroup(c.name, c.protocol)
  }

  /** The calls on the group object (apply_netscaler_state.py:323-351): a
      group of another service type is deleted and created again, a missing
      group is created, a group of the desired type is left alone. */
  function GroupOps(existing: Option<ServiceGroup>, c: ServiceGroupConf): seq<Op> {
    if existing.None? then [AddServiceGroup(NewGroup(c))]
    else if existing.value.servicetype != c.protocol then [Delete(ServiceGroupKind, c.name), AddServiceGroup(NewGroup(c))]
    else []
  }

  // ---------------------------------------------------------------------
  // The member sweep

  /** `existing_conf == server_binding_conf`: the mapped binding equals the
      entry dictionary, which it no longer can once the entry carries the
      `bound` key. */
  predicate SameMember(e: MemberEntry, b: Member) {
    !e.bound && e.name == b.servername && e.port == b.port
  }

  /** The inner loop for one observed binding: every entry equal to it is
      marked. */
  function Mark(es: seq<MemberEntry>, b: Member): seq<MemberEntry> {
    seq(|es|, i requires 0 <= i < |es| => if SameMember(es[i], b) then es[i].(bound := true) else es[i])
  }

  /** `binding_found` after the inner loop. */
  predicate Found(es: seq<MemberEntry>, b: Member) {
    exists i :: 0 <= i < |es| && SameMember(es[i], b)
  }

  /** The entries once the observed bindings `obs` have been visited in order. */
  function Marked(es: seq<MemberEntry>, obs: seq<Member>): seq<MemberEntry>
    decreases |obs|
  {
    if obs == [] then es else Mark(Marked(es, obs[..|obs| - 1]), obs[|obs| - 1])
  }

  /** The deletes of the first loop (apply_netscaler_state.py:355-372): an
      observed binding that no entry equals when it is visited is deleted. */
  function RemoveOps(g: string, es: seq<MemberEntry>, obs: seq<Member>): seq<Op>
    decreases |obs|
  {
    if obs == [] then []
    else
      var front := obs[..|obs| - 1];
      var b := obs[|obs| - 1];
      RemoveOps(g, es, front) + (if Found(Marked(es, front), b) then [] else [DeleteMember(g, b)])
  }

  /** The adds of the second loop (apply_netscaler_state.py:375-386): one per
      entry left unmarked. */
  function AddOps(g: string, es: seq<MemberEntry>): seq<Op>
    decreases |es|
  {
    if es == [] then []
    else
      var e := es[|es| - 1];
      AddOps(g, es[..|es| - 1]) + (if e.bound then [] else [AddMember(g, EntryMember(e))])
  }

  /** The second loop pops the marker of every marked entry. */
  function Popped(es: seq<MemberEntry>): seq<MemberEntry> {
    seq(|es|, i requires 0 <= i < |es| => es[i].(bound := false))
  }

  /** The member calls, given what the binding fetch returned. */
  function MemberOps(g: string, es: seq<MemberEntry>, fetched: Option<seq<Member>>): seq<Op> {
    if fetched.None? then [] else RemoveOps(g, es, fetched.value) + AddOps(g, Marked(es, fetched.value))
  }

  /** The desired entries after the sweep. */
  function EntriesAfter(es: seq<MemberEntry>, fetched: Option<seq<Member>>): seq<MemberEntry> {
    if fetched.None? then es else Popped(Marked(es, fetched.value))
  }

  /** The members the desired entries stand for. */
  ghost function Desired(es: seq<MemberEntry>): set<Member> {
    set e | e in es :: EntryMember(e)
  }

  /** The members the unmarked entries stand for. */
  ghost function UnmarkedMembers(es: seq<MemberEntry>): set<Member> {
    set e | e in es && !e.bound :: EntryMember(e)
  }

  predicate Unmarked(es: seq<MemberEntry>) {
    forall i :: 0 <= i < |es| ==> !es[i].bound
  }

  lemma UnmarkedAll(es: seq<MemberEntry>)
    requires Unmarked(es)
    ensures UnmarkedMembers(es) == Desired(es)
  {
    forall m | m in Desired(es)
      ensures m in UnmarkedMembers(es)
    {
      var e :| e in es && EntryMember(e) == m;
      var i :| 0 <= i < |es| && es[i] == e;
    }
  }

  /** Marking keeps each entry's server and port, and an entry ends marked
      exactly when it started marked or some observed binding equals it. */
  lemma {:induction false} MarkedShape(es: seq<MemberEntry>, obs: seq<Member>)
    ensures |Marked(es, obs)| == |es|
    ensures forall i :: 0 <= i < |es| ==>
              && EntryMember(Marked(es, obs)[i]) == EntryMember(es[i])
              && (Marked(es, obs)[i].bound <==> es[i].bound || EntryMember(es[i]) in obs)
    decreases |obs|
  {
    if obs != [] {
      var front := obs[..|obs| - 1];
      MarkedShape(es, front);
      assert obs == front + [obs[|obs| - 1]];
    }
  }

  /** The members still unmarked after the observed bindings `obs`. */
  lemma MarkedMembers(es: seq<MemberEntry>, obs: seq<Member>)
    ensures forall m :: m in UnmarkedMembers(Marked(es, obs)) <==> m in UnmarkedMembers(es) && m !in obs
  {
    MarkedShape(es, obs);
    var marked := Marked(es, obs);
    forall m | m in UnmarkedMembers(marked)
      ensures m in UnmarkedMembers(es) && m !in obs
    {
      var e :| e in marked && !e.bound && EntryMember(e) == m;
      var i :| 0 <= i < |marked| && marked[i] == e;
      assert es[i] in es;
    }
    forall m | m in UnmarkedMembers(es) && m !in obs
      ensures m in UnmarkedMembers(marked)
    {
      var e :| e in es && !e.bound && EntryMember(e) == m;
      var i :| 0 <= i < |es| && es[i] == e;
      assert marked[i] in marked;
    }
  }

  /** An observed binding is kept exactly when an entry that started
      unmarked stands for it and it was not observed before. */
  lemma FoundAfter(es: seq<MemberEntry>, front: seq<Member>, b: Member)
    ensures Found(Marked(es, front), b) <==> b in UnmarkedMembers(es) && b !in front
  {
    MarkedMembers(es, front);
    var m := Marked(es, front);
    if Found(m, b) {
      var i :| 0 <= i < |m| && SameMember(m[i], b);
      assert m[i] in m && EntryMember(m[i]) == b;
    }
    if b in UnmarkedMembers(m) {
      var e :| e in m && !e.bound && EntryMember(e) == b;
      var i :| 0 <= i < |m| && m[i] == e;
      assert SameMember(m[i], b);
    }
  }

  /** The delete calls of the first loop: with distinct observed bindings,
      exactly the observed bindings no unmarked entry stands for. */
  lemma {:induction false} RemoveOpsContents(g: string, es: seq<MemberEntry>, obs: seq<Member>)
    requires Distinct(obs)
    ensures forall op :: op in RemoveOps(g, es, obs) ==> op.DeleteMember? && op.groupName == g
    ensures forall b :: DeleteMember(g, b) in RemoveOps(g, es, obs) <==> b in obs && b !in UnmarkedMembers(es)
    decreases |obs|
  {
    if obs != [] {
      var front := obs[..|obs| - 1];
      var b := obs[|obs| - 1];
      RemoveOpsContents(g, es, front);
      FoundAfter(es, front, b);
      assert obs == front + [b];
      assert b !in front;
    }
  }

  /** The add calls of the second loop: one per unmarked entry. */
  lemma {:induction false} AddOpsContents(g: string, es: seq<MemberEntry>)
    ensures forall op :: op in AddOps(g, es) ==> op.AddMember? && op.groupName == g
    ensures forall m :: AddMember(g, m) in AddOps(g, es) <==> m in UnmarkedMembers(es)
    decreases |es|
  {
    if es != [] {
      var front := es[..|es| - 1];
      var e := es[|es| - 1];
      AddOpsContents(g, front);
      assert es == front + [e];
      assert UnmarkedMembers(es) == UnmarkedMembers(front) + (if e.bound then {} else {EntryMember(e)});
    }
  }

  /** The sweep's calls, against distinct observed bindings and unmarked
      entries: an observed binding is deleted exactly when no entry stands
      for it, a desired member is added exactly when it was not observed,
      and nothing else is called; a failed fetch means no call at all. */
  lemma SweepCalls(g: string, es: seq<MemberEntry>, obs: seq<Member>)
    requires Unmarked(es) && Distinct(obs)
    ensures MemberOps(g, es, None) == []
    ensures var ops := MemberOps(g, es, Some(obs));
            && (forall op :: op in ops ==> (op.DeleteMember? || op.AddMember?) && op.groupName == g)
            && (forall b :: DeleteMember(g, b) in ops <==> b in obs && b !in Desired(es))
            && (forall m :: AddMember(g, m) in ops <==> m in Desired(es) && m !in obs)
  {
    UnmarkedAll(es);
    RemoveOpsContents(g, es, obs);
    AddOpsContents(g, Marked(es, obs));
    MarkedMembers(es, obs);
  }

  /** Each entry absorbs at most one observed binding: a binding observed a
      second time is deleted, since every entry equal to it is marked by
      then. */
  lemma {:induction false} LaterDuplicateDeleted(g: string, es: seq<MemberEntry>, obs: seq<Member>, i: nat, j: nat)
    requires i < j < |obs| && obs[i] == obs[j]
    ensures DeleteMember(g, obs[j]) in RemoveOps(g, es, obs)
    ensures DeleteMember(g, obs[j]) in MemberOps(g, es, Some(obs))
    decreases |obs|
  {
    var front := obs[..|obs| - 1];
    if j == |obs| - 1 {
      FoundAfter(es, front, obs[j]);
      assert front[i] == obs[j];
    } else {
      assert front[i] == obs[i] && front[j] == obs[j];
      LaterDuplicateDeleted(g, es, front, i, j);
    }
  }

  /** No entry carries a marker once the sweep has run, and each keeps its
      server and port; after a failed fetch the entries are untouched. */
  lemma MarksPopped(es: seq<MemberEntry>, fetched: Option<seq<Member>>)
    ensures |EntriesAfter(es, fetched)| == |es|
    ensures forall i :: 0 <= i < |es| ==> EntryMember(EntriesAfter(es, fetched)[i]) == EntryMember(es[i])
    ensures fetched.Some? ==> Unmarked(EntriesAfter(es, fetched))
    ensures Unmarked(es) ==> EntriesAfter(es, fetched) == es
  {
    if fetched.Some? {
      MarkedShape(es, fetched.value);
    }
  }

  // ---------------------------------------------------------------------
  // What the sweep leaves on the appliance

  /** The deletes of the first loop leave the observed bindings an unmarked
      entry stands for, `xs` being the observed bindings visited so far. */
  lemma {:induction false} RemoveConverges(s: State, g: string, es: seq<MemberEntry>, full: seq<Member>, xs: seq<Member>)
    requires Distinct(full) && MembersOf(s, g) == full && (g in s.members || full == [])
    requires |xs| <= |full| && xs == full[..|xs|]
    ensures var r := ApplyAll(s, RemoveOps(g, es, xs));
            && r.serviceGroups == s.serviceGroups
            && (forall m :: m in MembersOf(r, g) <==> m in full && (m in xs ==> m in UnmarkedMembers(es)))
            && (g in r.members || full == [])
    decreases |xs|
  {
    if xs != [] {
      var front := xs[..|xs| - 1];
      assert front == full[..|front|];
      assert xs == front + [xs[|xs| - 1]];
      RemoveConverges(s, g, es, full, front);
      RemoveStep(s, g, es, full, front, xs[|xs| - 1]);
    }
  }

  /** What the deletes for the visited bindings `xs` leave. */
  ghost predicate RemovedUpTo(s: State, g: string, es: seq<MemberEntry>, full: seq<Member>, xs: seq<Member>) {
    var r := ApplyAll(s, RemoveOps(g, es, xs));
    && r.serviceGroups == s.serviceGroups
    && (forall m :: m in MembersOf(r, g) <==> m in full && (m in xs ==> m in UnmarkedMembers(es)))
    && (g in r.members || full == [])
  }

  /** One more observed binding `b` of the first loop. */
  lemma RemoveStep(s: State, g: string, es: seq<MemberEntry>, full: seq<Member>, front: seq<Member>, b: Member)
    requires Distinct(full) && MembersOf(s, g) == full && (g in s.members || full == [])
    requires |front| < |full| && front == full[..|front|] && b == full[|front|]
    requires RemovedUpTo(s, g, es, full, front)
    ensures RemovedUpTo(s, g, es, full, front + [b])
  {
    var xs := front + [b];
    var r0 := ApplyAll(s, RemoveOps(g, es, front));
    FoundAfter(es, front, b);
    assert b !in front;
    if Found(Marked(es, front), b) {
      assert RemoveOps(g, es, xs) == RemoveOps(g, es, front);
    } else {
      ApplyAllSnoc(s, RemoveOps(g, es, front), DeleteMember(g, b));
      assert b in MembersOf(r0, g);
      WithoutContents(r0.members[g], b);
    }
  }

  /** The adds of the second loop put in the member of every unmarked entry. */
  lemma {:induction false} AddConverges(s: State, g: string, es: seq<MemberEntry>)
    requires g in s.serviceGroups
    ensures var r := ApplyAll(s, AddOps(g, es));
            && r.serviceGroups == s.serviceGroups
            && forall m :: m in MembersOf(r, g) <==> m in MembersOf(s, g) || m in UnmarkedMembers(es)
    decreases |es|
  {
    if es != [] {
      var front := es[..|es| - 1];
      var e := es[|es| - 1];
      AddConverges(s, g, front);
      assert es == front + [e];
      assert UnmarkedMembers(es) == UnmarkedMembers(front) + (if e.bound then {} else {EntryMember(e)});
      if e.bound {
        assert AddOps(g, es) == AddOps(g, front);
      } else {
        ApplyAllSnoc(s, AddOps(g, front), AddMember(g, EntryMember(e)));
      }
    }
  }

  /** When every member call is accepted the group's members are exactly
      the members the entries stand for. */
  lemma MembersConverge(s: State, g: string, es: seq<MemberEntry>)
    requires Unmarked(es) && Distinct(MembersOf(s, g)) && g in s.serviceGroups
    ensures var r := ApplyAll(s, MemberOps(g, es, Some(MembersOf(s, g))));
            forall m :: m in MembersOf(r, g) <==> m in Desired(es)
  {
    var obs := MembersOf(s, g);
    assert obs == obs[..|obs|];
    UnmarkedAll(es);
    RemoveConverges(s, g, es, obs, obs);
    AddConverges(ApplyAll(s, RemoveOps(g, es, obs)), g, Marked(es, obs));
    ApplyAllConcat(s, RemoveOps(g, es, obs), AddOps(g, Marked(es, obs)));
    MarkedMembers(es, obs);
  }

  /** When the group calls are accepted the group exists with the desired
      service type; a recreated group has no members left, and a group of
      the desired type is not touched. */
  lemma GroupConverges(s: State, c: ServiceGroupConf)
    requires WellKeyed(s)
    ensures var existing := Get(s.serviceGroups, c.name);
            var r := ApplyAll(s, GroupOps(existing, c));
            && c.name in r.serviceGroups && r.serviceGroups[c.name] == NewGroup(c)
            && (existing.Some? && existing.value.servicetype != c.protocol ==> MembersOf(r, c.name) == [])
            && (existing.Some? && existing.value.servicetype == c.protocol ==> r == s)
  {
    var existing := Get(s.serviceGroups, c.name);
    if existing.None? {
      ApplyAllOne(s, AddServiceGroup(NewGroup(c)));
    } else if existing.value.servicetype != c.protocol {
      ApplyAllTwo(s, Delete(ServiceGroupKind, c.name), AddServiceGroup(NewGroup(c)));
    } else {
      assert s.serviceGroups[c.name].name == c.name;
    }
  }

  // ---------------------------------------------------------------------
  // The reconciler

  /** NSServiceGroup.get by name, then the delete or add the type calls for
      (apply_netscaler_state.py:323-351). Both failures count. */
  method EnsureGroupObject(app: Appliance, c: ServiceGroupConf) returns (ok: bool)
    requires app.Valid()
    modifies app
    ensures app.Valid() && app.fetches == old(app.fetches)
    ensures app.trace == old(app.trace) + GroupOps(Get(old(app.config).serviceGroups, c.name), c)
    ensures ok == app.AllAccepted(|old(app.trace)|, |app.trace|)
  {
    ghost var t0 := app.trace;
    var existing := app.GetServiceGroup(c.name);
    ghost var ops := GroupOps(existing, c);
    ok := true;
    if existing.Some? && existing.value.servicetype != c.protocol {
      ok := app.Invoke(Delete(ServiceGroupKind, c.name));
      existing := None;
      assert app.trace == t0 + ops[..1] && ok == app.AllAccepted(|t0|, |app.trace|);
    } else {
      assert ops == (if existing.None? then [AddServiceGroup(NewGroup(c))] else []);
    }
    if existing.None? {
      ghost var t1 := app.trace;
      var added := app.Invoke(AddServiceGroup(NewGroup(c)));
      app.AcceptedSnoc(|t0|, |t1|);
      ok := ok && added;
    }
    assert app.trace == t0 + ops;
  }

  /** The inner loop over the entries for one observed binding. */
  method MarkEntries(es: seq<MemberEntry>, b: Member) returns (marked: seq<MemberEntry>, found: bool)
    ensures marked == Mark(es, b)
    ensures found == Found(es, b)
  {
    marked := es;
    found := false;
    var j := 0;
    while j < |es|
      invariant 0 <= j <= |es| && |marked| == |es|
      invariant forall k :: 0 <= k < j ==> marked[k] == Mark(es, b)[k]
      invariant forall k :: j <= k < |es| ==> marked[k] == es[k]
      invariant found <==> exists k :: 0 <= k < j && SameMember(es[k], b)
    {
      if SameMember(marked[j], b) {
        found := true;
        marked := marked[j := marked[j].(bound := true)];
      }
      j := j + 1;
    }
  }

  /** The first loop: observed bindings no entry equals are deleted. */
  method RemoveUnmatched(app: Appliance, g: string, es: seq<MemberEntry>, obs: seq<Member>)
    returns (ok: bool, marked: seq<MemberEntry>)
    requires app.Valid()
    modifies app
    ensures app.Valid() && app.fetches == old(app.fetches)
    ensures app.trace == old(app.trace) + RemoveOps(g, es, obs)
    ensures marked == Marked(es, obs)
    ensures ok == app.AllAccepted(|old(app.trace)|, |app.trace|)
  {
    marked := es;
    ok := true;
    var i := 0;
    while i < |obs|
      invariant 0 <= i <= |obs|
      invariant app.Valid() && app.fetches == old(app.fetches)
      invariant marked == Marked(es, obs[..i])
      invariant app.Made(old(app.trace), RemoveOps(g, es, obs[..i]), ok)
    {
      assert obs[..i + 1][..i] == obs[..i];
      var found;
      marked, found := MarkEntries(marked, obs[i]);
      if !found {
        ok := app.InvokeIn(old(app.trace), RemoveOps(g, es, obs[..i]), ok, DeleteMember(g, obs[i]));
      }
      i := i + 1;
    }
    assert obs[..|obs|] == obs;
  }

  /** The second loop has popped the markers of the first `j` entries and
      left the rest as they were. */
  ghost predicate UnmarkedUpTo(entries: seq<MemberEntry>, marked: seq<MemberEntry>, j: nat) {
    && j <= |marked| && |entries| == |marked|
    && (forall k :: 0 <= k < j ==> entries[k] == marked[k].(bound := false))
    && (forall k :: j <= k < |marked| ==> entries[k] == marked[k])
  }

  /** Entry `j` leaves the loop without its marker, whether it was popped
      or carried none. */
  lemma UnmarkStep(entries: seq<MemberEntry>, marked: seq<MemberEntry>, j: nat, entries': seq<MemberEntry>)
    requires UnmarkedUpTo(entries, marked, j) && j < |marked|
    requires entries' == entries[j := entries[j].(bound := false)] || (!entries[j].bound && entries' == entries)
    ensures UnmarkedUpTo(entries', marked, j + 1)
  {
    assert entries'[j] == marked[j].(bound := false);
    forall k | 0 <= k < |marked| && k != j
      ensures entries'[k] == entries[k]
    {
    }
  }

  /** The second loop: unmarked entries are added, marked ones popped. */
  method AddUnmarked(app: Appliance, g: string, marked: seq<MemberEntry>) returns (ok: bool, entries: seq<MemberEntry>)
    requires app.Valid()
    modifies app
    ensures app.Valid() && app.fetches == old(app.fetches)
    ensures app.trace == old(app.trace) + AddOps(g, marked)
    ensures entries == Popped(marked)
    ensures ok == app.AllAccepted(|old(app.trace)|, |app.trace|)
  {
    entries := marked;
    ok := true;
    var j := 0;
    while j < |marked|
      invariant 0 <= j <= |marked| && |entries| == |marked|
      invariant app.Valid() && app.fetches == old(app.fetches)
      invariant UnmarkedUpTo(entries, marked, j)
      invariant app.Made(old(app.trace), AddOps(g, marked[..j]), ok)
    {
      assert marked[..j + 1][..j] == marked[..j] && marked[..j + 1][j] == marked[j];
      assert entries[j] == marked[j];
      assert AddOps(g, marked[..j + 1])
          == AddOps(g, marked[..j]) + (if marked[j].bound then [] else [AddMember(g, EntryMember(marked[j]))]);
      ghost var before := entries;
      if !entries[j].bound {
        ok := app.InvokeIn(old(app.trace), AddOps(g, marked[..j]), ok, AddMember(g, EntryMember(entries[j])));
      } else {
        entries := entries[j := entries[j].(bound := false)];
      }
      UnmarkStep(before, marked, j, entries);
      j := j + 1;
    }
    assert marked[..|marked|] == marked;
  }

  /** The two loops of the sweep over the observed bindings `obs`. */
  method SweepMembers(app: Appliance, g: string, es: seq<MemberEntry>, obs: seq<Member>)
    returns (ok: bool, entries: seq<MemberEntry>)
    requires app.Valid()
    modifies app
    ensures app.Valid() && app.fetches == old(app.fetches)
    ensures app.trace == old(app.trace) + MemberOps(g, es, Some(obs))
    ensures entries == EntriesAfter(es, Some(obs))
    ensures ok == app.AllAccepted(|old(app.trace)|, |app.trace|)
  {
    var removed, marked := RemoveUnmatched(app, g, es, obs);
    ghost var t1 := app.trace;
    var added;
    added, entries := AddUnmarked(app, g, marked);
    TraceAppend(old(app.trace), t1, app.trace, RemoveOps(g, es, obs), AddOps(g, Marked(es, obs)));
    app.AcceptedSplit(|old(app.trace)|, |t1|, |app.trace|);
    ok := removed && added;
  }

  /** What the member fetch after the group calls `t` returns, `n` being the
      number of the fetch: NSNitroError when the read fails or the group is
      missing. */
  ghost function Fetched(app: Appliance, t: seq<Op>, n: nat, g: string): Option<seq<Member>> {
    if n in app.fetchFails || g !in app.At(t).serviceGroups then None else Some(MembersOf(app.At(t), g))
  }

  /** ensure_service_group_state (apply_netscaler_state.py:309-391): the
      group calls, the member fetch, and, when the fetch succeeded, the
      sweep. Returns the entries as the sweep leaves them. */
  method EnsureServiceGroupState(app: Appliance, c: ServiceGroupConf)
    returns (ok: bool, entries: seq<MemberEntry>, ghost fetched: Option<seq<Member>>)
    requires app.Valid()
    modifies app
    ensures app.Valid() && app.fetches == old(app.fetches) + 1
    ensures var t1 := old(app.trace) + GroupOps(Get(old(app.config).serviceGroups, c.name), c);
            && fetched == Fetched(app, t1, old(app.fetches), c.name)
            && app.trace == t1 + MemberOps(c.name, c.servers, fetched)
    ensures entries == EntriesAfter(c.servers, fetched)
    ensures ok == app.AllAccepted(|old(app.trace)|, |app.trace|)
  {
    ok := EnsureGroupObject(app, c);
    ghost var t1 := app.trace;
    assert app.config == app.At(t1);
    var got := app.FetchMembers(c.name);
    fetched := got;
    if got.Some? {
      var swept;
      swept, entries := SweepMembers(app, c.name, c.servers, got.value);
      app.AcceptedSplit(|old(app.trace)|, |t1|, |app.trace|);
      ok := ok && swept;
    } else {
      entries := c.servers;
      assert app.trace == t1 + [];
    }
  }

  // ---------------------------------------------------------------------
  // The section

  /** One entry's run: from trace `t` with fetch number `n` to trace `t'`,
      with the fetch result `fetched` and the entry `out` as it is left. */
  ghost predicate GroupStep(app: Appliance, t: seq<Op>, n: nat, c: ServiceGroupConf,
                            fetched: Option<seq<Member>>, t': seq<Op>, out: ServiceGroupConf)
  {
    var t1 := t + GroupOps(Get(app.At(t).serviceGroups, c.name), c);
    && fetched == Fetched(app, t1, n, c.name)
    && t' == t1 + MemberOps(c.name, c.servers, fetched)
    && out == c.(servers := EntriesAfter(c.servers, fetched))
  }

  /** The names the entries of a service_groups section declare. */
  function GroupNames(cs: seq<ServiceGroupConf>): seq<string> {
    seq(|cs|, i requires 0 <= i < |cs| => cs[i].name)
  }

  function DeclaredGroups(conf: Option<seq<ServiceGroupConf>>): Option<seq<string>> {
    if conf.Some? then Some(GroupNames(conf.value)) else None
  }

  /** The first `i` entries made their runs, entry j starting at trace
      `starts[j]` with fetch number `n0 + j` and leaving `out[j]`. */
  ghost predicate GroupRunsUpTo(app: Appliance, confs: seq<ServiceGroupConf>, n0: nat, starts: seq<seq<Op>>,
                                fetched: seq<Option<seq<Member>>>, out: seq<ServiceGroupConf>, i: nat)
  {
    && i <= |confs| && |starts| == i + 1 && |fetched| == i && |out| == i
    && forall j :: 0 <= j < i ==> GroupStep(app, starts[j], n0 + j, confs[j], fetched[j], starts[j + 1], out[j])
  }

  /** One more entry run extends the record. */
  lemma GroupRunsExtend(app: Appliance, confs: seq<ServiceGroupConf>, n0: nat, starts: seq<seq<Op>>,
                        fetched: seq<Option<seq<Member>>>, out: seq<ServiceGroupConf>, i: nat,
                        f: Option<seq<Member>>, t': seq<Op>, c': ServiceGroupConf)
    requires GroupRunsUpTo(app, confs, n0, starts, fetched, out, i) && i < |confs|
    requires GroupStep(app, starts[i], n0 + i, confs[i], f, t', c')
    ensures GroupRunsUpTo(app, confs, n0, starts + [t'], fetched + [f], out + [c'], i + 1)
  {
    var starts', fetched', out' := starts + [t'], fetched + [f], out + [c'];
    forall j | 0 <= j < i + 1
      ensures GroupStep(app, starts'[j], n0 + j, confs[j], fetched'[j], starts'[j + 1], out'[j])
    {
      if j < i {
        assert starts'[j] == starts[j] && starts'[j + 1] == starts[j + 1] && fetched'[j] == fetched[j] && out'[j] == out[j];
      } else {
        assert starts'[j] == starts[i] && starts'[j + 1] == t' && fetched'[j] == f && out'[j] == c';
      }
    }
  }

  /** The first loop of ensure_service_groups_state: every entry in turn,
      results ignored. `starts[j]` is the trace when entry j starts. */
  method RunGroupEntries(app: Appliance, confs: seq<ServiceGroupConf>)
    returns (out: seq<ServiceGroupConf>, ghost starts: seq<seq<Op>>, ghost fetched: seq<Option<seq<Member>>>)
    requires app.Valid()
    modifies app
    ensures app.Valid() && app.fetches == old(app.fetches) + |confs|
    ensures |starts| == |confs| + 1 && |fetched| == |confs| && |out| == |confs|
    ensures starts[0] == old(app.trace) && starts[|confs|] == app.trace
    ensures forall j :: 0 <= j < |confs| ==>
              GroupStep(app, starts[j], old(app.fetches) + j, confs[j], fetched[j], starts[j + 1], out[j])
  {
    out, starts, fetched := [], [app.trace], [];
    var i := 0;
    while i < |confs|
      invariant 0 <= i <= |confs|
      invariant app.Valid() && app.fetches == old(app.fetches) + i
      invariant |starts| == i + 1 && starts[0] == old(app.trace) && starts[i] == app.trace
      invariant GroupRunsUpTo(app, confs, old(app.fetches), starts, fetched, out, i)
    {
      assert app.config == app.At(app.trace);
      var _, entries, f := EnsureServiceGroupState(app, confs[i]);
      GroupRunsExtend(app, confs, old(app.fetches), starts, fetched, out, i, f, app.trace, confs[i].(servers := entries));
      out, starts, fetched := out + [confs[i].(servers := entries)], starts + [app.trace], fetched + [f];
      i := i + 1;
    }
  }

  /** A run of ensure_service_groups_state from trace `t0` and fetch count
      `f0` to trace `t'` and fetch count `f'`: entry j ran from `starts[j]`
      with fetch number `f0 + j`, reading `fetched[j]` and leaving
      `Entries(out)[j]`, then the collection listed `names` and deleted the
      undeclared ones; `ok` says whether every delete was accepted. */
  ghost predicate GroupsSectionRan(app: Appliance, conf: Option<seq<ServiceGroupConf>>, t0: seq<Op>, f0: nat, ok: bool,
                                   out: Option<seq<ServiceGroupConf>>, starts: seq<seq<Op>>,
                                   fetched: seq<Option<seq<Member>>>, names: seq<string>, t': seq<Op>, f': nat)
  {
    && f' == f0 + |Entries(conf)|
    && out.Some? == conf.Some? && |Entries(out)| == |Entries(conf)|
    && |starts| == |Entries(conf)| + 1 && |fetched| == |Entries(conf)| && starts[0] == t0
    && (forall j :: 0 <= j < |Entries(conf)| ==>
          GroupStep(app, starts[j], f0 + j, Entries(conf)[j], fetched[j], starts[j + 1], Entries(out)[j]))
    && var gc := starts[|Entries(conf)|];
       && NameListing(ObjectNames(app.At(gc), ServiceGroupKind), names)
       && t' == gc + Deletes(ServiceGroupKind, Undeclared(names, DeclaredGroups(conf)))
       && ok == app.AllAccepted(|gc|, |t'|)
  }

  /** ensure_service_groups_state (apply_netscaler_state.py:393-432): the
      per-entry runs, then the collection of undeclared groups against a
      listing taken after them; only its deletes decide the result. The
      section comes back as the runs leave its entries. */
  method EnsureServiceGroupsState(app: Appliance, conf: Option<seq<ServiceGroupConf>>)
    returns (ok: bool, out: Option<seq<ServiceGroupConf>>, ghost starts: seq<seq<Op>>,
             ghost fetched: seq<Option<seq<Member>>>, ghost names: seq<string>)
    requires app.Valid()
    modifies app
    ensures app.Valid()
    ensures GroupsSectionRan(app, conf, old(app.trace), old(app.fetches), ok, out, starts, fetched, names,
                             app.trace, app.fetches)
  {
    var entries;
    entries, starts, fetched := RunGroupEntries(app, Entries(conf));
    out := if conf.Some? then Some(entries) else None;
    assert app.config == app.At(app.trace);
    ok, names := CollectUndeclared(app, ServiceGroupKind, DeclaredGroups(conf));
  }
}
