/** Content-switching vservers in apply_netscaler_state.py:
    ensure_csvserver_state resolves the declared vserver against the listed
    ones, applies the replace rule, sets the default lbvserver edge and
    reconciles the policy bindings; ensure_csvservers_state runs it for every
    entry and then deletes the undeclared csvservers. */
module Csvservers {
  import opened Wrappers
  import opened NitroTypes
  import opened Matcher
  import opened ApplianceModel
  import opened Collect
  import opened Vservers

  // ---------------------------------------------------------------------
  // The match phase

  /** The calls of the match phase (apply_netscaler_state.py:1153-1205): an
      address match without a name match is only deleted. */
  function CsMatchOps(m: Matches<Vserver>, c: VserverConf): seq<Op> {
    if m.byName.Some? then NameMatchOps(CsvserverKind, m, c)
    else if m.byAddress.Some? then [Delete(CsvserverKind, m.byAddress.value.name)]
    else []
  }

  /** Once every call of the match phase is accepted, a name match is the
      desired csvserver and the replace rule leaves it alone; without a name
      match the address match is gone and the replace rule creates the
      csvserver. */
  lemma CsMatchPhaseSettles(s: State, all: seq<Vserver>, c: VserverConf)
    requires WellKeyed(s) && Lists(s.csvservers, all, VserverName)
    ensures var m := MatchesFound(all, VserverBucket(c));
            var r := ApplyAll(s, CsMatchOps(m, c));
            && (m.byName.Some? ==>
                  && Get(r.csvservers, c.name) == Some(NewVserver(c))
                  && ReplaceOps(CsvserverKind, Get(r.csvservers, c.name), c) == [])
            && (m.byName.None? ==>
                  && (m.byAddress.Some? ==> m.byAddress.value.name !in r.csvservers)
                  && ReplaceOps(CsvserverKind, Get(r.csvservers, c.name), c) == [AddVserver(CsvserverKind, NewVserver(c))])
  {
    var m := MatchesFound(all, VserverBucket(c));
    VserverNameSlot(all, c);
    if m.byName.Some? {
      NameMatchConverges(s, CsvserverKind, all, c);
    } else {
      assert c.name !in s.csvservers;
      if m.byAddress.Some? {
        ApplyAllOne(s, Delete(CsvserverKind, m.byAddress.value.name));
      }
    }
  }

  // ---------------------------------------------------------------------
  // The default lbvserver edge

  /** The edge calls (apply_netscaler_state.py:1249-1258): a declared target
      replaces another one, is added when there is none, and an undeclared
      edge is deleted. */
  function DefaultEdgeOps(cs: string, existing: Option<string>, desired: Option<string>): seq<Op> {
    if desired.Some? then
      if existing.None? then [AddDefaultLbvserver(cs, desired.value)]
      else if existing.value != desired.value then [UpdateDefaultLbvserver(cs, desired.value)]
      else []
    else if existing.Some? then [DeleteDefaultLbvserver(cs)]
    else []
  }

  /** At most one edge call, and none exactly when the edge is already the
      declared one. */
  lemma DefaultEdgeCalls(cs: string, existing: Option<string>, desired: Option<string>)
    ensures |DefaultEdgeOps(cs, existing, desired)| <= 1
    ensures DefaultEdgeOps(cs, existing, desired) == [] <==> existing == desired
  {
  }

  /** When the edge call is accepted on an existing csvserver, its default
      lbvserver is the declared one, or none when none is declared; nothing
      but that edge changes. */
  lemma DefaultEdgeConverges(s: State, cs: string, desired: Option<string>)
    requires cs in s.csvservers
    ensures var r := ApplyAll(s, DefaultEdgeOps(cs, Get(s.defaultLbvserver, cs), desired));
            && Get(r.defaultLbvserver, cs) == desired
            && r == s.(defaultLbvserver := r.defaultLbvserver)
            && forall n :: n != cs ==> Get(r.defaultLbvserver, n) == Get(s.defaultLbvserver, n)
  {
    var existing := Get(s.defaultLbvserver, cs);
    var ops := DefaultEdgeOps(cs, existing, desired);
    DefaultEdgeCalls(cs, existing, desired);
    if ops == [] {
      assert ApplyAll(s, ops) == s;
    } else {
      ApplyAllOne(s, ops[0]);
      var edges := if desired.Some? then s.defaultLbvserver[cs := desired.value] else s.defaultLbvserver - {cs};
      assert Apply(s, ops[0]) == s.(defaultLbvserver := edges);
    }
  }

  // ---------------------------------------------------------------------
  // The policy bindings

  /** The inner loop over the fetched bindings in one round
      (apply_netscaler_state.py:1269-1282), `p` being the policy name and
      priority of that round's entry: every fetched binding that differs
      from `p` in either is unbound, whatever other entry it matches. */
  function UnbindRound(cs: string, obs: seq<PolicyBinding>, p: PolicyBinding): seq<Op>
    decreases |obs|
  {
    if obs == [] then []
    else
      var e := obs[|obs| - 1];
      UnbindRound(cs, obs[..|obs| - 1], p) + (if e == p then [] else [UnbindPolicy(cs, e)])
  }

  /** Whether the round's entry `k` was among the fetched bindings, which
      marks it `existing`. */
  predicate Fetched(es: seq<PolicyEntry>, k: nat, fetched: Option<seq<PolicyBinding>>)
    requires k < |es|
  {
    fetched.Some? && EntryBinding(es[k]) in fetched.value
  }

  /** Whether entry `j` carries the `existing` marker in the second inner
      loop of round `k`: the first round sees the markers the entries came
      with, every later one only the marker its own entry got, since each
      round pops all of them. */
  predicate Flagged(es: seq<PolicyEntry>, j: nat, k: nat, found: bool)
    requires j < |es|
  {
    (found && j == k) || (k == 0 && es[j].existing)
  }

  /** The second inner loop of round `k` over the first `n` entries
      (apply_netscaler_state.py:1284-1296): every entry not marked is
      bound. */
  function BindRound(cs: string, es: seq<PolicyEntry>, k: nat, found: bool, n: nat): seq<Op>
    requires n <= |es|
    decreases n
  {
    if n == 0 then []
    else
      BindRound(cs, es, k, found, n - 1)
        + (if Flagged(es, n - 1, k, found) then [] else [BindPolicy(cs, EntryBinding(es[n - 1]))])
  }

  /** The calls of round `k` of the outer loop over the entries. */
  function RoundOps(cs: string, es: seq<PolicyEntry>, k: nat, fetched: Option<seq<PolicyBinding>>): seq<Op>
    requires k < |es|
  {
    (if fetched.Some? then UnbindRound(cs, fetched.value, EntryBinding(es[k])) else [])
      + BindRound(cs, es, k, Fetched(es, k, fetched), |es|)
  }

  /** The calls of the first `n` rounds, against the one fetch `fetched`. */
  function Rounds(cs: string, es: seq<PolicyEntry>, fetched: Option<seq<PolicyBinding>>, n: nat): seq<Op>
    requires n <= |es|
    decreases n
  {
    if n == 0 then [] else Rounds(cs, es, fetched, n - 1) + RoundOps(cs, es, n - 1, fetched)
  }

  /** The calls of the policy loop (apply_netscaler_state.py:1260-1296). */
  function PolicyOps(cs: string, es: seq<PolicyEntry>, fetched: Option<seq<PolicyBinding>>): seq<Op> {
    Rounds(cs, es, fetched, |es|)
  }

  /** The entries with every marker popped. */
  function Cleared(es: seq<PolicyEntry>): (r: seq<PolicyEntry>)
    ensures |r| == |es|
    ensures forall j :: 0 <= j < |r| ==> r[j] == es[j].(existing := false)
  {
    seq(|es|, i requires 0 <= i < |es| => es[i].(existing := false))
  }

  /** The entries as round `k` starts. */
  function RoundStart(es: seq<PolicyEntry>, k: nat): seq<PolicyEntry> {
    if k == 0 then es else Cleared(es)
  }

  /** The entries as the second inner loop of round `k` starts. */
  ghost predicate FlagsAre(cur: seq<PolicyEntry>, es: seq<PolicyEntry>, k: nat, found: bool) {
    && |cur| == |es| && k < |es|
    && forall j :: 0 <= j < |es| ==> cur[j] == es[j].(existing := Flagged(es, j, k, found))
  }

  /** No entry carries a marker, as every entry the csvserver schema admits. */
  predicate Unmarked(es: seq<PolicyEntry>) {
    forall i :: 0 <= i < |es| ==> !es[i].existing
  }

  lemma {:induction false} UnbindRoundContents(cs: string, obs: seq<PolicyBinding>, p: PolicyBinding)
    ensures forall op :: op in UnbindRound(cs, obs, p) ==> op.UnbindPolicy? && op.csvserverName == cs
    ensures forall e :: UnbindPolicy(cs, e) in UnbindRound(cs, obs, p) <==> e in obs && e != p
    decreases |obs|
  {
    if obs != [] {
      var front := obs[..|obs| - 1];
      UnbindRoundContents(cs, front, p);
      assert obs == front + [obs[|obs| - 1]];
    }
  }

  /** A round binds at most every entry, and every entry when none is
      flagged. */
  lemma {:induction false} BindRoundLength(cs: string, es: seq<PolicyEntry>, k: nat, found: bool, n: nat)
    requires n <= |es|
    ensures |BindRound(cs, es, k, found, n)| <= n
    ensures (forall j :: 0 <= j < n ==> !Flagged(es, j, k, found)) ==> |BindRound(cs, es, k, found, n)| == n
    decreases n
  {
    if n > 0 {
      BindRoundLength(cs, es, k, found, n - 1);
    }
  }

  lemma {:induction false} BindRoundContents(cs: string, es: seq<PolicyEntry>, k: nat, found: bool, n: nat)
    requires n <= |es|
    ensures forall op :: op in BindRound(cs, es, k, found, n) ==> op.BindPolicy? && op.csvserverName == cs
    ensures forall p :: BindPolicy(cs, p) in BindRound(cs, es, k, found, n) <==>
                          exists j :: 0 <= j < n && !Flagged(es, j, k, found) && p == EntryBinding(es[j])
    decreases n
  {
    if n > 0 {
      BindRoundContents(cs, es, k, found, n - 1);
      forall p | BindPolicy(cs, p) in BindRound(cs, es, k, found, n)
        ensures exists j :: 0 <= j < n && !Flagged(es, j, k, found) && p == EntryBinding(es[j])
      {
        if BindPolicy(cs, p) !in BindRound(cs, es, k, found, n - 1) {
          assert !Flagged(es, n - 1, k, found) && p == EntryBinding(es[n - 1]);
        }
      }
    }
  }

  /** The calls of one round after a successful fetch (in the first round
      the entries carry no marker): a fetched binding is unbound exactly when
      it differs from the round's entry, every other entry is bound, and the
      round's own entry is bound when it was not fetched or another entry
      has the same policy name and priority. */
  lemma RoundCalls(cs: string, es: seq<PolicyEntry>, k: nat, obs: seq<PolicyBinding>)
    requires k < |es| && (k > 0 || Unmarked(es))
    ensures var ops := RoundOps(cs, es, k, Some(obs));
            && (forall op :: op in ops ==> (op.UnbindPolicy? || op.BindPolicy?) && op.csvserverName == cs)
            && (forall e :: UnbindPolicy(cs, e) in ops <==> e in obs && e != EntryBinding(es[k]))
            && (forall j :: 0 <= j < |es| && j != k ==> BindPolicy(cs, EntryBinding(es[j])) in ops)
            && (BindPolicy(cs, EntryBinding(es[k])) in ops <==>
                  EntryBinding(es[k]) !in obs || exists j :: 0 <= j < |es| && j != k && EntryBinding(es[j]) == EntryBinding(es[k]))
  {
    var found := Fetched(es, k, Some(obs));
    UnbindRoundContents(cs, obs, EntryBinding(es[k]));
    BindRoundContents(cs, es, k, found, |es|);
    assert forall j :: 0 <= j < |es| ==> (Flagged(es, j, k, found) <==> found && j == k);
    forall j | 0 <= j < |es| && j != k
      ensures BindPolicy(cs, EntryBinding(es[j])) in RoundOps(cs, es, k, Some(obs))
    {
      assert !Flagged(es, j, k, found);
    }
    if !found {
      assert !Flagged(es, k, k, found);
    }
  }

  /** A failed fetch: every round binds every entry again, so n rounds over
      the entries give n times as many calls as entries ... */
  lemma {:induction false} FailedFetchRebinds(cs: string, es: seq<PolicyEntry>, n: nat)
    requires Unmarked(es) && n <= |es|
    ensures |Rounds(cs, es, None, n)| == n * |es|
    decreases n
  {
    if n > 0 {
      FailedFetchRebinds(cs, es, n - 1);
      var front := Rounds(cs, es, None, n - 1);
      var last := BindRound(cs, es, n - 1, false, |es|);
      BindRoundLength(cs, es, n - 1, false, |es|);
      assert RoundOps(cs, es, n - 1, None) == last;
      assert Rounds(cs, es, None, n) == front + last;
      assert |Rounds(cs, es, None, n)| == (n - 1) * |es| + |es| == n * |es|;
    }
  }

  /** ... and every one of them binds a declared entry: nothing is unbound. */
  lemma FailedFetchOnlyBinds(cs: string, es: seq<PolicyEntry>, n: nat)
    requires n <= |es|
    ensures forall op :: op in Rounds(cs, es, None, n) ==>
              exists j :: 0 <= j < |es| && op == BindPolicy(cs, EntryBinding(es[j]))
    decreases n
  {
    if n > 0 {
      FailedFetchOnlyBinds(cs, es, n - 1);
      var front := Rounds(cs, es, None, n - 1);
      var last := BindRound(cs, es, n - 1, false, |es|);
      BindRoundContents(cs, es, n - 1, false, |es|);
      assert Rounds(cs, es, None, n) == front + last;
    }
  }

  /** No entries, no calls: bindings on the csvserver survive an empty
      `policy_bindings` list. */
  lemma NoEntriesNoCalls(cs: string, obs: seq<PolicyBinding>)
    ensures PolicyOps(cs, [], Some(obs)) == []
    ensures forall e :: e in obs ==> UnbindPolicy(cs, e) !in PolicyOps(cs, [], Some(obs))
  {
  }

  /** The calls of the first rounds come first. */
  lemma RoundsPrefix(cs: string, es: seq<PolicyEntry>, fetched: Option<seq<PolicyBinding>>, m: nat, n: nat)
    requires m <= n <= |es|
    ensures Rounds(cs, es, fetched, m) <= Rounds(cs, es, fetched, n)
    decreases n
  {
    if m < n {
      RoundsPrefix(cs, es, fetched, m, n - 1);
    }
  }

  /** The loop is not idempotent: with two entries whose bindings are both
      already there, the first round unbinds the second entry's binding, and
      binds it again. */
  lemma NotIdempotent(cs: string, es: seq<PolicyEntry>, obs: seq<PolicyBinding>)
    requires |es| >= 2 && Unmarked(es)
    requires EntryBinding(es[1]) in obs && EntryBinding(es[1]) != EntryBinding(es[0])
    ensures UnbindPolicy(cs, EntryBinding(es[1])) in PolicyOps(cs, es, Some(obs))
    ensures BindPolicy(cs, EntryBinding(es[1])) in PolicyOps(cs, es, Some(obs))
  {
    RoundCalls(cs, es, 0, obs);
    RoundsPrefix(cs, es, Some(obs), 1, |es|);
    assert Rounds(cs, es, Some(obs), 1) == RoundOps(cs, es, 0, Some(obs));
  }

  // ---------------------------------------------------------------------
  // The reconciler

  /** The first inner loop of a round, against the round entry's policy
      name and priority `p`. */
  method UnbindUnmatched(app: Appliance, cs: string, obs: seq<PolicyBinding>, p: PolicyBinding)
    returns (ok: bool, found: bool)
    requires app.Valid()
    modifies app
    ensures app.Valid() && app.fetches == old(app.fetches)
    ensures app.trace == old(app.trace) + UnbindRound(cs, obs, p)
    ensures found == (p in obs)
    ensures ok == app.AllAccepted(|old(app.trace)|, |app.trace|)
  {
    ok, found := true, false;
    var i := 0;
    while i < |obs|
      invariant 0 <= i <= |obs|
      invariant app.Valid() && app.fetches == old(app.fetches)
      invariant app.Made(old(app.trace), UnbindRound(cs, obs[..i], p), ok)
      invariant found == (p in obs[..i])
    {
      assert obs[..i + 1][..i] == obs[..i];
      assert obs[..i + 1] == obs[..i] + [obs[i]];
      assert UnbindRound(cs, obs[..i + 1], p) == UnbindRound(cs, obs[..i], p) + (if obs[i] == p then [] else [UnbindPolicy(cs, obs[i])]);
      // same policy name and same priority
      if obs[i] == p {
        found := true;
      } else {
        ok := app.InvokeIn(old(app.trace), UnbindRound(cs, obs[..i], p), ok, UnbindPolicy(cs, obs[i]));
      }
      i := i + 1;
    }
    assert obs[..|obs|] == obs;
  }

  /** The first inner loop of round `k`, run only when the fetch succeeded;
      the round's entry comes out marked when it was fetched. */
  method UnbindForRound(app: Appliance, cs: string, es: seq<PolicyEntry>, k: nat, fetched: Option<seq<PolicyBinding>>,
                        cur: seq<PolicyEntry>)
    returns (ok: bool, marked: seq<PolicyEntry>)
    requires app.Valid() && k < |es| && cur == RoundStart(es, k)
    modifies app
    ensures app.Valid() && app.fetches == old(app.fetches)
    ensures app.trace == old(app.trace) + (if fetched.Some? then UnbindRound(cs, fetched.value, EntryBinding(es[k])) else [])
    ensures FlagsAre(marked, es, k, Fetched(es, k, fetched))
    ensures ok == app.AllAccepted(|old(app.trace)|, |app.trace|)
  {
    ok, marked := true, cur;
    assert EntryBinding(cur[k]) == EntryBinding(es[k]);
    if fetched.Some? {
      var found;
      ok, found := UnbindUnmatched(app, cs, fetched.value, EntryBinding(cur[k]));
      if found {
        marked := cur[k := cur[k].(existing := true)];
      }
    } else {
      assert app.trace == old(app.trace) + [];
    }
  }

  /** The second inner loop has popped the markers of the first `j`
      entries and left the rest as they were. */
  ghost predicate PoppedUpTo(entries: seq<PolicyEntry>, es: seq<PolicyEntry>, cur: seq<PolicyEntry>, j: nat) {
    && j <= |es| && |entries| == |es| && |cur| == |es|
    && (forall i :: 0 <= i < j ==> entries[i] == es[i].(existing := false))
    && (forall i :: j <= i < |es| ==> entries[i] == cur[i])
  }

  /** Entry `j` leaves the loop without its marker, whether it was popped
      or carried none. */
  lemma PoppedStep(entries: seq<PolicyEntry>, es: seq<PolicyEntry>, cur: seq<PolicyEntry>, j: nat, entries': seq<PolicyEntry>)
    requires PoppedUpTo(entries, es, cur, j) && j < |es|
    requires cur[j] == es[j].(existing := cur[j].existing)
    requires entries' == entries[j := entries[j].(existing := false)] || (!entries[j].existing && entries' == entries)
    ensures PoppedUpTo(entries', es, cur, j + 1)
  {
    assert entries'[j] == es[j].(existing := false);
    forall i | 0 <= i < |es| && i != j
      ensures entries'[i] == entries[i]
    {
    }
  }

  /** The second inner loop of round `k`: unmarked entries are bound,
      marked ones popped. */
  method BindUnmarked(app: Appliance, cs: string, es: seq<PolicyEntry>, k: nat, found: bool, cur: seq<PolicyEntry>)
    returns (ok: bool, entries: seq<PolicyEntry>)
    requires app.Valid() && FlagsAre(cur, es, k, found)
    modifies app
    ensures app.Valid() && app.fetches == old(app.fetches)
    ensures app.trace == old(app.trace) + BindRound(cs, es, k, found, |es|)
    ensures entries == Cleared(es)
    ensures ok == app.AllAccepted(|old(app.trace)|, |app.trace|)
  {
    entries := cur;
    ok := true;
    var j := 0;
    while j < |es|
      invariant 0 <= j <= |es| && |entries| == |es|
      invariant app.Valid() && app.fetches == old(app.fetches)
      invariant PoppedUpTo(entries, es, cur, j)
      invariant app.Made(old(app.trace), BindRound(cs, es, k, found, j), ok)
    {
      assert entries[j] == es[j].(existing := Flagged(es, j, k, found));
      assert EntryBinding(entries[j]) == EntryBinding(es[j]);
      ghost var old_entries := entries;
      if !entries[j].existing {
        ok := app.InvokeIn(old(app.trace), BindRound(cs, es, k, found, j), ok, BindPolicy(cs, EntryBinding(entries[j])));
      } else {
        entries := entries[j := entries[j].(existing := false)];
      }
      PoppedStep(old_entries, es, cur, j, entries);
      j := j + 1;
    }
  }

  lemma ClearedTwice(es: seq<PolicyEntry>)
    ensures Cleared(Cleared(es)) == Cleared(es)
  {
  }

  /** One round of the outer loop, for the entry at index `k`. */
  method PolicyRound(app: Appliance, cs: string, es: seq<PolicyEntry>, k: nat, fetched: Option<seq<PolicyBinding>>,
                     cur: seq<PolicyEntry>)
    returns (ok: bool, entries: seq<PolicyEntry>)
    requires app.Valid() && k < |es| && cur == RoundStart(es, k)
    modifies app
    ensures app.Valid() && app.fetches == old(app.fetches)
    ensures app.trace == old(app.trace) + RoundOps(cs, es, k, fetched)
    ensures entries == Cleared(es)
    ensures ok == app.AllAccepted(|old(app.trace)|, |app.trace|)
  {
    var removed, marked := UnbindForRound(app, cs, es, k, fetched, cur);
    ghost var t1 := app.trace;
    var added;
    added, entries := BindUnmarked(app, cs, es, k, Fetched(es, k, fetched), marked);
    TraceAppend(old(app.trace), t1, app.trace, if fetched.Some? then UnbindRound(cs, fetched.value, EntryBinding(es[k])) else [],
                BindRound(cs, es, k, Fetched(es, k, fetched), |es|));
    app.AcceptedSplit(|old(app.trace)|, |t1|, |app.trace|);
    ok := removed && added;
  }

  /** The outer loop over the entries, against the one fetch `fetched`:
      once all rounds ran it has made the calls of PolicyOps, `ok` says
      whether all were accepted, and the entries have their markers
      popped. */
  method PolicyLoop(app: Appliance, cs: string, es: seq<PolicyEntry>, fetched: Option<seq<PolicyBinding>>)
    returns (ok: bool, entries: seq<PolicyEntry>)
    requires app.Valid()
    modifies app
    ensures app.Valid() && app.fetches == old(app.fetches)
    ensures PolicyLoopAt(app, old(app.trace), cs, es, fetched, |es|, ok, entries)
  {
    entries := es;
    ok := true;
    var k := 0;
    assert app.trace == old(app.trace) + [];
    while k < |es|
      invariant 0 <= k <= |es|
      invariant app.Valid() && app.fetches == old(app.fetches)
      invariant PolicyLoopAt(app, old(app.trace), cs, es, fetched, k, ok, entries)
    {
      ok, entries := PolicyStep(app, cs, es, fetched, k, old(app.trace), ok, entries);
      k := k + 1;
    }
  }

  /** The policy loop started at trace `t0` has run its first `k` rounds:
      it made their calls, `ok` says whether all were accepted, and
      `entries` is as round `k` starts. */
  ghost predicate PolicyLoopAt(app: Appliance, t0: seq<Op>, cs: string, es: seq<PolicyEntry>,
                               fetched: Option<seq<PolicyBinding>>, k: nat, ok: bool, entries: seq<PolicyEntry>)
    reads app
  {
    && k <= |es| && |t0| <= |app.trace|
    && entries == RoundStart(es, k)
    && app.trace == t0 + Rounds(cs, es, fetched, k)
    && ok == app.AllAccepted(|t0|, |app.trace|)
  }

  /** One iteration of the policy loop. */
  method PolicyStep(app: Appliance, cs: string, es: seq<PolicyEntry>, fetched: Option<seq<PolicyBinding>>, k: nat,
                    ghost t0: seq<Op>, ok0: bool, cur: seq<PolicyEntry>)
    returns (ok: bool, entries: seq<PolicyEntry>)
    requires app.Valid() && k < |es| && PolicyLoopAt(app, t0, cs, es, fetched, k, ok0, cur)
    modifies app
    ensures app.Valid() && app.fetches == old(app.fetches)
    ensures PolicyLoopAt(app, t0, cs, es, fetched, k + 1, ok, entries)
  {
    ghost var t1 := app.trace;
    var round;
    round, entries := PolicyRound(app, cs, es, k, fetched, cur);
    app.AcceptedSplit(|t0|, |t1|, |app.trace|);
    TraceAppend(t0, t1, app.trace, Rounds(cs, es, fetched, k), RoundOps(cs, es, k, fetched));
    ok := ok0 && round;
  }

  /** The default edge: the helpers catch every NSNitroError, so the calls'
      outcomes are not reported. */
  method EnsureDefaultEdge(app: Appliance, cs: string, desired: Option<string>)
    requires app.Valid()
    modifies app
    ensures app.Valid() && app.fetches == old(app.fetches)
    ensures app.trace == old(app.trace) + DefaultEdgeOps(cs, Get(old(app.config).defaultLbvserver, cs), desired)
  {
    var existing := app.GetDefaultLbvserver(cs);
    SetDefaultEdge(app, cs, existing, desired);
  }

  /** The branches of the edge once the existing edge is known. */
  method SetDefaultEdge(app: Appliance, cs: string, existing: Option<string>, desired: Option<string>)
    requires app.Valid()
    modifies app
    ensures app.Valid() && app.fetches == old(app.fetches)
    ensures app.trace == old(app.trace) + DefaultEdgeOps(cs, existing, desired)
  {
    if desired.Some? {
      if existing.None? {
        var _ := app.Invoke(AddDefaultLbvserver(cs, desired.value));
      } else if existing.value != desired.value {
        var _ := app.Invoke(UpdateDefaultLbvserver(cs, desired.value));
      }
    } else if existing.Some? {
      var _ := app.Invoke(DeleteDefaultLbvserver(cs));
    }
  }

  /** The policy fetch, `n` being its number: NSNitroError (None) when the
      read fails or there is no csvserver of that name. */
  ghost function PolicyFetch(app: Appliance, t: seq<Op>, n: nat, cs: string): Option<seq<PolicyBinding>> {
    if n in app.fetchFails || cs !in app.At(t).csvservers then None else Some(PolicyBindingsOf(app.At(t), cs))
  }

  /** The address-only delete, or the name-match branches. */
  method CsMatchPhase(app: Appliance, m: Matches<Vserver>, c: VserverConf) returns (ok: bool)
    requires app.Valid()
    modifies app
    ensures app.Valid() && app.fetches == old(app.fetches)
    ensures app.trace == old(app.trace) + CsMatchOps(m, c)
    ensures ok == app.AllAccepted(|old(app.trace)|, |app.trace|)
  {
    if m.byName.Some? {
      ok := ActOnNameMatch(app, CsvserverKind, m, c);
    } else if m.byAddress.Some? {
      ok := app.Invoke(Delete(CsvserverKind, m.byAddress.value.name));
    } else {
      ok := true;
    }
  }

  /** The trace once the match phase and the replace rule of an entry have
      run from trace `t` against `listing`. */
  ghost function ThroughReplace(app: Appliance, t: seq<Op>, v: VserverConf, listing: seq<Vserver>): seq<Op> {
    var t1 := t + CsMatchOps(MatchesFound(listing, VserverBucket(v)), v);
    t1 + ReplaceOps(CsvserverKind, Get(app.At(t1).csvservers, v.name), v)
  }

  /** The trace once the default edge has been set as well. */
  ghost function ThroughEdge(app: Appliance, t: seq<Op>, c: CsvserverConf, listing: seq<Vserver>): seq<Op> {
    var t2 := ThroughReplace(app, t, c.vserver, listing);
    t2 + DefaultEdgeOps(c.vserver.name, Get(app.At(t2).defaultLbvserver, c.vserver.name), c.defaultLbvserver)
  }

  /** `o` is the entry `c` once its run is over: the policy loop pops every
      `existing` marker and changes nothing else. */
  predicate PoppedFrom(o: CsvserverConf, c: CsvserverConf) {
    && o.vserver == c.vserver && o.defaultLbvserver == c.defaultLbvserver
    && |o.policyBindings| == |c.policyBindings|
    && forall i :: 0 <= i < |c.policyBindings| ==> o.policyBindings[i] == c.policyBindings[i].(existing := false)
  }

  /** Every marker the loop sets it also pops: an entry without markers
      comes back as it was. */
  lemma PoppedUnmarked(o: CsvserverConf, c: CsvserverConf)
    requires Unmarked(c.policyBindings) && PoppedFrom(o, c)
    ensures o == c
  {
    assert o.policyBindings == c.policyBindings;
  }

  /** The record of one entry's run: the trace it starts from, the number
      of its policy fetch, the entry, the listing it matched against, what
      its fetch returned and the trace it leaves. */
  datatype CsRun = CsRun(start: seq<Op>, fetch: nat, conf: CsvserverConf, listing: seq<Vserver>,
                         fetched: Option<seq<PolicyBinding>>, end: seq<Op>)

  /** A run as ensure_csvserver_state performs it: the match phase, the
      replace rule, the edge and the policy loop, each against the
      configuration the previous one left. */
  ghost predicate CsStep(app: Appliance, r: CsRun) {
    var t3 := ThroughEdge(app, r.start, r.conf, r.listing);
    && Lists(app.At(r.start).csvservers, r.listing, VserverName)
    && r.fetched == PolicyFetch(app, t3, r.fetch, r.conf.vserver.name)
    && r.end == t3 + PolicyOps(r.conf.vserver.name, r.conf.policyBindings, r.fetched)
  }

  /** The entries the policy loop leaves are the entry with its markers
      popped. */
  lemma LoopPops(c: CsvserverConf, entries: seq<PolicyEntry>)
    requires entries == RoundStart(c.policyBindings, |c.policyBindings|)
    ensures PoppedFrom(c.(policyBindings := entries), c)
  {
    if |c.policyBindings| == 0 {
      assert entries == [];
    }
  }

  /** ensure_csvserver_state (apply_netscaler_state.py:1121-1299): the
      result reports the match phase, the replace rule and the policy loop;
      the edge calls do not count towards it. */
  method EnsureCsvserverState(app: Appliance, c: CsvserverConf)
    returns (ok: bool, out: CsvserverConf, ghost run: CsRun)
    requires app.Valid()
    modifies app
    ensures app.Valid() && app.fetches == old(app.fetches) + 1
    ensures run.start == old(app.trace) && run.fetch == old(app.fetches) && run.conf == c && run.end == app.trace
    ensures CsStep(app, run)
    ensures PoppedFrom(out, c)
    ensures ok == (&& app.AllAccepted(|old(app.trace)|, |ThroughReplace(app, old(app.trace), c.vserver, run.listing)|)
                   && app.AllAccepted(|ThroughEdge(app, old(app.trace), c, run.listing)|, |app.trace|))
  {
    var v := c.vserver;
    ghost var t0, n := app.trace, app.fetches;
    var replaced;
    ghost var all;
    replaced, all := CsvserverObject(app, c);
    ghost var t3 := app.trace;
    assert app.config == app.At(t3);
    var got := app.FetchPolicyBindings(v.name);
    var polled, entries := PolicyLoop(app, v.name, c.policyBindings, got);
    out := c.(policyBindings := entries);
    LoopPops(c, entries);
    assert got == PolicyFetch(app, t3, n, v.name);
    assert app.trace == t3 + PolicyOps(v.name, c.policyBindings, got);
    run := CsRun(t0, n, c, all, got, app.trace);
    ok := replaced && polled;
  }

  /** The steps of ensure_csvserver_state before the policy fetch: the
      match phase, the replace rule and the default edge. */
  method CsvserverObject(app: Appliance, c: CsvserverConf) returns (ok: bool, ghost all: seq<Vserver>)
    requires app.Valid()
    modifies app
    ensures app.Valid() && app.fetches == old(app.fetches)
    ensures Lists(old(app.config).csvservers, all, VserverName)
    ensures app.trace == ThroughEdge(app, old(app.trace), c, all)
    ensures ok == app.AllAccepted(|old(app.trace)|, |ThroughReplace(app, old(app.trace), c.vserver, all)|)
  {
    var v := c.vserver;
    ghost var t0 := app.trace;
    assert app.config == app.At(app.trace);
    var listing := app.ListVservers(CsvserverKind);
    all := listing;
    var m := FindMatches(listing, VserverBucket(v));
    var matched := CsMatchPhase(app, m, v);
    ghost var t1 := app.trace;
    assert app.config == app.At(t1);
    var replaced := ReplaceVserver(app, CsvserverKind, v);
    ghost var t2 := app.trace;
    assert t2 == ThroughReplace(app, t0, v, all);
    assert app.config == app.At(t2);
    EnsureDefaultEdge(app, v.name, c.defaultLbvserver);
    app.AcceptedSplit(|t0|, |t1|, |t2|);
    ok := matched && replaced;
  }

  // ---------------------------------------------------------------------
  // The section

  function CsNames(cs: seq<CsvserverConf>): seq<string> {
    seq(|cs|, i requires 0 <= i < |cs| => cs[i].vserver.name)
  }

  function DeclaredCsvservers(conf: Option<seq<CsvserverConf>>): Option<seq<string>> {
    if conf.Some? then Some(CsNames(conf.value)) else None
  }

  /** The trace the runs so far leave, `t0` if there were none. */
  function EndOf(runs: seq<CsRun>, t0: seq<Op>): seq<Op> {
    if |runs| == 0 then t0 else runs[|runs| - 1].end
  }

  /** `runs[j]` records the run of entry `j` of the first loop, which
      starts where the previous one ended and makes fetch number `n0 + j`;
      `out[j]` is the entry it leaves behind. */
  ghost predicate Ran(app: Appliance, confs: seq<CsvserverConf>, n0: nat, t0: seq<Op>, runs: seq<CsRun>,
                      out: seq<CsvserverConf>, j: nat)
  {
    && j < |confs| && j < |runs| && j < |out|
    && runs[j].start == EndOf(runs[..j], t0) && runs[j].fetch == n0 + j && runs[j].conf == confs[j]
    && CsStep(app, runs[j])
    && PoppedFrom(out[j], confs[j])
  }

  /** Recording one more run leaves the earlier records as they were. */
  lemma RanExtends(app: Appliance, confs: seq<CsvserverConf>, n0: nat, t0: seq<Op>, runs: seq<CsRun>,
                   out: seq<CsvserverConf>, r: CsRun, o: CsvserverConf)
    requires |runs| == |out| < |confs|
    requires forall j :: 0 <= j < |runs| ==> Ran(app, confs, n0, t0, runs, out, j)
    requires r.start == EndOf(runs, t0) && r.fetch == n0 + |runs| && r.conf == confs[|runs|]
    requires CsStep(app, r) && PoppedFrom(o, confs[|runs|])
    ensures forall j :: 0 <= j <= |runs| ==> Ran(app, confs, n0, t0, runs + [r], out + [o], j)
  {
    var rs, os := runs + [r], out + [o];
    forall j | 0 <= j <= |runs|
      ensures Ran(app, confs, n0, t0, rs, os, j)
    {
      assert rs[..j] == runs[..j];
      if j < |runs| {
        assert Ran(app, confs, n0, t0, runs, out, j);
        assert rs[j] == runs[j] && os[j] == out[j];
      } else {
        assert rs[j] == r && os[j] == o && runs[..j] == runs;
      }
    }
  }

  /** The first loop of ensure_csvservers_state: every entry in turn,
      results ignored. */
  method RunCsEntries(app: Appliance, confs: seq<CsvserverConf>)
    returns (out: seq<CsvserverConf>, ghost runs: seq<CsRun>)
    requires app.Valid()
    modifies app
    ensures app.Valid() && app.fetches == old(app.fetches) + |confs|
    ensures |runs| == |confs| && |out| == |confs| && app.trace == EndOf(runs, old(app.trace))
    ensures forall j :: 0 <= j < |confs| ==> Ran(app, confs, old(app.fetches), old(app.trace), runs, out, j)
  {
    out, runs := [], [];
    while |out| < |confs|
      invariant app.Valid() && app.fetches == old(app.fetches) + |out|
      invariant |runs| == |out| <= |confs| && app.trace == EndOf(runs, old(app.trace))
      invariant forall j :: 0 <= j < |runs| ==> Ran(app, confs, old(app.fetches), old(app.trace), runs, out, j)
      decreases |confs| - |out|
    {
      var ok, o, r := EnsureCsvserverState(app, confs[|out|]);
      RanExtends(app, confs, old(app.fetches), old(app.trace), runs, out, r, o);
      out, runs := out + [o], runs + [r];
    }
  }

  /** A run of ensure_csvservers_state from trace `t0` and fetch count `f0`
      to trace `t'` and fetch count `f'`: entry j made run `runs[j]`,
      leaving `Entries(out)[j]`, then the collection listed `names` and
      deleted the undeclared ones; `ok` says whether every delete was
      accepted. */
  ghost predicate CsSectionRan(app: Appliance, conf: Option<seq<CsvserverConf>>, t0: seq<Op>, f0: nat, ok: bool,
                               out: Option<seq<CsvserverConf>>, runs: seq<CsRun>, names: seq<string>,
                               t': seq<Op>, f': nat)
  {
    && f' == f0 + |Entries(conf)|
    && out.Some? == conf.Some? && |Entries(out)| == |Entries(conf)| && |runs| == |Entries(conf)|
    && (forall j :: 0 <= j < |Entries(conf)| ==> Ran(app, Entries(conf), f0, t0, runs, Entries(out), j))
    && var gc := EndOf(runs, t0);
       && NameListing(ObjectNames(app.At(gc), CsvserverKind), names)
       && t' == gc + Deletes(CsvserverKind, Undeclared(names, DeclaredCsvservers(conf)))
       && ok == app.AllAccepted(|gc|, |t'|)
  }

  /** ensure_csvservers_state (apply_netscaler_state.py:989-1031): the
      per-entry runs, then the collection of undeclared csvservers; only its
      deletes decide the result. */
  method EnsureCsvserversState(app: Appliance, conf: Option<seq<CsvserverConf>>)
    returns (ok: bool, out: Option<seq<CsvserverConf>>, ghost runs: seq<CsRun>, ghost names: seq<string>)
    requires app.Valid()
    modifies app
    ensures app.Valid()
    ensures CsSectionRan(app, conf, old(app.trace), old(app.fetches), ok, out, runs, names, app.trace, app.fetches)
  {
    var entries;
    entries, runs := RunCsEntries(app, Entries(conf));
    out := if conf.Some? then Some(entries) else None;
    assert app.config == app.At(app.trace);
    ok, names := CollectUndeclared(app, CsvserverKind, DeclaredCsvservers(conf));
  }
}
