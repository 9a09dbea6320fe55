/** Runs one after the other on a sequence of appliances, where two entries
    of the sequence may be the same appliance: both versions of `main`
    connect to each group's `ns_instance` in turn, and two groups may name
    the same instance. A run continues from wherever the last earlier run on
    its appliance left it. */
module ApplianceRuns {
  import opened NitroTypes
  import opened ApplianceModel

  /** Where one run started, in trace and fetch count, and where it ended. */
  datatype Span = Span(t0: seq<Op>, f0: nat, t': seq<Op>, f': nat)

  /** The trace of every appliance. */
  ghost function TracesOf(apps: seq<Appliance>): (r: seq<seq<Op>>)
    reads apps
    ensures |r| == |apps| && forall i :: 0 <= i < |apps| ==> r[i] == apps[i].trace
  {
    seq(|apps|, i reads apps requires 0 <= i < |apps| => apps[i].trace)
  }

  /** The fetch count of every appliance. */
  ghost function FetchesOf(apps: seq<Appliance>): (r: seq<nat>)
    reads apps
    ensures |r| == |apps| && forall i :: 0 <= i < |apps| ==> r[i] == apps[i].fetches
  {
    seq(|apps|, i reads apps requires 0 <= i < |apps| => apps[i].fetches)
  }

  /** The position of the last of the first `k` appliances that is `a`, or
      -1 when none is. */
  function LastUse(apps: seq<Appliance>, a: Appliance, k: nat): (p: int)
    requires k <= |apps|
    ensures -1 <= p < k
    ensures p >= 0 ==> apps[p] == a && forall i :: p < i < k ==> apps[i] != a
    ensures p < 0 ==> forall i :: 0 <= i < k ==> apps[i] != a
    decreases k
  {
    if k == 0 then -1 else if apps[k - 1] == a then k - 1 else LastUse(apps, a, k - 1)
  }

  /** Run j started where the last earlier run on the same appliance ended,
      or, when there was none, from that appliance's trace `t0s[j]` and
      fetch count `f0s[j]` on entry. */
  ghost predicate SpansChained(apps: seq<Appliance>, spans: seq<Span>, t0s: seq<seq<Op>>, f0s: seq<nat>) {
    && |spans| <= |apps| == |t0s| == |f0s|
    && forall j {:trigger LastUse(apps, apps[j], j)} :: 0 <= j < |spans| ==>
         var p := LastUse(apps, apps[j], j);
         if p < 0 then spans[j].t0 == t0s[j] && spans[j].f0 == f0s[j]
         else spans[j].t0 == spans[p].t' && spans[j].f0 == spans[p].f'
  }

  /** Every appliance, whose traces are `traces` and fetch counts
      `fetches`, is where the last run on it ended, or, when no run used
      it, as it was on entry. */
  ghost predicate EndsAsSpans(apps: seq<Appliance>, spans: seq<Span>, traces: seq<seq<Op>>, fetches: seq<nat>,
                              t0s: seq<seq<Op>>, f0s: seq<nat>)
  {
    && |spans| <= |apps| == |traces| == |fetches| == |t0s| == |f0s|
    && forall i {:trigger LastUse(apps, apps[i], |spans|)} :: 0 <= i < |apps| ==>
         var p := LastUse(apps, apps[i], |spans|);
         if p < 0 then traces[i] == t0s[i] && fetches[i] == f0s[i]
         else traces[i] == spans[p].t' && fetches[i] == spans[p].f'
  }

  /** One more run, starting where the last earlier run on its appliance
      ended, extends the record of where the runs started. */
  lemma SpansChainedExtend(apps: seq<Appliance>, spans: seq<Span>, t0s: seq<seq<Op>>, f0s: seq<nat>, s: Span)
    requires |spans| < |apps| && SpansChained(apps, spans, t0s, f0s)
    requires var p := LastUse(apps, apps[|spans|], |spans|);
             if p < 0 then s.t0 == t0s[|spans|] && s.f0 == f0s[|spans|] else s.t0 == spans[p].t' && s.f0 == spans[p].f'
    ensures SpansChained(apps, spans + [s], t0s, f0s)
  {
    var spans', k := spans + [s], |spans|;
    forall j | 0 <= j < |spans'|
      ensures var p := LastUse(apps, apps[j], j);
              if p < 0 then spans'[j].t0 == t0s[j] && spans'[j].f0 == f0s[j]
              else spans'[j].t0 == spans'[p].t' && spans'[j].f0 == spans'[p].f'
    {
      var p := LastUse(apps, apps[j], j);
      assert spans'[j] == if j < k then spans[j] else s;
      if p >= 0 {
        assert spans'[p] == spans[p];
      }
    }
  }

  /** One more run, on appliance `apps[|spans|]`, which it leaves at trace
      `s.t'` and fetch count `s.f'`, touching no other appliance. */
  lemma EndsExtend(apps: seq<Appliance>, spans: seq<Span>, traces: seq<seq<Op>>, fetches: seq<nat>,
                   traces': seq<seq<Op>>, fetches': seq<nat>, t0s: seq<seq<Op>>, f0s: seq<nat>, s: Span)
    requires |spans| < |apps| && EndsAsSpans(apps, spans, traces, fetches, t0s, f0s)
    requires |traces'| == |fetches'| == |apps|
    requires forall i :: 0 <= i < |apps| ==>
               if apps[i] == apps[|spans|] then traces'[i] == s.t' && fetches'[i] == s.f'
               else traces'[i] == traces[i] && fetches'[i] == fetches[i]
    ensures EndsAsSpans(apps, spans + [s], traces', fetches', t0s, f0s)
  {
    var spans', k := spans + [s], |spans|;
    forall i | 0 <= i < |apps|
      ensures var p := LastUse(apps, apps[i], k + 1);
              if p < 0 then traces'[i] == t0s[i] && fetches'[i] == f0s[i]
              else traces'[i] == spans'[p].t' && fetches'[i] == spans'[p].f'
    {
      var p := LastUse(apps, apps[i], k);
      if apps[i] == apps[k] {
        assert LastUse(apps, apps[i], k + 1) == k;
      } else {
        assert LastUse(apps, apps[i], k + 1) == p;
        if p >= 0 {
          assert spans'[p] == spans[p];
        }
      }
    }
  }

  /** One more run, on appliance `apps[|spans|]`, starting from where that
      appliance was (`traces`, `fetches`) and leaving the others alone,
      extends both records: the runs stay chained and every appliance ends
      where the last run on it ended. */
  lemma SpansExtend(apps: seq<Appliance>, spans: seq<Span>, t0s: seq<seq<Op>>, f0s: seq<nat>,
                    traces: seq<seq<Op>>, fetches: seq<nat>, traces': seq<seq<Op>>, fetches': seq<nat>, s: Span)
    requires |spans| < |apps| && SpansChained(apps, spans, t0s, f0s) && EndsAsSpans(apps, spans, traces, fetches, t0s, f0s)
    requires s.t0 == traces[|spans|] && s.f0 == fetches[|spans|]
    requires |traces'| == |fetches'| == |apps|
    requires forall i :: 0 <= i < |apps| ==>
               if apps[i] == apps[|spans|] then traces'[i] == s.t' && fetches'[i] == s.f'
               else traces'[i] == traces[i] && fetches'[i] == fetches[i]
    ensures SpansChained(apps, spans + [s], t0s, f0s) && EndsAsSpans(apps, spans + [s], traces', fetches', t0s, f0s)
  {
    var k := |spans|;
    assert LastUse(apps, apps[k], k) == LastUse(apps, apps[k], |spans|);
    SpansChainedExtend(apps, spans, t0s, f0s, s);
    EndsExtend(apps, spans, traces, fetches, traces', fetches', t0s, f0s, s);
  }

  /** With the appliances where `EndsAsSpans` says, an appliance that no
      run used still has its trace and fetch count on entry. */
  lemma UnusedUntouched(apps: seq<Appliance>, spans: seq<Span>, traces: seq<seq<Op>>, fetches: seq<nat>,
                        t0s: seq<seq<Op>>, f0s: seq<nat>, a: Appliance)
    requires EndsAsSpans(apps, spans, traces, fetches, t0s, f0s)
    requires a in apps && forall j :: 0 <= j < |spans| ==> apps[j] != a
    ensures forall i :: 0 <= i < |apps| && apps[i] == a ==> traces[i] == t0s[i] && fetches[i] == f0s[i]
  {
    forall i | 0 <= i < |apps| && apps[i] == a
      ensures traces[i] == t0s[i] && fetches[i] == f0s[i]
    {
      assert LastUse(apps, apps[i], |spans|) < 0;
    }
  }
}
