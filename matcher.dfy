/** The identity matcher of apply_netscaler_state.py (and of the earlier
    revision): one pass over the objects fetched from the appliance puts each
    object into at most one bucket of a `matches_found` dictionary, testing
    full match, then name, then address; a later object overwrites an earlier
    one in the same bucket. */
module Matcher {
  import opened Wrappers
  import opened NitroTypes

  datatype Bucket = Full | ByName | ByAddress | Unmatched

  /** The `matches_found` dictionary: one optional object per key. */
  datatype Matches<R> = Matches(full: Option<R>, byName: Option<R>, byAddress: Option<R>)

  function NoMatches<R>(): Matches<R> {
    Matches(None, None, None)
  }

  /** The entry of `m` under key `b` (never anything for Unmatched). */
  function Slot<R>(m: Matches<R>, b: Bucket): Option<R> {
    match b
    case Full => m.full
    case ByName => m.byName
    case ByAddress => m.byAddress
    case Unmatched => None
  }

  /** `matches_found[b] = x`: overwrites the one bucket `b` and keeps the others. */
  function Put<R>(m: Matches<R>, b: Bucket, x: R): (r: Matches<R>)
    ensures b != Unmatched ==> Slot(r, b) == Some(x)
    ensures forall b' :: b' != b ==> Slot(r, b') == Slot(m, b')
  {
    match b
    case Full => m.(full := Some(x))
    case ByName => m.(byName := Some(x))
    case ByAddress => m.(byAddress := Some(x))
    case Unmatched => m
  }

  /** The dictionary after the loop has visited all of `all`, in order. */
  function MatchesFound<R>(all: seq<R>, bucketOf: R -> Bucket): Matches<R>
    decreases |all|
  {
    if all == [] then NoMatches()
    else
      var last := all[|all| - 1];
      Put(MatchesFound(all[..|all| - 1], bucketOf), bucketOf(last), last)
  }

  /** The match loop itself (apply_netscaler_state.py:225-233, 537-545,
      1143-1151; applyNetscalerState.py:53-61, 279-287). */
  method FindMatches<R>(all: seq<R>, bucketOf: R -> Bucket) returns (m: Matches<R>)
    ensures m == MatchesFound(all, bucketOf)
  {
    m := NoMatches();
    var i := 0;
    while i < |all|
      invariant 0 <= i <= |all|
      invariant m == MatchesFound(all[..i], bucketOf)
    {
      assert all[..i + 1][..i] == all[..i];
      m := Put(m, bucketOf(all[i]), all[i]);
      i := i + 1;
    }
    assert all[..|all|] == all;
  }

  /** Later matches win: the object in bucket `b` is the last object of `all`
      that belongs to `b`. */
  lemma {:induction false} LaterMatchWins<R>(all: seq<R>, bucketOf: R -> Bucket, i: nat)
    requires i < |all| && bucketOf(all[i]) != Unmatched
    requires forall j :: i < j < |all| ==> bucketOf(all[j]) != bucketOf(all[i])
    ensures Slot(MatchesFound(all, bucketOf), bucketOf(all[i])) == Some(all[i])
  {
    if i < |all| - 1 {
      var front := all[..|all| - 1];
      assert front[i] == all[i];
      LaterMatchWins(front, bucketOf, i);
    }
  }

  /** A bucket is empty exactly when no fetched object belongs to it, and
      whatever it holds is a fetched object that belongs to it. */
  lemma {:induction false} SlotContents<R>(all: seq<R>, bucketOf: R -> Bucket, b: Bucket)
    requires b != Unmatched
    ensures Slot(MatchesFound(all, bucketOf), b).None? <==> forall j :: 0 <= j < |all| ==> bucketOf(all[j]) != b
    ensures Slot(MatchesFound(all, bucketOf), b).Some? ==>
              var x := Slot(MatchesFound(all, bucketOf), b).value; x in all && bucketOf(x) == b
  {
    if all != [] {
      var front := all[..|all| - 1];
      SlotContents(front, bucketOf, b);
      assert forall j :: 0 <= j < |front| ==> front[j] == all[j];
      assert all == front + [all[|all| - 1]];
    }
  }

  // ---------------------------------------------------------------------
  // The per-type tests of the loops

  /** The server loop (apply_netscaler_state.py:228-233): full match on name
      and ip, else name, else ip. */
  function ServerBucket(c: ServerConf): Server -> Bucket {
    (s: Server) =>
      if s.name == c.name && s.ipaddress == c.ipAddress then Full
      else if s.name == c.name then ByName
      else if s.ipaddress == c.ipAddress then ByAddress
      else Unmatched
  }

  /** What each bucket of the server loop holds. */
  lemma ServerSlots(all: seq<Server>, c: ServerConf)
    ensures var m := MatchesFound(all, ServerBucket(c));
      && (m.full.None? <==> forall j :: 0 <= j < |all| ==> !(all[j].name == c.name && all[j].ipaddress == c.ipAddress))
      && (m.full.Some? ==> m.full.value in all && m.full.value.name == c.name && m.full.value.ipaddress == c.ipAddress)
      && (m.byName.None? <==> forall j :: 0 <= j < |all| ==> !(all[j].name == c.name && all[j].ipaddress != c.ipAddress))
      && (m.byName.Some? ==> m.byName.value in all && m.byName.value.name == c.name && m.byName.value.ipaddress != c.ipAddress)
      && (m.byAddress.None? <==> forall j :: 0 <= j < |all| ==> !(all[j].name != c.name && all[j].ipaddress == c.ipAddress))
      && (m.byAddress.Some? ==> m.byAddress.value in all && m.byAddress.value.name != c.name && m.byAddress.value.ipaddress == c.ipAddress)
  {
    SlotContents(all, ServerBucket(c), Full);
    SlotContents(all, ServerBucket(c), ByName);
    SlotContents(all, ServerBucket(c), ByAddress);
  }

  /** Whatever a bucket of the server loop holds is a listed server that
      belongs there: the value half of ServerSlots alone. The convergence
      lemmas use it instead of ServerSlots because the emptiness halves put
      three quantifiers in scope that they do not need, which makes their
      proofs markedly more expensive. */
  lemma ServerSlotValues(all: seq<Server>, c: ServerConf)
    ensures var m := MatchesFound(all, ServerBucket(c));
      && (m.full.Some? ==> m.full.value in all && m.full.value.name == c.name && m.full.value.ipaddress == c.ipAddress)
      && (m.byName.Some? ==> m.byName.value in all && m.byName.value.name == c.name && m.byName.value.ipaddress != c.ipAddress)
      && (m.byAddress.Some? ==> m.byAddress.value in all && m.byAddress.value.name != c.name && m.byAddress.value.ipaddress == c.ipAddress)
  {
    ServerSlots(all, c);
  }

  /** The value of `vserver.get_port == conf['port']` and of
      `vserver.get_servicetype == conf['protocol']`: the getter is not called,
      so a bound method is compared with an int or a string, which is never
      equal. */
  const GetterEqualsValue: bool := false

  /** The lbvserver and csvserver loops (apply_netscaler_state.py:540-545,
      1146-1151; applyNetscalerState.py:282-287). */
  function VserverBucket(c: VserverConf): Vserver -> Bucket {
    (v: Vserver) =>
      if v.name == c.name && v.ipv46 == c.vipAddress && GetterEqualsValue && GetterEqualsValue then Full
      else if v.name == c.name then ByName
      else if v.ipv46 == c.vipAddress then ByAddress
      else Unmatched
  }

  /** The full-match branch of the vserver loops never fires. */
  lemma {:induction false} NoVserverFullMatch(all: seq<Vserver>, c: VserverConf)
    ensures MatchesFound(all, VserverBucket(c)).full == None
  {
    SlotContents(all, VserverBucket(c), Full);
  }

  /** With no full match possible, the name bucket of a vserver match is empty
      exactly when no fetched vserver carries the desired name. */
  lemma VserverNameSlot(all: seq<Vserver>, c: VserverConf)
    ensures MatchesFound(all, VserverBucket(c)).byName.None? <==> forall j :: 0 <= j < |all| ==> all[j].name != c.name
    ensures MatchesFound(all, VserverBucket(c)).byName.Some? ==>
              var x := MatchesFound(all, VserverBucket(c)).byName.value; x in all && x.name == c.name
    ensures MatchesFound(all, VserverBucket(c)).byAddress.Some? ==>
              var x := MatchesFound(all, VserverBucket(c)).byAddress.value;
              x in all && x.name != c.name && x.ipv46 == c.vipAddress
  {
    SlotContents(all, VserverBucket(c), ByName);
    SlotContents(all, VserverBucket(c), ByAddress);
  }
}
