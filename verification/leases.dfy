/** Leases on feeds (feeds/manager.go, feeds/lease.go).

    A release is two critical sections: the lease leaves its holder, and later, under the manager's
    lock, a holder without leases is closed. Anything can happen in between. */
module Leases {
  import opened ByteStrings

  /** A lease holder owns one feed; `closes` counts how often that feed has been closed. */
  datatype Holder = Holder(queue: Bytes, closes: nat, leases: set<nat>)

  /** `revoked` marks leases that were alive when the manager closed. */
  datatype LeaseInfo = LeaseInfo(holder: nat, released: bool, revoked: bool)

  /** `mapped` is the manager's table, `pending` the cleanups that releases still owe. */
  datatype State = State(
    mapped: map<Bytes, nat>,
    holders: map<nat, Holder>,
    leases: map<nat, LeaseInfo>,
    pending: multiset<Bytes>)

  // ---------- Steps ----------

  /** Manager.Lease: one critical section that reuses the mapped holder or makes a new one. */
  predicate Acquires(s: State, s': State, queue: Bytes, h: nat, l: nat) {
    && l !in s.leases
    && (if queue in s.mapped then h == s.mapped[queue] && h in s.holders else h !in s.holders)
    && var holder := if queue in s.mapped then s.holders[h] else Holder(queue, 0, {});
       s' == s.(mapped := s.mapped[queue := h],
                holders := s.holders[h := holder.(leases := holder.leases + {l})],
                leases := s.leases[l := LeaseInfo(h, false, false)])
  }

  /** leaseHolder.remove, first half. Releasing again is allowed. */
  predicate Removes(s: State, s': State, l: nat) {
    && l in s.leases && s.leases[l].holder in s.holders
    && var h := s.leases[l].holder;
       var holder := s.holders[h];
       s' == s.(holders := s.holders[h := holder.(leases := holder.leases - {l})],
                leases := s.leases[l := s.leases[l].(released := true)],
                pending := s.pending + multiset{holder.queue})
  }

  /** cleanUpLeases, the second half. */
  predicate CleansUp(s: State, s': State, queue: Bytes) {
    && queue in s.pending
    && (queue in s.mapped ==> s.mapped[queue] in s.holders)
    && var rest := s.(pending := s.pending - multiset{queue});
       s' == if queue in s.mapped && s.holders[s.mapped[queue]].leases == {} then
               var h := s.mapped[queue];
               rest.(mapped := s.mapped - {queue},
                     holders := s.holders[h := Holder(s.holders[h].queue, s.holders[h].closes + 1, {})])
             else rest
  }

  /** Manager.Close: every mapped feed is closed, whoever holds leases on it. */
  predicate ClosesAll(s: State, s': State) {
    s' == s.(mapped := map[],
             holders := map h | h in s.holders :: ClosedIfMapped(s, h),
             leases := map l | l in s.leases :: s.leases[l].(revoked := true))
  }

  function ClosedIfMapped(s: State, h: nat): Holder
    requires h in s.holders
  {
    if h in s.mapped.Values then Holder(s.holders[h].queue, s.holders[h].closes + 1, {}) else s.holders[h]
  }

  // ---------- Invariant ----------

  predicate Open(s: State, h: nat) { h in s.holders && s.holders[h].closes == 0 }

  /** Mapped holders are the open ones, under their own queue. */
  predicate TableInv(s: State) {
    && (forall q :: q in s.mapped ==>
          s.mapped[q] in s.holders && s.holders[s.mapped[q]].queue == q && Open(s, s.mapped[q]))
    && (forall h :: h in s.holders && Open(s, h) ==>
          s.holders[h].queue in s.mapped && s.mapped[s.holders[h].queue] == h)
    && (forall h :: h in s.holders ==> s.holders[h].closes <= 1)
  }

  /** A lease is with its holder exactly while it is neither released nor revoked; a revoked one has
      seen its feed close. */
  predicate LeaseOk(s: State, l: nat)
    requires l in s.leases
  {
    var info := s.leases[l];
    && info.holder in s.holders
    && (l in s.holders[info.holder].leases <==> !info.released && !info.revoked)
    && (info.revoked ==> !Open(s, info.holder))
  }

  /** A holder knows only leases granted on it, and none once its feed is closed. */
  predicate HolderOk(s: State, h: nat)
    requires h in s.holders
  {
    && (forall l :: l in s.holders[h].leases ==> l in s.leases && s.leases[l].holder == h)
    && (!Open(s, h) ==> s.holders[h].leases == {})
  }

  predicate LeaseInv(s: State) {
    && (forall l :: l in s.leases ==> LeaseOk(s, l))
    && (forall h :: h in s.holders ==> HolderOk(s, h))
  }

  /** A mapped holder without leases has a cleanup coming. */
  predicate CleanupInv(s: State) {
    forall q :: q in s.mapped && s.mapped[q] in s.holders && s.holders[s.mapped[q]].leases == {} ==> q in s.pending
  }

  predicate Inv(s: State) { TableInv(s) && LeaseInv(s) && CleanupInv(s) }

  lemma AcquireKeepsTable(s: State, s': State, queue: Bytes, h: nat, l: nat)
    requires TableInv(s) && Acquires(s, s', queue, h, l)
    ensures TableInv(s') && Open(s', h)
  {
    forall k | k in s'.holders
      ensures s'.holders[k].closes <= 1 && (k != h ==> k in s.holders && s'.holders[k] == s.holders[k])
    {
    }
  }

  lemma AcquireKeepsLeases(s: State, s': State, queue: Bytes, h: nat, l: nat)
    requires TableInv(s) && LeaseInv(s) && Acquires(s, s', queue, h, l)
    ensures LeaseInv(s')
  {
    AcquireKeepsTable(s, s', queue, h, l);
    hide TableInv;
    forall m | m in s'.leases ensures LeaseOk(s', m) {
      if m != l { assert LeaseOk(s, m); }
    }
    forall k | k in s'.holders ensures HolderOk(s', k) {
      if k in s.holders {
        assert HolderOk(s, k);
        assert l !in s.holders[k].leases;
      }
    }
  }

  lemma AcquireKeepsInv(s: State, s': State, queue: Bytes, h: nat, l: nat)
    requires Inv(s) && Acquires(s, s', queue, h, l)
    ensures Inv(s')
  {
    AcquireKeepsTable(s, s', queue, h, l);
    AcquireKeepsLeases(s, s', queue, h, l);
    hide TableInv, LeaseInv;
    assert l in s'.holders[h].leases;
  }

  lemma AcquireOpens(s: State, s': State, queue: Bytes, h: nat, l: nat)
    requires Inv(s) && Acquires(s, s', queue, h, l)
    ensures Open(s', h)
  {
    hide LeaseInv, CleanupInv;
    AcquireKeepsTable(s, s', queue, h, l);
  }

  lemma RemoveKeepsTable(s: State, s': State, l: nat)
    requires TableInv(s) && Removes(s, s', l)
    ensures TableInv(s')
  {
  }

  lemma RemoveKeepsLeases(s: State, s': State, l: nat)
    requires LeaseInv(s) && Removes(s, s', l)
    ensures LeaseInv(s')
  {
    forall m | m in s'.leases ensures LeaseOk(s', m) { assert LeaseOk(s, m); }
    forall k | k in s'.holders ensures HolderOk(s', k) { assert HolderOk(s, k); }
  }

  lemma RemoveKeepsInv(s: State, s': State, l: nat)
    requires Inv(s) && Removes(s, s', l)
    ensures Inv(s')
  {
    RemoveKeepsTable(s, s', l);
    RemoveKeepsLeases(s, s', l);
    hide LeaseInv;
    var h := s.leases[l].holder;
    forall q | q in s'.mapped && s'.holders[s'.mapped[q]].leases == {} ensures q in s'.pending {
      if s'.mapped[q] != h { assert s'.holders[s'.mapped[q]] == s.holders[s.mapped[q]]; }
    }
  }

  lemma CleanUpKeepsTable(s: State, s': State, queue: Bytes)
    requires TableInv(s) && CleansUp(s, s', queue)
    ensures TableInv(s')
  {
  }

  lemma CleanUpKeepsLeases(s: State, s': State, queue: Bytes)
    requires LeaseInv(s) && CleansUp(s, s', queue)
    ensures LeaseInv(s')
  {
    forall m | m in s'.leases ensures LeaseOk(s', m) { assert LeaseOk(s, m); }
    forall k | k in s'.holders ensures HolderOk(s', k) { assert HolderOk(s, k); }
  }

  lemma CleanUpKeepsInv(s: State, s': State, queue: Bytes)
    requires Inv(s) && CleansUp(s, s', queue)
    ensures Inv(s')
  {
    CleanUpKeepsTable(s, s', queue);
    CleanUpKeepsLeases(s, s', queue);
    hide LeaseInv;
    forall q | q in s'.mapped && s'.holders[s'.mapped[q]].leases == {} ensures q in s'.pending {
      assert q in s.mapped && s'.holders[s'.mapped[q]].leases == s.holders[s.mapped[q]].leases;
    }
  }

  lemma CloseAllKeepsInv(s: State, s': State)
    requires Inv(s) && ClosesAll(s, s')
    ensures Inv(s')
  {
    AllClosed(s, s');
    ClosedTable(s');
    CloseAllKeepsLeases(s, s');
  }

  lemma CloseAllKeepsLeases(s: State, s': State)
    requires LeaseInv(s) && ClosesAll(s, s')
    requires forall h :: h in s'.holders ==> h in s.holders && s'.holders[h].closes == 1
    ensures LeaseInv(s')
  {
    forall h | h in s'.holders ensures s'.holders[h].leases == {} { assert HolderOk(s, h); }
    forall m | m in s'.leases ensures LeaseOk(s', m) { assert LeaseOk(s, m); }
    forall k | k in s'.holders ensures HolderOk(s', k) {}
  }

  lemma AllClosed(s: State, s': State)
    requires TableInv(s) && ClosesAll(s, s')
    ensures forall h :: h in s'.holders ==> h in s.holders && s'.holders[h].closes == 1
  {
    forall h | h in s.holders ensures s'.holders[h].closes == 1 {
      if Open(s, h) {
        assert s.mapped[s.holders[h].queue] in s.mapped.Values;
      }
    }
  }

  lemma ClosedTable(s: State)
    requires s.mapped == map[] && forall h :: h in s.holders ==> s.holders[h].closes == 1
    ensures TableInv(s)
  {
  }

  /** In the middle of closing: the holders of the queues still in `todo` are untouched. */
  predicate PartlyClosed(s: State, todo: map<Bytes, nat>, holders: map<nat, Holder>) {
    && (forall q :: q in todo ==> q in s.mapped && todo[q] == s.mapped[q])
    && holders.Keys == s.holders.Keys
    && (forall h :: h in holders ==>
          holders[h] == if s.holders[h].queue in todo then s.holders[h] else ClosedIfMapped(s, h))
  }

  lemma NoneClosed(s: State)
    requires Inv(s)
    ensures PartlyClosed(s, s.mapped, s.holders)
  {
    hide LeaseInv, CleanupInv;
    forall h | h in s.holders && s.holders[h].queue !in s.mapped ensures h !in s.mapped.Values {
      forall q | q in s.mapped ensures s.mapped[q] != h {}
    }
  }

  lemma CloseOne(s: State, todo: map<Bytes, nat>, holders: map<nat, Holder>, q: Bytes)
    requires Inv(s) && PartlyClosed(s, todo, holders) && q in todo
    ensures todo[q] in holders
    ensures
      var h := todo[q];
      PartlyClosed(s, todo - {q}, holders[h := Holder(holders[h].queue, holders[h].closes + 1, {})])
  {
    hide LeaseInv, CleanupInv;
    var h := todo[q];
    assert s.mapped[q] == h && h in s.mapped.Values;
    forall g | g in s.holders && s.holders[g].queue == q && g != h ensures g !in s.mapped.Values {
      forall q' | q' in s.mapped ensures s.mapped[q'] != g {}
    }
  }

  lemma AllOfThem(s: State, holders: map<nat, Holder>)
    requires PartlyClosed(s, map[], holders)
    ensures holders == map h | h in s.holders :: ClosedIfMapped(s, h)
    ensures ClosesAll(s, State(map[], holders, map l | l in s.leases :: s.leases[l].(revoked := true), s.pending))
  {
  }

  lemma KnownHolders(s: State)
    requires Inv(s)
    ensures forall q :: q in s.mapped ==> s.mapped[q] in s.holders
    ensures forall l :: l in s.leases ==> s.leases[l].holder in s.holders
  {
    forall l | l in s.leases ensures s.leases[l].holder in s.holders { assert LeaseOk(s, l); }
  }

  // ---------- Every interleaving ----------

  ghost predicate Step(s: State, s': State) {
    || (exists queue, h, l :: Acquires(s, s', queue, h, l))
    || (exists l :: Removes(s, s', l))
    || (exists queue :: CleansUp(s, s', queue))
    || ClosesAll(s, s')
  }

  ghost predicate Run(states: seq<State>) {
    && states != [] && states[0] == State(map[], map[], map[], multiset{})
    && forall i :: 0 <= i < |states| - 1 ==> Step(states[i], states[i + 1])
  }

  lemma StepKeepsInv(s: State, s': State)
    requires Inv(s) && Step(s, s')
    ensures Inv(s')
  {
    hide Inv, Acquires, Removes, CleansUp, ClosesAll;
    if queue, h, l :| Acquires(s, s', queue, h, l) {
      AcquireKeepsInv(s, s', queue, h, l);
    } else if l :| Removes(s, s', l) {
      RemoveKeepsInv(s, s', l);
    } else if queue :| CleansUp(s, s', queue) {
      CleanUpKeepsInv(s, s', queue);
    } else {
      CloseAllKeepsInv(s, s');
    }
  }

  lemma {:induction false} RunKeepsInv(states: seq<State>)
    requires Run(states)
    ensures Inv(states[|states| - 1])
  {
    hide Step;
    if |states| > 1 {
      var before := states[..|states| - 1];
      assert Step(before[|before| - 1], states[|states| - 1]);
      RunKeepsInv(before);
      StepKeepsInv(before[|before| - 1], states[|states| - 1]);
    }
  }

  /** In every interleaving of acquiring, the two halves of releasing, repeated releases and closing
      the manager: a queue has at most one open feed, no feed is closed twice, the feed of an
      unreleased lease is open exactly when the manager has not been closed since, and a mapped
      holder without leases always has a cleanup pending. */
  lemma LeasesAreSafe(states: seq<State>)
    requires Run(states)
    ensures
      var s := states[|states| - 1];
      && (forall g, h :: g in s.holders && h in s.holders && Open(s, g) && Open(s, h) ==>
            s.holders[g].queue == s.holders[h].queue ==> g == h)
      && (forall h :: h in s.holders ==> s.holders[h].closes <= 1)
      && (forall l :: l in s.leases && !s.leases[l].released ==>
            (Open(s, s.leases[l].holder) <==> !s.leases[l].revoked))
      && (forall q :: q in s.mapped ==> Open(s, s.mapped[q]))
      && (forall q :: q in s.mapped && s.holders[s.mapped[q]].leases == {} ==> q in s.pending)
  {
    hide Step;
    RunKeepsInv(states);
  }

  // ---------- The manager as an object ----------

  /** The manager with the lease holders and leases it has created, by number. Each method is one
      critical section. */
  class Manager {
    var leases: map<Bytes, nat>
    var holders: map<nat, Holder>
    var granted: map<nat, LeaseInfo>
    var nextHolder: nat
    var nextLease: nat
    ghost var pending: multiset<Bytes>

    ghost predicate Valid()
      reads this
    {
      && Inv(Now())
      && (forall h :: h in holders ==> h < nextHolder)
      && (forall l :: l in granted ==> l < nextLease)
    }

    ghost function Now(): State
      reads this
    {
      State(leases, holders, granted, pending)
    }

    constructor ()
      ensures Now() == State(map[], map[], map[], multiset{}) && Valid()
    {
      leases, holders, granted, pending := map[], map[], map[], multiset{};
      nextHolder, nextLease := 0, 0;
    }

    /** Grants the next lease, on the mapped holder or on a new one; its feed is open. When a new holder
        is needed and its feed cannot be created, nothing changes. */
    method Lease(queue: Bytes, creates: bool) returns (ok: bool, l: nat)
      requires Valid()
      modifies this
      ensures Valid() && ok == (queue in old(leases) || creates)
      ensures !ok ==> Now() == old(Now())
      ensures ok ==> l in granted && Acquires(old(Now()), Now(), queue, granted[l].holder, l)
      ensures ok ==> Open(Now(), granted[l].holder)
    {
      hide Inv;
      ghost var before := Now();
      KnownHolders(before);
      var h, holder := nextHolder, Holder(queue, 0, {});
      l := nextLease;
      if queue in leases {
        h, holder := leases[queue], holders[leases[queue]];
      } else if !creates {
        return false, l;
      } else {
        nextHolder := nextHolder + 1;
      }
      nextLease := nextLease + 1;
      leases := leases[queue := h];
      holders := holders[h := holder.(leases := holder.leases + {l})];
      granted := granted[l := LeaseInfo(h, false, false)];
      AcquireKeepsInv(before, Now(), queue, h, l);
      AcquireOpens(before, Now(), queue, h, l);
      ok := true;
    }

    /** The first half of a release. */
    method Remove(l: nat)
      requires Valid() && l in granted
      modifies this
      ensures Removes(old(Now()), Now(), l) && Valid()
    {
      hide Inv;
      ghost var before := Now();
      KnownHolders(before);
      var h := granted[l].holder;
      holders := holders[h := holders[h].(leases := holders[h].leases - {l})];
      granted := granted[l := granted[l].(released := true)];
      pending := pending + multiset{holders[h].queue};
      RemoveKeepsInv(before, Now(), l);
    }

    /** The second half. */
    method CleanUpLeases(queue: Bytes)
      requires Valid() && queue in pending
      modifies this
      ensures CleansUp(old(Now()), Now(), queue) && Valid()
    {
      hide Inv;
      ghost var before := Now();
      KnownHolders(before);
      pending := pending - multiset{queue};
      if queue in leases && |holders[leases[queue]].leases| == 0 {
        var h := leases[queue];
        holders := holders[h := Holder(holders[h].queue, holders[h].closes + 1, {})];
        leases := leases - {queue};
      }
      CleanUpKeepsInv(before, Now(), queue);
    }

    /** Closes every mapped feed, one after the other, whoever holds leases on it. */
    method Close()
      requires Valid()
      modifies this
      ensures ClosesAll(old(Now()), Now()) && Valid()
    {
      hide Inv, PartlyClosed, ClosesAll;
      ghost var before := Now();
      NoneClosed(before);
      while leases != map[]
        invariant PartlyClosed(before, leases, holders)
        invariant granted == before.leases && pending == before.pending
        invariant nextHolder == old(nextHolder) && nextLease == old(nextLease)
        decreases |leases|
      {
        var q :| q in leases;
        CloseOne(before, leases, holders, q);
        var h := leases[q];
        holders := holders[h := Holder(holders[h].queue, holders[h].closes + 1, {})];
        leases := leases - {q};
      }
      granted := map l | l in granted :: granted[l].(revoked := true);
      AllOfThem(before, holders);
      CloseAllKeepsInv(before, Now());
    }
  }
}
