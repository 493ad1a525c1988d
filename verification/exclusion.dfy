/** Mutual exclusion of resources: with distinct names in the ledger, a
    record is taken exactly when one copy of its name sits in one process's
    held list. Requests, releases, the wake-up walks and the arrival poll all
    keep this. */
module Exclusion {
  import opened ProcStructs
  import opened Seqs
  import opened Queues
  import opened Ledger
  import opened Manager

  /** Every held copy of every process, as a multiset of names. */
  function AllHeld(procs: seq<Pcb>): (m: multiset<string>)
  {
    if procs == [] then multiset{} else multiset(procs[0].held) + AllHeld(procs[1..])
  }

  /** Each held list is part of the pool. */
  lemma {:induction false} HeldInPool(procs: seq<Pcb>, p: nat)
    requires p < |procs|
    ensures multiset(procs[p].held) <= AllHeld(procs)
  {
    if p > 0 {
      assert procs[p] == procs[1..][p - 1];
      HeldInPool(procs[1..], p - 1);
    }
  }

  /** The ledger accounts for the pool `m` of held copies: names in the
      ledger are distinct, a record is taken exactly when one copy of its
      name is held, free when none is, and nothing is held that the ledger
      does not know. */
  predicate Accounts(l: Ledger, m: multiset<string>) {
    && DistinctNames(l)
    && (forall i :: 0 <= i < |l| ==> m[l[i].name] == (if l[i].available == No then 1 else 0))
    && (forall n :: n in m ==> Known(l, n))
  }

  /** The resource invariant of a whole system. */
  predicate Exclusive(s: Sys) {
    Accounts(s.ledger, AllHeld(s.procs))
  }

  /** Taking a free record while one copy of its name joins the pool. */
  lemma TakeAccounts(l: Ledger, m: multiset<string>, i: nat)
    requires Accounts(l, m) && i < |l| && l[i].available == Yes
    ensures Accounts(Take(l, i), m + multiset{l[i].name})
  {
  }

  /** Freeing the first record of a name while its one copy leaves the
      pool. */
  lemma FreeAccounts(l: Ledger, m: multiset<string>, m': multiset<string>, n: string)
    requires Accounts(l, m) && m' + multiset{n} == m
    ensures Accounts(MarkResourceAsAvailable(l, n), m')
  {
    assert n in m;
    var i := FirstNamed(l, n);
    assert forall j :: 0 <= j < |l| && j != i ==> l[j].name != n;
    assert m[n] == 1;
    var l' := MarkResourceAsAvailable(l, n);
    forall x | x in m'
      ensures Known(l', x)
    {
      assert x in m;
      var j :| 0 <= j < |l| && l[j].name == x;
      assert l'[j].name == x;
    }
  }

  /** Replacing one record changes the pool by that record's held list. */
  lemma {:induction false} AllHeldUpdate(procs: seq<Pcb>, p: nat, x: Pcb)
    requires p < |procs|
    ensures AllHeld(procs[p := x]) + multiset(procs[p].held) == AllHeld(procs) + multiset(x.held)
  {
    if p == 0 {
      assert procs[p := x][1..] == procs[1..];
    } else {
      assert procs[p := x][0] == procs[0];
      assert procs[p := x][1..] == procs[1..][p - 1 := x];
      assert procs[1..][p - 1] == procs[p];
      AllHeldUpdate(procs[1..], p - 1, x);
      var a := multiset(procs[0].held);
      assert AllHeld(procs[p := x]) == a + AllHeld(procs[1..][p - 1 := x]);
      assert AllHeld(procs) == a + AllHeld(procs[1..]);
      var b := AllHeld(procs[1..][p - 1 := x]);
      forall y
        ensures (a + b + multiset(procs[p].held))[y] == (a + AllHeld(procs[1..]) + multiset(x.held))[y]
      {
        assert (b + multiset(procs[p].held))[y] == (AllHeld(procs[1..]) + multiset(x.held))[y];
      }
    }
  }

  lemma MultisetCancel<T>(a: multiset<T>, b: multiset<T>, c: multiset<T>)
    requires a + c == b + c
    ensures a == b
  {
    forall y
      ensures a[y] == b[y]
    {
      assert (a + c)[y] == (b + c)[y];
    }
  }

  /** Tables that agree on every held list hold the same pool. */
  lemma {:induction false} AllHeldSame(a: seq<Pcb>, b: seq<Pcb>)
    requires |a| == |b| && forall k :: 0 <= k < |a| ==> a[k].held == b[k].held
    ensures AllHeld(a) == AllHeld(b)
  {
    if a != [] {
      AllHeldSame(a[1..], b[1..]);
    }
  }

  /** A name no process holds has no holder; a name held once has exactly
      one holder, which holds it once. */
  lemma {:induction false} Holders(procs: seq<Pcb>, n: string)
    ensures AllHeld(procs)[n] == 0 <==> forall p :: 0 <= p < |procs| ==> n !in procs[p].held
    ensures AllHeld(procs)[n] == 1 ==>
      exists p :: 0 <= p < |procs| && multiset(procs[p].held)[n] == 1 &&
        forall q :: 0 <= q < |procs| && q != p ==> n !in procs[q].held
  {
    if procs != [] {
      Holders(procs[1..], n);
      assert forall p :: 1 <= p < |procs| ==> procs[p] == procs[1..][p - 1];
      if AllHeld(procs)[n] == 1 {
        if n in procs[0].held {
          assert AllHeld(procs[1..])[n] == 0;
          assert forall q :: 1 <= q < |procs| ==> n !in procs[q].held;
        } else {
          var p :| 0 <= p < |procs[1..]| && multiset(procs[1..][p].held)[n] == 1 &&
            forall q :: 0 <= q < |procs[1..]| && q != p ==> n !in procs[1..][q].held;
          assert procs[p + 1] == procs[1..][p];
          forall q | 0 <= q < |procs| && q != p + 1
            ensures n !in procs[q].held
          {
            if q > 0 {
              assert procs[q] == procs[1..][q - 1];
            }
          }
        }
      }
    }
  }

  /** Mutual exclusion: under the invariant a ledger record is taken exactly
      when some process holds its name, and then no other process does. */
  lemma OneHolder(s: Sys, i: nat)
    requires Exclusive(s) && i < |s.ledger|
    ensures var n := s.ledger[i].name;
      && (s.ledger[i].available == Yes <==> forall p :: 0 <= p < |s.procs| ==> n !in s.procs[p].held)
      && (s.ledger[i].available == No ==>
            exists p :: 0 <= p < |s.procs| && multiset(s.procs[p].held)[n] == 1 &&
              forall q :: 0 <= q < |s.procs| && q != p ==> n !in s.procs[q].held)
  {
    Holders(s.procs, s.ledger[i].name);
  }

  /** A fresh system, with every record free and nothing held, satisfies the
      invariant as soon as the ledger's names are distinct. */
  lemma InitExclusive(procs: seq<Pcb>, ledger: Ledger, arrivals: seq<Option<ProcId>>, loaded: Queue)
    requires loaded != []
    requires DistinctNames(ledger)
    requires forall i :: 0 <= i < |ledger| ==> ledger[i].available == Yes
    requires forall p :: 0 <= p < |procs| ==> procs[p].held == []
    ensures Exclusive(InitQueues(procs, ledger, arrivals, loaded))
  {
    Holders(procs, "");
    forall n
      ensures AllHeld(procs)[n] == 0
    {
      Holders(procs, n);
    }
  }

  /** Changing anything but held lists and the ledger keeps the invariant. */
  lemma ExclusiveFrame(s: Sys, r: Sys)
    requires Exclusive(s)
    requires r.ledger == s.ledger
    requires |r.procs| == |s.procs| && forall k :: 0 <= k < |s.procs| ==> r.procs[k].held == s.procs[k].held
    ensures Exclusive(r)
  {
    AllHeldSame(s.procs, r.procs);
  }

  /** A granted request takes a free record and adds one held copy. */
  lemma RequestKeepsExclusive(s: Sys, p: ProcId, n: string)
    requires ValidIds(s) && p < |s.procs| && Exclusive(s)
    ensures Exclusive(RequestResource(s, p, n))
  {
    var r := RequestResource(s, p, n);
    match FirstAvailable(s.ledger, n)
    case None =>
      ExclusiveFrame(s, r);
    case Some(i) =>
      AllHeldUpdate(s.procs, p, r.procs[p]);
      assert r.procs == s.procs[p := r.procs[p]];
      var h := multiset(s.procs[p].held);
      assert multiset(r.procs[p].held) == multiset{n} + h;
      assert AllHeld(r.procs) + h == (AllHeld(s.procs) + multiset{n}) + h;
      MultisetCancel(AllHeld(r.procs), AllHeld(s.procs) + multiset{n}, h);
      TakeAccounts(s.ledger, AllHeld(s.procs), i);
      assert r.ledger == Take(s.ledger, i);
  }

  /** acquire_resource takes a record the way a granted request does, so it
      preserves mutual exclusion too; a refusal changes nothing. */
  lemma AcquireKeepsExclusive(s: Sys, p: ProcId, n: string)
    requires ValidIds(s) && p < |s.procs| && Exclusive(s)
    ensures Exclusive(AcquireResource(s, Some(p), Some(n)).0)
  {
    var a := AcquireResource(s, Some(p), Some(n)).0;
    if FirstAvailable(s.ledger, n).Some? {
      var r := RequestResource(s, p, n);
      RequestKeepsExclusive(s, p, n);
      assert r.ledger == a.ledger;
      assert a.procs == r.procs;
      ExclusiveFrame(r, a);
    }
  }

  /** Unlinking a held copy takes one copy of the name out of the pool. */
  lemma UnholdPool(s: Sys, p: ProcId, n: string)
    requires ValidIds(s) && p < |s.procs| && n in s.procs[p].held
    ensures AllHeld(Unhold(s, p, n).procs) + multiset{n} == AllHeld(s.procs)
  {
    var s1 := Unhold(s, p, n);
    var h := multiset(s.procs[p].held);
    var h' := multiset(Remove(s.procs[p].held, n));
    assert s1.procs == s.procs[p := s1.procs[p]];
    AllHeldUpdate(s.procs, p, s1.procs[p]);
    assert h == h' + multiset{n};
    assert AllHeld(s1.procs) + multiset{n} + h' == AllHeld(s.procs) + h';
    MultisetCancel(AllHeld(s1.procs) + multiset{n}, AllHeld(s.procs), h');
  }

  /** The wake-up walks only change states, so the pool stays. */
  lemma MoveMatchingPool(s: Sys, pred: Pcb -> bool)
    requires ValidIds(s)
    ensures AllHeld(MoveMatching(s, s.waiting, [], pred).procs) == AllHeld(s.procs)
  {
    MoveMatchingFrame(s, s.waiting, [], pred);
    var r := MoveMatching(s, s.waiting, [], pred);
    assert forall k :: 0 <= k < |s.procs| ==> r.procs[k].held == s.procs[k].held by {
      assert SameButStates(s.procs, r.procs);
    }
    AllHeldSame(s.procs, r.procs);
  }

  /** What a successful release does to the pool: one copy of the name
      leaves it. */
  lemma ReleasePool(s: Sys, p: ProcId, n: string)
    requires ValidIds(s) && p < |s.procs|
    ensures var r := ReleaseResource(s, p, n);
      && (n in s.procs[p].held ==> AllHeld(r.procs) + multiset{n} == AllHeld(s.procs))
      && (n !in s.procs[p].held ==> AllHeld(r.procs) == AllHeld(s.procs))
  {
    if n in s.procs[p].held {
      UnholdPool(s, p, n);
      MoveMatchingPool(Unhold(s, p, n), pcb => IsWaitingForResource(pcb, n));
    }
  }

  /** A successful release frees the one taken record of the name. */
  lemma ReleaseKeepsExclusive(s: Sys, p: ProcId, n: string)
    requires ValidIds(s) && p < |s.procs| && Exclusive(s)
    ensures Exclusive(ReleaseResource(s, p, n))
  {
    var r := ReleaseResource(s, p, n);
    ReleasePool(s, p, n);
    if n in s.procs[p].held {
      FreeAccounts(s.ledger, AllHeld(s.procs), AllHeld(r.procs), n);
    }
  }

  /** The resource-based wake-up only changes states. */
  lemma WakeUpKeepsExclusive(s: Sys)
    requires ValidIds(s) && Exclusive(s)
    ensures Exclusive(MoveWaitingToReadyBasedOnResources(s))
  {
    var l := s.ledger;
    MoveMatchingPool(s, pcb => CanResume(pcb, l));
    MoveMatchingFrame(s, s.waiting, [], pcb => CanResume(pcb, l));
  }

  /** Executing any instruction keeps mutual exclusion. */
  lemma ExecuteKeepsExclusive(s: Sys, p: ProcId)
    requires ValidIds(s) && p < |s.procs| && Exclusive(s)
    ensures Exclusive(ExecuteInstr(s, p))
  {
    match NextInstr(s.procs[p])
    case None =>
    case Some(i) =>
      match i
      case Req(n) => RequestKeepsExclusive(s, p, n);
      case Rel(n) =>
        ReleaseKeepsExclusive(s, p, n);
        WakeUpKeepsExclusive(ReleaseResource(s, p, n));
      case Send(_, _) =>
      case Recv(_, _) =>
  }

  /** The arrival poll keeps mutual exclusion. */
  lemma ArrivalKeepsExclusive(s: Sys)
    requires ValidIds(s) && Exclusive(s)
    ensures Exclusive(CheckForNewArrivals(s).0)
  {
    var r := CheckForNewArrivals(s).0;
    ExclusiveFrame(s, r);
  }

  /** With distinct names, a granted request followed by a release of the
      same name by the same process gives back the ledger and the held list
      it started from. */
  lemma RequestReleaseRoundTrip(s: Sys, p: ProcId, n: string)
    requires ValidIds(s) && p < |s.procs| && DistinctNames(s.ledger)
    requires FirstAvailable(s.ledger, n).Some?
    ensures var r := ReleaseResource(RequestResource(s, p, n), p, n);
      r.ledger == s.ledger && r.procs[p].held == s.procs[p].held
  {
    var i := FirstAvailable(s.ledger, n).value;
    TakenIsFirstNamed(s.ledger, n);
    var r1 := RequestResource(s, p, n);
    assert r1.procs[p].held == [n] + s.procs[p].held;
    assert n in r1.procs[p].held;
    assert forall j :: 0 <= j < |r1.ledger| ==> r1.ledger[j].name == s.ledger[j].name;
    FirstNamedFrame(s.ledger, r1.ledger, n, i);
    var r := ReleaseResource(r1, p, n);
    assert r.ledger == MarkResourceAsAvailable(r1.ledger, n);
  }
}
