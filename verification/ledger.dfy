/** The resource ledger: the system's list of resource records, each with a
    name and a binary availability flag. Every scan walks the list from the
    front and compares names. */
module Ledger {
  import opened ProcStructs

  type Ledger = seq<Resource>

  predicate DistinctNames(l: Ledger) {
    forall i, j :: 0 <= i < j < |l| ==> l[i].name != l[j].name
  }

  predicate Known(l: Ledger, n: string) {
    exists i :: 0 <= i < |l| && l[i].name == n
  }

  /** Position of the first record called `n`, or `|l|` when there is none. */
  function FirstNamed(l: Ledger, n: string): (i: nat)
    ensures i <= |l|
    ensures i < |l| ==> l[i].name == n
    ensures forall j :: 0 <= j < i ==> l[j].name != n
  {
    if l == [] then 0
    else if l[0].name == n then 0
    else 1 + FirstNamed(l[1..], n)
  }

  /** is_resource_available: the scan stops at the FIRST record with the
      name, so a later available record of the same name is not seen. */
  function IsResourceAvailable(l: Ledger, n: string): (r: bool)
    ensures r <==> exists i :: 0 <= i < |l| && l[i] == Resource(n, Yes) && forall j :: 0 <= j < i ==> l[j].name != n
  {
    var i := FirstNamed(l, n);
    i < |l| && l[i].available == Yes
  }

  /** The scan of request_resource and acquire_resource: the first record
      that has the name AND is available, passing over taken records of the
      same name. */
  function FirstAvailable(l: Ledger, n: string): (r: Option<nat>)
    ensures r.Some? ==> r.value < |l| && l[r.value] == Resource(n, Yes)
    ensures r.Some? ==> forall j :: 0 <= j < r.value ==> l[j] != Resource(n, Yes)
    ensures r.None? ==> forall j :: 0 <= j < |l| ==> l[j] != Resource(n, Yes)
  {
    if l == [] then None
    else if l[0] == Resource(n, Yes) then Some(0)
    else match FirstAvailable(l[1..], n)
      case None => None
      case Some(k) => Some(k + 1)
  }

  /** mark_resource_as_available: frees the first record called `n`, even
      if a later record of that name is the one the releasing process took;
      an unknown name changes nothing. */
  function MarkResourceAsAvailable(l: Ledger, n: string): (r: Ledger)
    ensures |r| == |l|
    ensures forall j :: 0 <= j < |l| && j != FirstNamed(l, n) ==> r[j] == l[j]
    ensures FirstNamed(l, n) < |l| ==> r[FirstNamed(l, n)] == Resource(n, Yes)
    ensures IsResourceAvailable(r, n) <==> Known(l, n)
  {
    var i := FirstNamed(l, n);
    if i < |l| then
      assert FirstNamed(l[i := Resource(n, Yes)], n) == i by {
        FirstNamedFrame(l, l[i := Resource(n, Yes)], n, i);
      }
      l[i := Resource(n, Yes)]
    else
      l
  }

  /** Marking record `i` as taken, as a successful request does. */
  function Take(l: Ledger, i: nat): (r: Ledger)
    requires i < |l|
    ensures |r| == |l| && r[i].name == l[i].name && r[i].available == No
    ensures forall j :: 0 <= j < |l| && j != i ==> r[j] == l[j]
  {
    l[i := l[i].(available := No)]
  }

  /** Changing the availability of records never moves the first record of a
      name. */
  lemma FirstNamedFrame(l: Ledger, l': Ledger, n: string, i: nat)
    requires |l| == |l'|
    requires forall j :: 0 <= j < |l| ==> l'[j].name == l[j].name
    requires i == FirstNamed(l, n)
    ensures FirstNamed(l', n) == i
  {
  }

  /** With distinct names the two scans agree: the availability query says
      yes exactly when a request would succeed. */
  lemma AvailabilityQueriesAgree(l: Ledger, n: string)
    requires DistinctNames(l)
    ensures IsResourceAvailable(l, n) <==> FirstAvailable(l, n).Some?
  {
    var i := FirstNamed(l, n);
    if FirstAvailable(l, n).Some? {
      var k := FirstAvailable(l, n).value;
      assert i == k;
    }
  }

  /** With distinct names the record a request takes is the one a later
      release frees. */
  lemma TakenIsFirstNamed(l: Ledger, n: string)
    requires DistinctNames(l)
    requires FirstAvailable(l, n).Some?
    ensures FirstNamed(l, n) == FirstAvailable(l, n).value
  {
  }
}
