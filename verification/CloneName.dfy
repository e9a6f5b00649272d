/** Fresh names for cloned machines (internal/api/handlers_vms.go). */
module CloneName {
  import opened Text

  /** fmt.Sprintf("%s-clone%d", source, i) */
  function Candidate(source: string, i: nat): string {
    source + "-clone" + Decimal(i)
  }

  /** A clone is named after its source, with a number that can be read back. */
  lemma CandidateNamed(source: string, i: nat)
    ensures
      var name := Candidate(source, i);
      && source + "-clone" <= name && FromDecimal(name[|source| + |"-clone"|..]) == i
      && forall k :: |source| + |"-clone"| <= k < |name| ==> IsDigit(name[k])
  {
    assert Candidate(source, i)[|source + "-clone"|..] == Decimal(i);
    DecimalRoundTrip(i);
  }

  lemma CandidateInjective(source: string, i: nat, j: nat)
    requires Candidate(source, i) == Candidate(source, j)
    ensures i == j
  {
    var front := source + "-clone";
    assert Candidate(source, i)[|front|..] == Decimal(i);
    assert Candidate(source, j)[|front|..] == Decimal(j);
    DecimalInjective(i, j);
  }

  function Candidates(source: string, n: nat): set<string> {
    set i | 1 <= i <= n :: Candidate(source, i)
  }

  /** The first n candidates are n different names. */
  lemma {:induction false} CandidatesCount(source: string, n: nat)
    ensures |Candidates(source, n)| == n
  {
    if n == 0 {
      assert Candidates(source, 0) == {};
    } else {
      CandidatesCount(source, n - 1);
      if Candidate(source, n) in Candidates(source, n - 1) {
        var i :| 1 <= i <= n - 1 && Candidate(source, n) == Candidate(source, i);
        CandidateInjective(source, n, i);
        assert false;
      }
      assert Candidates(source, n) == Candidates(source, n - 1) + {Candidate(source, n)};
    }
  }

  /** By pigeonhole, names in use cannot cover one candidate more than there are names. */
  lemma TakenPrefixIsShort(source: string, taken: set<string>, n: nat)
    requires Candidates(source, n) <= taken
    ensures n <= |taken|
  {
    CandidatesCount(source, n);
    SubsetCount(Candidates(source, n), taken);
  }

  /** The distinct names in use: a tracked launch is usually a listed machine as well. */
  function InUse(vms: seq<string>, launches: seq<string>): set<string> {
    (set x | x in vms) + (set x | x in launches)
  }

  /** The map of names in use: those of the listed machines and of the tracked launches. */
  method NamesInUse(vms: seq<string>, launches: seq<string>) returns (existing: set<string>)
    ensures existing == InUse(vms, launches)
  {
    existing := {};
    for k := 0 to |vms|
      invariant forall x :: x in existing <==> x in vms[..k]
    {
      assert vms[..k + 1] == vms[..k] + [vms[k]];
      existing := existing + {vms[k]};
    }
    assert vms[..|vms|] == vms;
    for k := 0 to |launches|
      invariant forall x :: x in existing <==> x in vms || x in launches[..k]
    {
      assert launches[..k + 1] == launches[..k] + [launches[k]];
      existing := existing + {launches[k]};
    }
    assert launches[..|launches|] == launches;
  }

  lemma OneMoreCandidate(source: string, n: nat)
    requires n > 0
    ensures Candidates(source, n) == Candidates(source, n - 1) + {Candidate(source, n)}
    ensures forall j :: 1 <= j < n ==> Candidate(source, j) in Candidates(source, n - 1)
  {
  }

  /** The least i whose candidate is free; `vms` and `launches` are the names in use. */
  method NextCloneName(source: string, vms: seq<string>, launches: seq<string>)
    returns (name: string, ghost i: nat)
    ensures name !in vms && name !in launches
    ensures 1 <= i <= |InUse(vms, launches)| + 1 && name == Candidate(source, i)
    ensures forall j :: 1 <= j < i ==> Candidate(source, j) in vms || Candidate(source, j) in launches
  {
    hide Candidate, Candidates;
    var existing := NamesInUse(vms, launches);
    var n := 1;
    TakenNone(source);
    while true
      invariant 1 <= n
      invariant Candidates(source, n - 1) <= existing
      decreases |existing| + 1 - n
    {
      TakenPrefixIsShort(source, existing, n - 1);
      OneMoreCandidate(source, n);
      name := Candidate(source, n);
      if name !in existing {
        i := n;
        return;
      }
      TakenPrefixIsShort(source, existing, n);
      n := n + 1;
    }
  }

  lemma TakenNone(source: string)
    ensures Candidates(source, 0) == {}
  {
  }
}
