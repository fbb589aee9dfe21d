/** Recognizing a router that gives successive mappings ports a constant distance
    apart, although one of the ports seen may be out of line. */
module DeltaTests {
  import opened Outcome

  const PORT_COLLISIONS: nat := 1

  /** Port i and the difference predict port j. */
  predicate Predicts(remote: seq<int>, difference: int, i: nat, j: nat)
    requires i < |remote| && j < |remote|
  {
    i != j && remote[j] == (if i > j then remote[i] - difference * (i - j) else remote[i] + difference * (j - i))
  }

  predicate Fits(remote: seq<int>, difference: int, i: nat)
    requires i < |remote|
  {
    exists j: nat :: j < |remote| && Predicts(remote, difference, i, j)
  }

  /** How many of the first k ports predict some other. */
  ghost function Fitting(remote: seq<int>, difference: int, k: nat): nat
    requires k <= |remote|
  {
    if k == 0 then 0 else Fitting(remote, difference, k - 1) + if Fits(remote, difference, k - 1) then 1 else 0
  }

  lemma {:induction false} FittingBound(remote: seq<int>, difference: int, k: nat)
    requires k <= |remote|
    ensures Fitting(remote, difference, k) <= k
  {
    if k > 0 { FittingBound(remote, difference, k - 1); }
  }

  /** A difference is taken for the router's when all but at most one port fit it,
      unless that is half of them. */
  ghost predicate Accepted(remote: seq<int>, difference: int)
  {
    var collisions := |remote| - Fitting(remote, difference, |remote|);
    collisions <= PORT_COLLISIONS && 2 * collisions != |remote|
  }

  predicate Candidate(remote: seq<int>, difference: int)
  {
    exists i: nat :: i + 1 < |remote| && difference == remote[i + 1] - remote[i]
  }

  lemma NoElements(s: set<int>)
    ensures (forall d :: d !in s) ==> s == {}
  {
    if forall d :: d !in s { assert s == {}; }
  }

  class RendezvousClient {
    var delta: int

    constructor ()
      ensures delta == 0
    {
      delta := 0;
    }

    method Differences(remote: seq<int>) returns (r: set<int>)
      ensures forall d :: d in r <==> Candidate(remote, d)
    {
      r := {};
      for i := 0 to |remote|
        invariant forall d :: d in r <==> exists j: nat :: j < i && j + 1 < |remote| && d == remote[j + 1] - remote[j]
      {
        if i + 1 >= |remote| { break; }
        r := r + {remote[i + 1] - remote[i]};
      }
    }

    method CountMatches(remote: seq<int>, difference: int, i: nat) returns (matches: nat)
      requires i < |remote|
      ensures matches > 0 <==> Fits(remote, difference, i)
    {
      matches := 0;
      for j := 0 to |remote|
        invariant matches > 0 ==> Fits(remote, difference, i)
        invariant matches == 0 ==> forall k: nat :: k < j ==> !Predicts(remote, difference, i, k)
      {
        if i == j { continue; }
        var test;
        if i > j {
          test := remote[i] - difference * (i - j);
        } else {
          test := remote[i] + difference * (j - i);
        }
        assert test == remote[j] <==> Predicts(remote, difference, i, j);
        if test == remote[j] { matches := matches + 1; }
      }
    }

    method Masked(remote: seq<int>, difference: int) returns (masked: seq<int>)
      ensures |masked| == Fitting(remote, difference, |remote|)
    {
      masked := [];
      for i := 0 to |remote|
        invariant |masked| == Fitting(remote, difference, i)
      {
        var matches := CountMatches(remote, difference, i);
        if matches + 1 > PORT_COLLISIONS { masked := masked + [remote[i]]; }
      }
    }

    /** Tries the candidate differences in any order. When none is accepted the type
        of NAT was never given a name, and returning it raises. */
    method DeltaTest(remote: seq<int>) returns (natType: Result<string>)
      modifies this
      ensures natType.Ok? ==> natType.value == "delta" && Candidate(remote, delta) && Accepted(remote, delta)
      ensures natType.Raised? ==> delta == old(delta) && forall d :: Candidate(remote, d) ==> !Accepted(remote, d)
    {
      var differences := Differences(remote);
      while differences != {}
        invariant forall d :: d in differences ==> Candidate(remote, d)
        invariant forall d :: Candidate(remote, d) && d !in differences ==> !Accepted(remote, d)
        invariant delta == old(delta)
        decreases |differences|
      {
        NoElements(differences);
        assert exists d :: d in differences;
        var difference :| difference in differences;
        differences := differences - {difference};
        var masked := Masked(remote, difference);
        FittingBound(remote, difference, |remote|);
        var collisions := |remote| - |masked|;
        if collisions > PORT_COLLISIONS { continue; }
        if 2 * collisions == |remote| && |remote| % 2 == 0 { continue; }
        delta := difference;
        return Ok("delta");
      }
      return Raised;
    }
  }

  /** All fit, or all but one. */
  lemma {:induction false} FitCount(remote: seq<int>, difference: int, k: nat)
    requires k <= |remote|
    ensures Fitting(remote, difference, k) == k <==> forall i: nat :: i < k ==> Fits(remote, difference, i)
    ensures Fitting(remote, difference, k) + 1 >= k <==>
            forall i: nat, j: nat :: i < j < k ==> Fits(remote, difference, i) || Fits(remote, difference, j)
    decreases k
  {
    FittingBound(remote, difference, k);
    if k > 0 {
      FitCount(remote, difference, k - 1);
      FittingBound(remote, difference, k - 1);
    }
  }

  /** A difference is accepted exactly when of any two ports at least one fits it,
      and, of two ports, both. */
  lemma AcceptedIff(remote: seq<int>, difference: int)
    requires remote != []
    ensures Accepted(remote, difference) <==>
            (forall i: nat, j: nat :: i < j < |remote| ==> Fits(remote, difference, i) || Fits(remote, difference, j)) &&
            (|remote| == 2 ==> Fits(remote, difference, 0) && Fits(remote, difference, 1))
  {
    FitCount(remote, difference, |remote|);
    FittingBound(remote, difference, |remote|);
  }

  // ----- one bad sample -------------------------------------------------------------------

  /** Ports `step` apart, except perhaps the one at `bad`. */
  predicate Progression(remote: seq<int>, start: int, step: int, bad: nat)
  {
    forall i :: 0 <= i < |remote| && i != bad ==> remote[i] == start + step * i
  }

  lemma GoodPortsPredict(remote: seq<int>, start: int, step: int, bad: nat, difference: int, i: nat, j: nat)
    requires Progression(remote, start, step, bad) && i < |remote| && j < |remote| && i != j && i != bad && j != bad
    ensures Predicts(remote, difference, i, j) <==> difference == step
  {
    assert step * j - step * i == step * (j - i);
    assert difference * (i - j) == -(difference * (j - i));
    if difference != step {
      assert (step - difference) * (j - i) != 0;
      assert (step - difference) * (j - i) == step * (j - i) - difference * (j - i);
    }
  }

  lemma {:induction false} ManyFit(remote: seq<int>, difference: int, bad: nat, k: nat)
    requires k <= |remote| && forall i: nat :: i < k && i != bad ==> Fits(remote, difference, i)
    ensures Fitting(remote, difference, k) >= k - 1
    ensures bad >= k ==> Fitting(remote, difference, k) == k
  {
    if k > 0 { ManyFit(remote, difference, bad, k - 1); }
  }

  lemma {:induction false} FewFit(remote: seq<int>, difference: int, a: nat, b: nat, k: nat)
    requires k <= |remote| && forall i: nat :: i < k && i != a && i != b ==> !Fits(remote, difference, i)
    ensures Fitting(remote, difference, k) <= (if a < k then 1 else 0) + if b < k then 1 else 0
  {
    if k > 0 { FewFit(remote, difference, a, b, k - 1); }
  }

  lemma StepIsAccepted(remote: seq<int>, start: int, step: int, bad: nat)
    requires |remote| >= 4 && Progression(remote, start, step, bad)
    ensures Candidate(remote, step) && Accepted(remote, step)
  {
    var p := if bad <= 1 then 2 else 0;
    assert remote[p + 1] - remote[p] == step;
    forall i: nat | i < |remote| && i != bad ensures Fits(remote, step, i) {
      var j: nat := if i != 0 && bad != 0 then 0 else if i != 1 && bad != 1 then 1 else 2;
      GoodPortsPredict(remote, start, step, bad, step, i, j);
    }
    ManyFit(remote, step, bad, |remote|);
    FittingBound(remote, step, |remote|);
  }

  /** Under any other difference a good port can only predict the bad one, and only
      one good port does. */
  lemma OnePartner(remote: seq<int>, start: int, step: int, bad: nat, difference: int, i: nat, j: nat)
    requires Progression(remote, start, step, bad) && difference != step
    requires i < |remote| && j < |remote| && bad < |remote| && i != bad && j != bad
    requires Predicts(remote, difference, i, bad) && Predicts(remote, difference, j, bad)
    ensures i == j
  {
    assert remote[bad] == start + step * i + difference * (bad - i);
    assert remote[bad] == start + step * j + difference * (bad - j);
    assert (step - difference) * (i - j) == (step * i + difference * (bad - i)) - (step * j + difference * (bad - j));
  }

  /** Four or more ports, at most one of them out of line: one difference is
      accepted and it is the router's, so the order of trying does not matter. */
  lemma OnlyTheStepIsAccepted(remote: seq<int>, start: int, step: int, bad: nat, difference: int)
    requires |remote| >= 4 && Progression(remote, start, step, bad)
    ensures Candidate(remote, difference) && Accepted(remote, difference) <==> difference == step
  {
    if difference == step {
      StepIsAccepted(remote, start, step, bad);
    } else {
      var partner: nat := if HasPartner(remote, difference, bad) then Partner(remote, difference, bad) else bad;
      forall i: nat | i < |remote| && i != bad && i != partner ensures !Fits(remote, difference, i) {
        forall j: nat | j < |remote| ensures !Predicts(remote, difference, i, j) {
          if j != bad && i != j {
            GoodPortsPredict(remote, start, step, bad, difference, i, j);
          } else if j == bad && Predicts(remote, difference, i, bad) {
            OnePartner(remote, start, step, bad, difference, i, partner);
          }
        }
      }
      FewFit(remote, difference, bad, partner, |remote|);
    }
  }

  /** Some port predicts the bad one. */
  predicate HasPartner(remote: seq<int>, difference: int, bad: nat)
  {
    bad < |remote| && exists i: nat :: i < |remote| && i != bad && Predicts(remote, difference, i, bad)
  }

  ghost function Partner(remote: seq<int>, difference: int, bad: nat): (i: nat)
    requires HasPartner(remote, difference, bad)
    ensures i < |remote| && i != bad && Predicts(remote, difference, i, bad)
  {
    var i: nat :| i < |remote| && i != bad && Predicts(remote, difference, i, bad);
    i
  }

  /** The test on such ports: always the router's difference. */
  method Detect(client: RendezvousClient, remote: seq<int>, ghost start: int, ghost step: int, ghost bad: nat)
      returns (natType: Result<string>)
    requires |remote| >= 4 && Progression(remote, start, step, bad)
    modifies client
    ensures natType == Ok("delta") && client.delta == step
  {
    natType := client.DeltaTest(remote);
    OnlyTheStepIsAccepted(remote, start, step, bad, step);
    OnlyTheStepIsAccepted(remote, start, step, bad, client.delta);
  }

  /** Ports `step` apart, except those at a and b. */
  predicate ProgressionBut(remote: seq<int>, start: int, step: int, a: nat, b: nat)
  {
    forall i :: 0 <= i < |remote| && i != a && i != b ==> remote[i] == start + step * i
  }

  lemma PredictsByOffset(remote: seq<int>, start: int, step: int, i: nat, j: nat)
    requires i < |remote| && j < |remote| && i != j
    ensures Predicts(remote, step, i, j) <==> remote[j] - (start + step * j) == remote[i] - (start + step * i)
  {
    assert step * j - step * i == step * (j - i);
    assert step * (i - j) == -(step * (j - i));
  }

  /** Two bad samples are one too many: the router's difference is accepted exactly
      when they happen to be shifted by the same offset. */
  lemma TwoBadSamples(remote: seq<int>, start: int, step: int, a: nat, b: nat)
    requires a < b < |remote| && |remote| >= 4 && ProgressionBut(remote, start, step, a, b)
    requires remote[a] != start + step * a && remote[b] != start + step * b
    ensures Accepted(remote, step) <==> remote[a] - (start + step * a) == remote[b] - (start + step * b)
  {
    forall i: nat | i < |remote| && i != a && i != b ensures Fits(remote, step, i) {
      var j := AnotherGood(|remote|, a, b, i);
      PredictsByOffset(remote, start, step, i, j);
    }
    BadFits(remote, start, step, a, b);
    BadFits(remote, start, step, b, a);
    AcceptedIff(remote, step);
  }

  lemma BadFits(remote: seq<int>, start: int, step: int, a: nat, b: nat)
    requires a < |remote| && b < |remote| && a != b && ProgressionBut(remote, start, step, a, b)
    requires remote[a] != start + step * a
    ensures Fits(remote, step, a) <==> remote[a] - (start + step * a) == remote[b] - (start + step * b)
  {
    forall j: nat | j < |remote| && j != a
      ensures Predicts(remote, step, a, j) <==> remote[j] - (start + step * j) == remote[a] - (start + step * a)
    {
      PredictsByOffset(remote, start, step, a, j);
    }
    assert Predicts(remote, step, a, b) ==> Fits(remote, step, a);
  }

  lemma AnotherGood(n: nat, a: nat, b: nat, i: nat) returns (j: nat)
    requires n >= 4
    ensures j < n && j != a && j != b && j != i
  {
    j := if 0 !in {a, b, i} then 0 else if 1 !in {a, b, i} then 1 else if 2 !in {a, b, i} then 2 else 3;
  }

  /** Three ports are too few: with the last of 0, 1, 2 seen as 5 both differences
      pass, and the answer is whichever is tried first. */
  lemma ThreeAreTooFew()
    ensures Progression([0, 1, 5], 0, 1, 2)
    ensures Candidate([0, 1, 5], 1) && Accepted([0, 1, 5], 1)
    ensures Candidate([0, 1, 5], 4) && Accepted([0, 1, 5], 4)
  {
    var r := [0, 1, 5];
    assert r[1] - r[0] == 1 && r[2] - r[1] == 4;
    assert Predicts(r, 1, 0, 1) && Predicts(r, 1, 1, 0);
    assert Predicts(r, 4, 1, 2) && Predicts(r, 4, 2, 1);
    ManyFit(r, 1, 2, 3);
    FittingBound(r, 1, 3);
    ManyFit(r, 4, 0, 3);
    FittingBound(r, 4, 3);
  }
}
