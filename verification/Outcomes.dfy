/** The predicted outcomes of API calls: whether the next call fails, and what is left for those after it. */
module Outcomes {

  predicate Fails(faults: seq<bool>) {
    faults != [] && faults[0]
  }

  /** A call beyond the predicted ones does not fail. */
  function Rest(faults: seq<bool>): seq<bool> {
    if faults == [] then [] else faults[1..]
  }

  lemma RestIsPart(faults: seq<bool>)
    ensures true !in faults ==> true !in Rest(faults)
    ensures Fails(faults) ==> true in faults
  {
  }

  /** The call after `i` others fails. */
  predicate FailsAt(faults: seq<bool>, i: nat) {
    i < |faults| && faults[i]
  }

  /** None of the next `n` calls fails. */
  predicate Clear(faults: seq<bool>, n: nat) {
    forall i: nat :: i < n ==> !FailsAt(faults, i)
  }

  /** What is left after `n` calls. */
  function Skip(faults: seq<bool>, n: nat): seq<bool> {
    if n >= |faults| then [] else faults[n..]
  }

  lemma SkipStep(faults: seq<bool>, n: nat)
    ensures Rest(Skip(faults, n)) == Skip(faults, n + 1)
    ensures Fails(Skip(faults, n)) == FailsAt(faults, n)
    ensures Clear(faults, n + 1) <==> Clear(faults, n) && !FailsAt(faults, n)
    ensures Skip(faults, 0) == faults
  {
  }

  lemma SkipJoin(faults: seq<bool>, n: nat, m: nat)
    ensures Skip(Skip(faults, n), m) == Skip(faults, n + m)
    ensures Clear(faults, n + m) <==> Clear(faults, n) && Clear(Skip(faults, n), m)
  {
    assert forall i: nat :: FailsAt(Skip(faults, n), i) == FailsAt(faults, n + i);
    forall i: nat | n <= i < n + m && Clear(Skip(faults, n), m)
      ensures !FailsAt(faults, i)
    {
      assert !FailsAt(Skip(faults, n), i - n);
    }
  }

  /** How many of the next `n` calls succeed before one fails. */
  function Successes(faults: seq<bool>, n: nat): (m: nat)
    ensures m <= n && Clear(faults, m) && (m < n ==> FailsAt(faults, m))
    ensures m == n <==> Clear(faults, n)
  {
    if n == 0 then 0
    else
      var m := Successes(faults, n - 1);
      if m == n - 1 && !FailsAt(faults, m) then n else m
  }

  /** Only one number is like that. */
  lemma SuccessesAre(faults: seq<bool>, n: nat, m: nat)
    requires m <= n && Clear(faults, m) && (m < n ==> FailsAt(faults, m))
    ensures m == Successes(faults, n)
  {
  }

  lemma NoneFails(faults: seq<bool>, n: nat)
    requires true !in faults
    ensures Clear(faults, n)
  {
  }

  /** How a call ends that looks for an object and creates it only if it is missing. */
  datatype Creation = Existing | Created | Error

  /** What a pass asks for: nothing, another pass, or, after an error, another pass. */
  datatype Result = Settled | Requeue | Failure
}
