/** CoopSerialSequence.h: 32-bit serial numbers that skip zero, so the cycle 1..LAST has
    LAST (an odd number of) elements. */
module SerialSequence {

  const LAST: nat := 0xffff_ffff
  const HALF_RANGE: nat := LAST / 2

  type Serial = x: nat | x <= LAST

  function Next(value: Serial): Serial {
    if value == 0 || value == LAST then 1 else value + 1
  }

  function ForwardDistance(from: Serial, to: Serial): nat {
    if from == 0 || to == 0 then 0
    else if to >= from then to - from
    else (LAST - from) + to
  }

  predicate IsAfter(candidate: Serial, reference: Serial) {
    if candidate == 0 then false
    else if reference == 0 then true
    else if candidate == reference then false
    else
      var distance := ForwardDistance(reference, candidate);
      distance != 0 && distance <= HALF_RANGE
  }

  predicate IsStaleOrDuplicate(candidate: Serial, lastAccepted: Serial) {
    candidate != 0 && lastAccepted != 0 && !IsAfter(candidate, lastAccepted)
  }

  function Newer(lhs: Serial, rhs: Serial): Serial {
    if lhs == 0 then rhs
    else if rhs == 0 then lhs
    else if IsAfter(lhs, rhs) then lhs else rhs
  }

  /** The value reached by calling Advance `steps` times. */
  function Advanced(value: Serial, steps: nat): Serial {
    if steps == 0 then value else Next(Advanced(value, steps - 1))
  }

  lemma {:induction false} AdvancedClosedForm(value: Serial, steps: nat)
    requires value != 0 && steps < LAST
    ensures Advanced(value, steps) == if value + steps <= LAST then value + steps else value + steps - LAST
  {
    if steps != 0 {
      AdvancedClosedForm(value, steps - 1);
    }
  }

  /** ForwardDistance counts the Advance calls between two serials. */
  lemma DistanceCountsAdvances(from: Serial, steps: nat)
    requires from != 0 && steps < LAST
    ensures ForwardDistance(from, Advanced(from, steps)) == steps
  {
    AdvancedClosedForm(from, steps);
  }

  /** A candidate is "after" the reference exactly when at most half a cycle of Advance calls leads to it. */
  lemma IsAfterCountsAdvances(candidate: Serial, reference: Serial)
    requires candidate != 0 && reference != 0
    ensures IsAfter(candidate, reference) <==>
            exists steps: nat :: 1 <= steps <= HALF_RANGE && candidate == Advanced(reference, steps)
  {
    if IsAfter(candidate, reference) {
      var steps := ForwardDistance(reference, candidate);
      AdvancedClosedForm(reference, steps);
      assert candidate == Advanced(reference, steps);
    }
    forall steps: nat | 1 <= steps <= HALF_RANGE && candidate == Advanced(reference, steps)
      ensures IsAfter(candidate, reference)
    {
      DistanceCountsAdvances(reference, steps);
    }
  }

  /** Two distinct live serials are ordered one way and only one: the cycle is odd, so there is no tie. */
  lemma IsAfterIsTotalAndAntisymmetric(a: Serial, b: Serial)
    requires a != 0 && b != 0 && a != b
    ensures IsAfter(a, b) != IsAfter(b, a)
    ensures Newer(a, b) == Newer(b, a)
  {
    assert ForwardDistance(a, b) + ForwardDistance(b, a) == LAST;
  }

  /** Newer picks the later of two serials; zero is no serial. */
  lemma NewerIsTheLater(a: Serial, b: Serial)
    ensures Newer(a, b) in {a, b}
    ensures a != Newer(a, b) ==> IsAfter(Newer(a, b), a)
    ensures b != Newer(a, b) ==> IsAfter(Newer(a, b), b)
  {
    if a != 0 && b != 0 && a != b {
      IsAfterIsTotalAndAntisymmetric(a, b);
    }
  }

  /** Three serials in a row chain exactly when the two distances together stay within half a cycle. */
  lemma ChainsExactly(a: Serial, b: Serial, c: Serial)
    requires a != 0 && IsAfter(b, a) && IsAfter(c, b)
    ensures IsAfter(c, a) <==> ForwardDistance(a, b) + ForwardDistance(b, c) <= HALF_RANGE
  {
    assert ForwardDistance(a, c) == ForwardDistance(a, b) + ForwardDistance(b, c);
  }

  /** So the order is not transitive around the cycle. */
  lemma IsAfterIsNotTransitive()
    ensures exists a: Serial, b: Serial, c: Serial :: IsAfter(b, a) && IsAfter(c, b) && !IsAfter(c, a)
  {
    assert IsAfter(0x7000_0000, 1) && IsAfter(0xe000_0000, 0x7000_0000) && !IsAfter(0xe000_0000, 1);
  }
}
