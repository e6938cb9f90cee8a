/**
 The retry limit does not bound the attempts: only failure reports look at it, so
 every lease that is taken back allows one more. The bound of `Ledger.AttemptsBounded`
 is reached for every number of losses.
 */
module Retries {
  import opened Sequences
  import opened Store
  import opened Invariant
  import opened Leasing
  import opened Ledger

  const X: UnitId := 0
  const ONE_UNIT := Submission(0, [X], [Request([], "", 1, 0.0)], [], [], "", 0.0)

  /** The store holds unit X alone, waiting after `a` attempts. */
  predicate Waits(s: Store, a: nat) {
    && s.order == [X] && s.pending == [X] && s.batches == map[0 := ONE_UNIT.NewBatch()]
    && X in s.units && s.units[X].state == PENDING && s.units[X].batch == 0 && s.units[X].model == "" && s.units[X].attempts == a
  }

  /** The same, out on a lease to node 1. */
  predicate IsOut(s: Store, a: nat) {
    && s.order == [X] && s.pending == [] && s.batches == map[0 := ONE_UNIT.NewBatch()]
    && X in s.units && s.units[X].LeasedTo(1) && s.units[X].batch == 0 && s.units[X].model == "" && s.units[X].attempts == a
  }

  const TAKE := Take(1, 1, "", 0.0)
  const REFUSE := Refuse(X, 1, "x", 0.0)
  const LEAVE := NodeLeft(1)

  lemma Taken(s: Store, a: nat)
    requires Waits(s, a)
    ensures IsOut(Step(s, TAKE), a + 1) && !Reclaims(s, TAKE, X)
  {
    assert s.pending == [X] + [];
    TakeHead(s, X, []);
  }

  lemma Refused(s: Store, a: nat)
    requires IsOut(s, a) && a < MAX_UNIT_ATTEMPTS
    ensures Waits(Step(s, REFUSE), a) && !Reclaims(s, REFUSE, X)
  {
    assert [] + [X] == [X];
  }

  lemma Left(s: Store, a: nat)
    requires IsOut(s, a)
    ensures Waits(Step(s, LEAVE), a) && Reclaims(s, LEAVE, X)
  {
    assert [] + [X] == [X];
    FilterSnoc([], X, IsHeldBy(s, 1));
  }

  lemma Submitted()
    ensures Legal(EMPTY, Submit(ONE_UNIT)) && Waits(Step(EMPTY, Submit(ONE_UNIT)), 0)
  {
    CreatedUnits(EMPTY, ONE_UNIT);
    assert (ONE_UNIT.ids + ONE_UNIT.canaryIds)[0] == X && Planted([X], []) == [X];
  }

  /** `k` leases of X, each ended by `last`. */
  function Rounds(last: Op, k: nat): seq<Op> {
    if k == 0 then [] else [TAKE] + ([last] + Rounds(last, k - 1))
  }

  lemma RunFirst(s: Store, op: Op, rest: seq<Op>)
    requires Legal(s, op) && LegalRun(Step(s, op), rest)
    ensures LegalRun(s, [op] + rest) && Run(s, [op] + rest) == Run(Step(s, op), rest)
    ensures Losses(s, [op] + rest, X) == One(Reclaims(s, op, X)) + Losses(Step(s, op), rest, X)
  {
    assert ([op] + rest)[1..] == rest;
  }

  /** Each round is one more attempt, and one more loss when it ends with a departure. */
  lemma {:induction false} RoundsRun(s: Store, a: nat, last: Op, k: nat)
    requires Waits(s, a) && (last == LEAVE || (last == REFUSE && a + k < MAX_UNIT_ATTEMPTS))
    ensures LegalRun(s, Rounds(last, k)) && Waits(Run(s, Rounds(last, k)), a + k)
    ensures Losses(s, Rounds(last, k), X) == if last == LEAVE then k else 0
    decreases k
  {
    hide Step, Waits, IsOut, Reclaims;
    if k > 0 {
      var out := Step(s, TAKE);
      Taken(s, a);
      if last == LEAVE { Left(out, a + 1); } else { Refused(out, a + 1); }
      RoundsRun(Step(out, last), a + 1, last, k - 1);
      RunFirst(out, last, Rounds(last, k - 1));
      RunFirst(s, TAKE, [last] + Rounds(last, k - 1));
    }
  }

  lemma {:induction false} LossesInTurn(s: Store, a: seq<Op>, b: seq<Op>)
    requires LegalRun(s, a) && LegalRun(Run(s, a), b) && LegalRun(s, a + b)
    ensures Losses(s, a + b, X) == Losses(s, a, X) + Losses(Run(s, a), b, X)
    decreases |a|
  {
    if a == [] {
      assert a + b == b;
    } else {
      assert (a + b)[1..] == a[1..] + b;
      LossesInTurn(Step(s, a[0]), a[1..], b);
    }
  }

  lemma InTurn(s: Store, a: seq<Op>, b: seq<Op>)
    requires LegalRun(s, a) && LegalRun(Run(s, a), b)
    ensures LegalRun(s, a + b) && Run(s, a + b) == Run(Run(s, a), b)
    ensures Losses(s, a + b, X) == Losses(s, a, X) + Losses(Run(s, a), b, X)
  {
    RunInTurn(s, a, b);
    LossesInTurn(s, a, b);
  }

  /** Refused as often as the limit allows, then lost, and then out once more. */
  function Worst(lost: nat): seq<Op> {
    Rounds(REFUSE, MAX_UNIT_ATTEMPTS - 1) + (Rounds(LEAVE, lost) + [TAKE])
  }

  lemma LostAndOut(s: Store, lost: nat)
    requires Waits(s, MAX_UNIT_ATTEMPTS - 1)
    ensures var tail := Rounds(LEAVE, lost) + [TAKE];
      LegalRun(s, tail) && Losses(s, tail, X) == lost && IsOut(Run(s, tail), MAX_UNIT_ATTEMPTS + lost)
  {
    hide Waits, IsOut, Rounds, Run, LegalRun, Losses;
    RoundsRun(s, MAX_UNIT_ATTEMPTS - 1, LEAVE, lost);
    LastTake(Run(s, Rounds(LEAVE, lost)), MAX_UNIT_ATTEMPTS - 1 + lost);
    InTurn(s, Rounds(LEAVE, lost), [TAKE]);
  }

  lemma WorstRun(s: Store, lost: nat)
    requires Waits(s, 0)
    ensures LegalRun(s, Worst(lost)) && Losses(s, Worst(lost), X) == lost
    ensures IsOut(Run(s, Worst(lost)), MAX_UNIT_ATTEMPTS + lost)
  {
    hide Waits, IsOut, Rounds, Run, LegalRun, Losses;
    var fails := Rounds(REFUSE, MAX_UNIT_ATTEMPTS - 1);
    RoundsRun(s, 0, REFUSE, MAX_UNIT_ATTEMPTS - 1);
    LostAndOut(Run(s, fails), lost);
    InTurn(s, fails, Rounds(LEAVE, lost) + [TAKE]);
  }

  lemma LastTake(s: Store, a: nat)
    requires Waits(s, a)
    ensures LegalRun(s, [TAKE]) && IsOut(Run(s, [TAKE]), a + 1) && Losses(s, [TAKE], X) == 0
  {
    Taken(s, a);
    hide Step, Waits, IsOut, Reclaims;
    assert [TAKE] + [] == [TAKE];
    RunFirst(s, TAKE, []);
  }

  /** Whatever the limit, a unit that is lost `lost` times can be granted that many times more. */
  lemma BoundIsReached(lost: nat) returns (ops: seq<Op>)
    ensures LegalRun(EMPTY, ops) && X in Run(EMPTY, ops).units
    ensures Losses(EMPTY, ops, X) == lost && Run(EMPTY, ops).units[X].attempts == MAX_UNIT_ATTEMPTS + lost
  {
    hide Step, Worst, Waits;
    Submitted();
    WorstRun(Step(EMPTY, Submit(ONE_UNIT)), lost);
    RunFirst(EMPTY, Submit(ONE_UNIT), Worst(lost));
    ops := [Submit(ONE_UNIT)] + Worst(lost);
  }
}
