/**
 * The process-wide block id counter (`Block.nextId` and `Block.GetId`): ids
 * run from 1 upwards and the counter is reset to 1 when it reaches `IdCeiling`.
 */
module Ids {

  const IdCeiling := 1000000

  /** The number of distinct ids the counter hands out before repeating. */
  const Cycle := IdCeiling - 1

  predicate IsCounter(next: int)
  {
    1 <= next <= IdCeiling
  }

  /** The id `GetId` returns when the counter holds `next`. */
  function Issued(next: int): int
    requires IsCounter(next)
  {
    if next == IdCeiling then 1 else next
  }

  /** The ids returned by `k` consecutive calls of `GetId`, the first with the counter at `next`. */
  function IdsIssued(next: int, k: nat): (ids: seq<int>)
    requires IsCounter(next)
    ensures |ids| == k
    decreases k
  {
    if k == 0 then [] else [Issued(next)] + IdsIssued(Issued(next) + 1, k - 1)
  }

  class IdCounter {
    var nextId: int

    ghost predicate Valid()
      reads this
    {
      IsCounter(nextId)
    }

    constructor ()
      ensures Valid() && nextId == 1
    {
      nextId := 1;
    }

    method GetId() returns (id: int)
      requires Valid()
      modifies this
      ensures Valid()
      ensures 1 <= id < IdCeiling
      ensures id == Issued(old(nextId)) && nextId == id + 1
    {
      if nextId == IdCeiling {
        nextId := 1;
      }
      id := nextId;
      nextId := nextId + 1;
    }
  }

  /** The `i`-th of a run of ids, in closed form: ids go round 1, 2, ..., `Cycle`, 1, ... */
  lemma {:induction false} IdsIssuedAt(next: int, k: nat, i: nat)
    requires IsCounter(next) && i < k
    ensures IdsIssued(next, k)[i] == (next - 1 + i) % Cycle + 1
    decreases k
  {
    if i > 0 {
      var n := Issued(next) + 1;
      IdsIssuedAt(n, k - 1, i - 1);
      assert IdsIssued(next, k)[i] == IdsIssued(n, k - 1)[i - 1];
      if next == IdCeiling {
        ModWrap(i);
      }
    }
  }

  lemma ModWrap(i: int)
    ensures (Cycle + i) % Cycle == i % Cycle
  {
  }

  /** Every id handed out lies in 1 .. `Cycle`. */
  lemma IdsInRange(next: int, k: nat)
    requires IsCounter(next)
    ensures forall i :: 0 <= i < k ==> 1 <= IdsIssued(next, k)[i] <= Cycle
  {
    forall i | 0 <= i < k ensures 1 <= IdsIssued(next, k)[i] <= Cycle {
      IdsIssuedAt(next, k, i);
    }
  }

  /** Any `Cycle` consecutive ids are pairwise distinct. */
  lemma IdsDistinctWithinCycle(next: int, k: nat)
    requires IsCounter(next) && k <= Cycle
    ensures forall i, j :: 0 <= i < j < k ==> IdsIssued(next, k)[i] != IdsIssued(next, k)[j]
  {
    forall i, j | 0 <= i < j < k ensures IdsIssued(next, k)[i] != IdsIssued(next, k)[j] {
      IdsIssuedAt(next, k, i);
      IdsIssuedAt(next, k, j);
      ModDistinct(next - 1 + i, next - 1 + j);
    }
  }

  lemma ModDistinct(p: int, q: int)
    requires 0 <= p < q < p + Cycle
    ensures p % Cycle != q % Cycle
  {
  }

  /** The call after the one that returns `Cycle` returns 1. */
  lemma WrapsToOne(next: int)
    requires IsCounter(next) && Issued(next) == Cycle
    ensures IdsIssued(next, 2) == [Cycle, 1]
  {
  }

  /** The wrap-around makes the first and the `IdCeiling`-th id of any longer run collide. */
  lemma IdsCollideAfterCycle(next: int, k: nat)
    requires IsCounter(next) && Cycle < k
    ensures IdsIssued(next, k)[0] == IdsIssued(next, k)[Cycle]
  {
    IdsIssuedAt(next, k, 0);
    IdsIssuedAt(next, k, Cycle);
    assert (next - 1 + Cycle) % Cycle == (next - 1) % Cycle;
  }
}
