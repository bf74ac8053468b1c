/** Resource profiles and the accounting ledger of include/dpufabric/resource.h. */
module Resource {
  import opened Base

  datatype Dimension = Memory | Queues | Functions | Slots | Contexts

  /** The common shape of ResourceProfile, ResourceRequest and ResourceLedger::Usage. */
  datatype Resources = Resources(memoryBytes: u64, queues: u64, functions: u64, slots: u64, contexts: u64) {
    function At(d: Dimension): u64 {
      match d
      case Memory => memoryBytes
      case Queues => queues
      case Functions => functions
      case Slots => slots
      case Contexts => contexts
    }
  }

  /** One device's account, as the coordinator stores it. */
  datatype Ledger = Ledger(cap: Resources, used: Resources)

  const NOTHING := Resources(0, 0, 0, 0, 0)

  /** can_reserve, and can_admit of src/eligibility.cpp: sums wrap, and a zero capacity does not bind. */
  predicate Admits(cap: Resources, used: Resources, r: Resources) {
    if cap.memoryBytes != 0 && WrapAdd(used.memoryBytes, r.memoryBytes) > cap.memoryBytes then false
    else if cap.queues != 0 && WrapAdd(used.queues, r.queues) > cap.queues then false
    else if cap.functions != 0 && WrapAdd(used.functions, r.functions) > cap.functions then false
    else if cap.slots != 0 && WrapAdd(used.slots, r.slots) > cap.slots then false
    else if cap.contexts != 0 && WrapAdd(used.contexts, r.contexts) > cap.contexts then false
    else true
  }

  /** apply_: every counter is incremented modulo 2^64. */
  function Applied(used: Resources, r: Resources): Resources {
    Resources(WrapAdd(used.memoryBytes, r.memoryBytes), WrapAdd(used.queues, r.queues),
              WrapAdd(used.functions, r.functions), WrapAdd(used.slots, r.slots), WrapAdd(used.contexts, r.contexts))
  }

  predicate Covers(used: Resources, r: Resources) {
    forall d: Dimension :: r.At(d) <= used.At(d)
  }

  /** release_: all counters go down together, or none does. */
  function Released(used: Resources, r: Resources): Resources {
    if used.memoryBytes < r.memoryBytes || used.queues < r.queues || used.functions < r.functions ||
       used.slots < r.slots || used.contexts < r.contexts then used
    else Resources(used.memoryBytes - r.memoryBytes, used.queues - r.queues, used.functions - r.functions,
                   used.slots - r.slots, used.contexts - r.contexts)
  }

  /** No bounded dimension is over its capacity. */
  ghost predicate Within(cap: Resources, used: Resources) {
    forall d: Dimension :: cap.At(d) == 0 || used.At(d) <= cap.At(d)
  }

  /** No counter would leave 64 bits. */
  ghost predicate NoWrap(used: Resources, r: Resources) {
    forall d: Dimension :: used.At(d) + r.At(d) <= U64_MAX
  }

  lemma AppliedAt(used: Resources, r: Resources, d: Dimension)
    ensures Applied(used, r).At(d) == WrapAdd(used.At(d), r.At(d))
  {
  }

  lemma ReleasedAt(used: Resources, r: Resources, d: Dimension)
    ensures Covers(used, r) ==> Released(used, r).At(d) == used.At(d) - r.At(d)
    ensures !Covers(used, r) ==> Released(used, r) == used
  {
    if !Covers(used, r) {
      var e :| r.At(e) > used.At(e);
    } else {
      assert r.At(Memory) <= used.At(Memory) && r.At(Queues) <= used.At(Queues) && r.At(Functions) <= used.At(Functions);
      assert r.At(Slots) <= used.At(Slots) && r.At(Contexts) <= used.At(Contexts);
    }
  }

  /** The admission test, dimension by dimension. */
  lemma AdmitsExactly(cap: Resources, used: Resources, r: Resources)
    ensures Admits(cap, used, r) <==> forall d: Dimension :: cap.At(d) == 0 || WrapAdd(used.At(d), r.At(d)) <= cap.At(d)
  {
    if forall d: Dimension :: cap.At(d) == 0 || WrapAdd(used.At(d), r.At(d)) <= cap.At(d) {
      assert cap.At(Memory) == 0 || WrapAdd(used.At(Memory), r.At(Memory)) <= cap.At(Memory);
      assert cap.At(Queues) == 0 || WrapAdd(used.At(Queues), r.At(Queues)) <= cap.At(Queues);
      assert cap.At(Functions) == 0 || WrapAdd(used.At(Functions), r.At(Functions)) <= cap.At(Functions);
      assert cap.At(Slots) == 0 || WrapAdd(used.At(Slots), r.At(Slots)) <= cap.At(Slots);
      assert cap.At(Contexts) == 0 || WrapAdd(used.At(Contexts), r.At(Contexts)) <= cap.At(Contexts);
    }
  }

  /** An admitted reservation stays within capacity even when a sum wraps around. */
  lemma ReservationStaysWithin(cap: Resources, used: Resources, r: Resources)
    requires Admits(cap, used, r)
    ensures Within(cap, Applied(used, r))
  {
    forall d ensures cap.At(d) == 0 || Applied(used, r).At(d) <= cap.At(d) {
      AppliedAt(used, r, d);
    }
  }

  lemma ReleaseStaysWithin(cap: Resources, used: Resources, r: Resources)
    requires Within(cap, used)
    ensures Within(cap, Released(used, r))
  {
    forall d ensures cap.At(d) == 0 || Released(used, r).At(d) <= cap.At(d) {
      ReleasedAt(used, r, d);
      assert cap.At(d) == 0 || used.At(d) <= cap.At(d);
    }
  }

  /** Dropping a reservation restores the ledger exactly when no counter wrapped while it was taken. */
  lemma RollbackRestores(used: Resources, r: Resources)
    ensures Released(Applied(used, r), r) == used <==> NoWrap(used, r)
  {
    var after := Applied(used, r);
    if NoWrap(used, r) {
      assert used.At(Memory) + r.At(Memory) <= U64_MAX && used.At(Queues) + r.At(Queues) <= U64_MAX;
      assert used.At(Functions) + r.At(Functions) <= U64_MAX && used.At(Slots) + r.At(Slots) <= U64_MAX;
      assert used.At(Contexts) + r.At(Contexts) <= U64_MAX;
    } else {
      var d :| used.At(d) + r.At(d) > U64_MAX;
      AppliedAt(used, r, d);
      assert after.At(d) < r.At(d);
      ReleasedAt(after, r, d);
      assert after.At(d) != used.At(d);
    }
  }

  /** The ledger object: capacity is fixed, usage changes in place. */
  class ResourceLedger {
    const cap: Resources
    var used: Resources

    constructor (cap: Resources)
      ensures this.cap == cap && used == NOTHING
    {
      this.cap := cap;
      used := NOTHING;
    }

    /** Every bounded dimension stays within capacity after a wrapping addition. */
    method CanReserve(r: Resources) returns (ok: bool)
      ensures ok <==> forall d: Dimension :: cap.At(d) == 0 || WrapAdd(used.At(d), r.At(d)) <= cap.At(d)
    {
      AdmitsExactly(cap, used, r);
      if cap.memoryBytes != 0 && WrapAdd(used.memoryBytes, r.memoryBytes) > cap.memoryBytes {
        return false;
      }
      if cap.queues != 0 && WrapAdd(used.queues, r.queues) > cap.queues {
        return false;
      }
      if cap.functions != 0 && WrapAdd(used.functions, r.functions) > cap.functions {
        return false;
      }
      if cap.slots != 0 && WrapAdd(used.slots, r.slots) > cap.slots {
        return false;
      }
      if cap.contexts != 0 && WrapAdd(used.contexts, r.contexts) > cap.contexts {
        return false;
      }
      return true;
    }

    method Apply(r: Resources)
      modifies this
      ensures used == Applied(old(used), r)
    {
      used := used.(memoryBytes := WrapAdd(used.memoryBytes, r.memoryBytes));
      used := used.(queues := WrapAdd(used.queues, r.queues));
      used := used.(functions := WrapAdd(used.functions, r.functions));
      used := used.(slots := WrapAdd(used.slots, r.slots));
      used := used.(contexts := WrapAdd(used.contexts, r.contexts));
    }

    method Release(r: Resources)
      modifies this
      ensures used == Released(old(used), r)
    {
      if used.memoryBytes < r.memoryBytes || used.queues < r.queues || used.functions < r.functions ||
         used.slots < r.slots || used.contexts < r.contexts {
        return;
      }
      used := used.(memoryBytes := used.memoryBytes - r.memoryBytes);
      used := used.(queues := used.queues - r.queues);
      used := used.(functions := used.functions - r.functions);
      used := used.(slots := used.slots - r.slots);
      used := used.(contexts := used.contexts - r.contexts);
    }

    method TryReserve(r: Resources) returns (res: Result<ScopedReservation>)
      modifies this
      ensures res.Ok? <==> Admits(cap, old(used), r)
      ensures res.Ok? ==> fresh(res.value) && res.value.Holds(this, r) && used == Applied(old(used), r)
      ensures res.Err? ==> res.error == RESOURCE_EXHAUSTED && used == old(used)
    {
      AdmitsExactly(cap, used, r);
      var ok := CanReserve(r);
      if !ok {
        return Err(RESOURCE_EXHAUSTED);
      }
      var reservation := new ScopedReservation(this, r);
      return Ok(reservation);
    }
  }

  /** A reservation that its destructor undoes unless it was committed. */
  class ScopedReservation {
    const ledger: ResourceLedger
    const request: Resources
    var applied: bool
    var committed: bool

    ghost predicate Holds(l: ResourceLedger, r: Resources)
      reads this
    {
      ledger == l && request == r && applied && !committed
    }

    constructor (l: ResourceLedger, r: Resources)
      modifies l
      ensures Holds(l, r) && l.used == Applied(old(l.used), r)
    {
      ledger := l;
      request := r;
      applied := true;
      committed := false;
      new;
      l.Apply(r);
    }

    method Commit()
      modifies this
      ensures committed && applied == old(applied)
    {
      committed := true;
    }

    /** The destructor. */
    method Destroy()
      modifies ledger
      ensures ledger.used == if applied && !committed then Released(old(ledger.used), request) else old(ledger.used)
    {
      if applied && !committed {
        ledger.Release(request);
      }
    }
  }

  /** A reservation abandoned before its commit leaks nothing, unless a counter wrapped. */
  method ReserveAndAbandon(l: ResourceLedger, r: Resources) returns (res: Result<()>)
    modifies l
    ensures res.Ok? <==> Admits(l.cap, old(l.used), r)
    ensures l.used == old(l.used) <==> res.Err? || NoWrap(old(l.used), r)
  {
    var reservation :- l.TryReserve(r);
    RollbackRestores(old(l.used), r);
    reservation.Destroy();
    return Ok(());
  }
}
