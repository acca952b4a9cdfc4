/**
 What a circuit breaker answers, told by the history of calls on it alone: by the failures reported in a row,
 when the last of them was reported, and what has been asked since.
 */
module CircuitHistories {
  import opened Basics
  import opened CircuitBreakers

  /** How many failures were reported since the last success. */
  function InARow(ops: seq<Op>): nat {
    if ops == [] || ops[|ops| - 1].SucceededOp? then 0
    else InARow(ops[..|ops| - 1]) + if ops[|ops| - 1].FailedOp? then 1 else 0
  }

  /** The last failure was reported at position k, and nothing but permits was asked for since. */
  predicate LastFailure(ops: seq<Op>, k: nat) {
    k < |ops| && ops[k].FailedOp? && forall i :: k < i < |ops| ==> ops[i].AcquireOp?
  }

  /** Since the failure at position k, a permit was asked for after the cooldown. */
  predicate AskedAfterCooldown(b: BreakerConfig, ops: seq<Op>, k: nat)
    requires LastFailure(ops, k)
  {
    exists i :: k < i < |ops| && ops[i].now - ops[k].now >= b.cooldownMs
  }

  function After(b: BreakerConfig, ops: seq<Op>): Circuit {
    ApplyAll(b, NEW_CIRCUIT, ops)
  }

  lemma {:induction false} FailureExists(ops: seq<Op>) returns (k: nat)
    requires InARow(ops) >= 1
    ensures LastFailure(ops, k)
  {
    var last := |ops| - 1;
    if ops[last].FailedOp? {
      k := last;
    } else {
      k := FailureExists(ops[..last]);
    }
  }

  /** The circuit after a history: how many failures count and, while it is not closed, what came since the last. */
  predicate Told(b: BreakerConfig, ops: seq<Op>, c: Circuit) {
    && (c.state.Closed? <==> InARow(ops) < b.failureThreshold)
    && (c.state.Closed? ==> c.failures == InARow(ops))
    && (!c.state.Closed? ==> c.failures >= b.failureThreshold)
    && (c.probeActive <==> c.state.HalfOpen?)
    && forall k :: 0 <= k < |ops| && LastFailure(ops, k) && !c.state.Closed? ==>
         c.openedAt == ops[k].now && (c.state.HalfOpen? <==> AskedAfterCooldown(b, ops, k))
  }

  lemma {:induction false} HistoryTold(b: BreakerConfig, ops: seq<Op>)
    requires ValidBreaker(b)
    ensures Told(b, ops, After(b, ops))
  {
    if ops != [] {
      var front, last := ops[..|ops| - 1], ops[|ops| - 1];
      HistoryTold(b, front);
      assert InARow(ops) >= b.failureThreshold ==> !last.SucceededOp?;
      var c, d := After(b, front), After(b, ops);
      forall k | 0 <= k < |ops| && LastFailure(ops, k) && !d.state.Closed?
        ensures d.openedAt == ops[k].now && (d.state.HalfOpen? <==> AskedAfterCooldown(b, ops, k))
      {
        if k == |front| {
          assert !AskedAfterCooldown(b, ops, k);
        } else {
          assert LastFailure(front, k);
          AskedGrows(b, front, last, k);
        }
      }
    }
  }

  lemma AskedGrows(b: BreakerConfig, front: seq<Op>, last: Op, k: nat)
    requires LastFailure(front, k) && last.AcquireOp? && LastFailure(front + [last], k)
    ensures AskedAfterCooldown(b, front + [last], k)
         <==> AskedAfterCooldown(b, front, k) || last.now - front[k].now >= b.cooldownMs
  {
    var ops := front + [last];
    if AskedAfterCooldown(b, front, k) {
      var i :| k < i < |front| && front[i].now - front[k].now >= b.cooldownMs;
      assert ops[i] == front[i];
    }
    if last.now - front[k].now >= b.cooldownMs {
      assert ops[|front|] == last;
    }
  }

  /** A circuit is open for everybody from the threshold-th failure in a row, or a failed probe, on. */
  lemma OpensExactly(b: BreakerConfig, ops: seq<Op>)
    requires ValidBreaker(b)
    ensures After(b, ops).state.Closed? <==> InARow(ops) < b.failureThreshold
    ensures ops != [] && ops[|ops| - 1].FailedOp? && InARow(ops) >= b.failureThreshold ==>
              After(b, ops).state.Open? && After(b, ops).openedAt == ops[|ops| - 1].now
  {
    HistoryTold(b, ops);
    if ops != [] && ops[|ops| - 1].FailedOp? {
      assert LastFailure(ops, |ops| - 1);
    }
  }

  /**
   What a permit depends on. With fewer failures in a row than the threshold everybody is allowed. Otherwise
   nobody is before the cooldown after the last failure is over; the first to ask after it is the probe, and
   nobody else is until the probe is answered. Only the probe changes the circuit.
   */
  lemma PermitTold(b: BreakerConfig, ops: seq<Op>, now: int)
    requires ValidBreaker(b)
    ensures var c := After(b, ops);
            var permit := PermitFor(b, c, now);
            && (permit.Allowed? <==> InARow(ops) < b.failureThreshold)
            && (permit.Probe? <==>
                  InARow(ops) >= b.failureThreshold &&
                  exists k :: 0 <= k < |ops| && LastFailure(ops, k)
                    && now - ops[k].now >= b.cooldownMs && !AskedAfterCooldown(b, ops, k))
            && (!permit.Probe? ==> Acquired(b, c, now) == c)
            && (permit.Probe? ==> Acquired(b, c, now).state.HalfOpen?)
  {
    HistoryTold(b, ops);
    if InARow(ops) >= b.failureThreshold {
      var k := FailureExists(ops);
      assert LastFailure(ops, k);
    }
  }

  /** During the cooldown every request for a permit is refused and leaves the circuit as it was. */
  lemma {:induction false} CooldownHolds(b: BreakerConfig, ops: seq<Op>, asked: seq<Op>)
    requires ValidBreaker(b) && ops != [] && ops[|ops| - 1].FailedOp? && InARow(ops) >= b.failureThreshold
    requires forall i :: 0 <= i < |asked| ==> asked[i].AcquireOp? && asked[i].now < ops[|ops| - 1].now + b.cooldownMs
    ensures After(b, ops + asked) == After(b, ops)
    ensures forall i :: 0 <= i < |asked| ==> PermitFor(b, After(b, ops + asked[..i]), asked[i].now).Refused?
  {
    if asked == [] {
      assert ops + asked == ops;
    } else {
      var earlier, last := asked[..|asked| - 1], asked[|asked| - 1];
      CooldownHolds(b, ops, earlier);
      OpensExactly(b, ops);
      assert (ops + asked)[..|ops + asked| - 1] == ops + earlier;
      forall i | 0 <= i < |asked| ensures PermitFor(b, After(b, ops + asked[..i]), asked[i].now).Refused? {
        assert asked[..i] == if i < |earlier| then earlier[..i] else earlier;
      }
    }
  }

  /** After a probe, nobody gets a permit until it is answered. */
  lemma {:induction false} OneProbe(b: BreakerConfig, ops: seq<Op>, now: int, asked: seq<Op>)
    requires ValidBreaker(b) && PermitFor(b, After(b, ops), now).Probe?
    requires forall i :: 0 <= i < |asked| ==> asked[i].AcquireOp?
    ensures After(b, ops + [AcquireOp(now)] + asked) == After(b, ops + [AcquireOp(now)])
    ensures After(b, ops + [AcquireOp(now)] + asked).state.HalfOpen?
    ensures forall later :: PermitFor(b, After(b, ops + [AcquireOp(now)] + asked), later).Refused?
  {
    var probed := ops + [AcquireOp(now)];
    if asked == [] {
      assert probed + asked == probed && probed[..|ops|] == ops;
    } else {
      OneProbe(b, ops, now, asked[..|asked| - 1]);
      assert (probed + asked)[..|probed + asked| - 1] == probed + asked[..|asked| - 1];
    }
  }
}
