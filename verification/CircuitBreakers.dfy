/**
 The per-dependency circuit breaker: CLOSED, OPEN and HALF_OPEN with a single probe. The class keeps
 one entry per key.
 */
module CircuitBreakers {

  datatype CircuitState = Closed | Open | HalfOpen

  datatype Circuit = Circuit(state: CircuitState, failures: nat, openedAt: int, probeActive: bool)

  datatype BreakerConfig = BreakerConfig(failureThreshold: nat, cooldownMs: nat)

  predicate ValidBreaker(c: BreakerConfig) {
    c.failureThreshold >= 1 && c.cooldownMs >= 1
  }

  /** Refused, or allowed in the CLOSED state or as the HALF_OPEN probe. */
  datatype Permit = Refused | Allowed | Probe

  const NEW_CIRCUIT: Circuit := Circuit(Closed, 0, 0, false)

  /** Closed means fewer failures than the threshold, half-open means a probe is out. */
  predicate ValidCircuit(b: BreakerConfig, c: Circuit) {
    && (c.state.Closed? <==> c.failures < b.failureThreshold)
    && (c.state.HalfOpen? <==> c.probeActive)
  }

  function PermitFor(b: BreakerConfig, c: Circuit, now: int): Permit {
    match c.state
    case Closed => Allowed
    case Open => if now - c.openedAt < b.cooldownMs then Refused else Probe
    case HalfOpen => if c.probeActive then Refused else Probe
  }

  function Acquired(b: BreakerConfig, c: Circuit, now: int): Circuit {
    if PermitFor(b, c, now).Probe? then c.(state := HalfOpen, probeActive := true) else c
  }

  function Succeeded(c: Circuit): Circuit {
    c.(state := Closed, failures := 0, probeActive := false)
  }

  function Failed(b: BreakerConfig, c: Circuit, now: int): Circuit {
    if c.state.HalfOpen? then c.(state := Open, openedAt := now, probeActive := false)
    else if c.failures + 1 >= b.failureThreshold then
      Circuit(Open, c.failures + 1, now, false)
    else c.(failures := c.failures + 1, probeActive := false)
  }

  /** What an execution may do to the circuit. */
  datatype Op = AcquireOp(now: int) | SucceededOp | FailedOp(now: int)

  function Apply(b: BreakerConfig, c: Circuit, op: Op): Circuit {
    match op
    case AcquireOp(now) => Acquired(b, c, now)
    case SucceededOp => Succeeded(c)
    case FailedOp(now) => Failed(b, c, now)
  }

  function ApplyAll(b: BreakerConfig, c: Circuit, ops: seq<Op>): Circuit {
    if ops == [] then c else Apply(b, ApplyAll(b, c, ops[..|ops| - 1]), ops[|ops| - 1])
  }

  lemma ApplyValid(b: BreakerConfig, c: Circuit, op: Op)
    requires ValidBreaker(b) && ValidCircuit(b, c)
    ensures ValidCircuit(b, Apply(b, c, op))
  {
  }

  /** Every circuit reachable by any calls keeps CLOSED iff below the threshold, HALF_OPEN iff probing. */
  lemma {:induction false} ReachableValid(b: BreakerConfig, c: Circuit, ops: seq<Op>)
    requires ValidBreaker(b) && ValidCircuit(b, c)
    ensures ValidCircuit(b, ApplyAll(b, c, ops))
  {
    if ops != [] {
      ReachableValid(b, c, ops[..|ops| - 1]);
      ApplyValid(b, ApplyAll(b, c, ops[..|ops| - 1]), ops[|ops| - 1]);
    }
  }

  // ----------------------------------------------- what one execution sees

  /** A call on the circuit as one execution sees it: its own or somebody else's. */
  datatype Act = Own(op: Op) | Other(op: Op)

  /** The circuit, and whether this execution holds a HALF_OPEN permit it has not answered. */
  datatype View = View(circuit: Circuit, owes: bool)

  function Seen(b: BreakerConfig, v: View, a: Act): View {
    match a
    case Other(op) => v.(circuit := Apply(b, v.circuit, op))
    case Own(op) =>
      View(Apply(b, v.circuit, op), op.AcquireOp? && PermitFor(b, v.circuit, op.now).Probe?)
  }

  function SeenAll(b: BreakerConfig, v: View, acts: seq<Act>): View {
    if acts == [] then v else Seen(b, SeenAll(b, v, acts[..|acts| - 1]), acts[|acts| - 1])
  }

  /** What an execution sees of a circuit it has not touched yet. */
  function Fresh(c: Circuit): View {
    View(c, false)
  }

  function AsOthers(ops: seq<Op>): seq<Act> {
    seq(|ops|, i requires 0 <= i < |ops| => Other(ops[i]))
  }

  /** The execution's own calls, in their order. */
  function OwnOps(acts: seq<Act>): seq<Op> {
    if acts == [] then []
    else OwnOps(acts[..|acts| - 1]) + if acts[|acts| - 1].Own? then [acts[|acts| - 1].op] else []
  }

  lemma OwnOpsAppend(acts: seq<Act>, op: Op)
    ensures OwnOps(acts + [Own(op)]) == OwnOps(acts) + [op]
  {
    assert (acts + [Own(op)])[..|acts + [Own(op)]| - 1] == acts;
  }

  lemma {:induction false} OthersOwnNothing(acts: seq<Act>, ops: seq<Op>)
    ensures OwnOps(acts + AsOthers(ops)) == OwnOps(acts)
  {
    if ops == [] {
      assert acts + AsOthers(ops) == acts;
    } else {
      var front, all := ops[..|ops| - 1], acts + AsOthers(ops);
      assert all[..|all| - 1] == acts + AsOthers(front);
      OthersOwnNothing(acts, front);
    }
  }

  predicate Acquires(a: Act) {
    a.Own? && a.op.AcquireOp?
  }

  /** An execution asks for a permit only while it owes no answer. */
  predicate Disciplined(b: BreakerConfig, c: Circuit, acts: seq<Act>) {
    forall k :: 0 <= k < |acts| && Acquires(acts[k]) ==> !SeenAll(b, Fresh(c), acts[..k]).owes
  }

  // ---------------------------------------------------------------- the class

  type Key = string

  class CircuitBreaker {
    const config: BreakerConfig
    var circuits: map<Key, Circuit>

    ghost predicate Valid()
      reads this
    {
      ValidBreaker(config) && forall k :: k in circuits ==> ValidCircuit(config, circuits[k])
    }

    /** The entry of a key; keys not seen yet count as new, closed circuits. */
    function Entry(key: Key): Circuit
      reads this
    {
      if key in circuits then circuits[key] else NEW_CIRCUIT
    }

    constructor (config: BreakerConfig)
      requires ValidBreaker(config)
      ensures Valid() && this.config == config && circuits == map[]
    {
      this.config := config;
      circuits := map[];
    }

    method Acquire(key: Key, now: int) returns (permit: Permit)
      requires Valid()
      modifies this
      ensures Valid()
      ensures permit == PermitFor(config, old(Entry(key)), now)
      ensures Entry(key) == Acquired(config, old(Entry(key)), now)
      ensures forall k :: k != key ==> Entry(k) == old(Entry(k))
    {
      var entry := Entry(key);
      if entry.state.Open? {
        if now - entry.openedAt < config.cooldownMs {
          circuits := circuits[key := entry];
          return Refused;
        }
        entry := entry.(state := HalfOpen, probeActive := false);
      }
      if entry.state.HalfOpen? {
        if entry.probeActive {
          permit := Refused;
        } else {
          entry := entry.(probeActive := true);
          permit := Probe;
        }
      } else {
        permit := Allowed;
      }
      circuits := circuits[key := entry];
    }

    method Succeed(key: Key) returns (previous: CircuitState, current: CircuitState)
      requires Valid()
      modifies this
      ensures Valid()
      ensures previous == old(Entry(key)).state && current == Closed
      ensures Entry(key) == Succeeded(old(Entry(key)))
      ensures forall k :: k != key ==> Entry(k) == old(Entry(k))
    {
      var entry := Entry(key);
      previous := entry.state;
      entry := entry.(state := Closed, failures := 0, probeActive := false);
      current := entry.state;
      circuits := circuits[key := entry];
    }

    method Fail(key: Key, now: int) returns (previous: CircuitState, current: CircuitState)
      requires Valid()
      modifies this
      ensures Valid()
      ensures previous == old(Entry(key)).state && current == Entry(key).state
      ensures Entry(key) == Failed(config, old(Entry(key)), now)
      ensures forall k :: k != key ==> Entry(k) == old(Entry(k))
    {
      var entry := Entry(key);
      previous := entry.state;
      entry := entry.(probeActive := false);
      if entry.state.HalfOpen? {
        entry := entry.(state := Open, openedAt := now);
      } else {
        entry := entry.(failures := entry.failures + 1);
        if entry.failures >= config.failureThreshold {
          entry := entry.(state := Open, openedAt := now);
        }
      }
      circuits := circuits[key := entry];
      current := entry.state;
    }
  }
}
