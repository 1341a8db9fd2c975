/**
 * The stress-test workload and what running it produces: the operations
 * `stress_test_subscribe` queues, and the requests the queued `ws_operation`
 * calls send when they run, with identifiers allocated at run time.
 */
module Workload {
  import opened Ids
  import opened Messages

  /** The order-book channel of one instrument at the 100 ms cadence. */
  function BookChannel(instrument: string): string {
    "book." + instrument + ".100ms"
  }

  /** Iteration `k` subscribes when `k` is even and unsubscribes when it is odd. */
  function IterationKind(k: nat): OpKind {
    if k % 2 == 0 then Subscribe else Unsubscribe
  }

  /** Consecutive iterations alternate between subscribing and unsubscribing. */
  lemma IterationKindAlternates(k: nat)
    ensures IterationKind(k + 1) == if IterationKind(k) == Subscribe then Unsubscribe else Subscribe
  {
  }

  /** One pass of the inner loop: one operation per instrument, in list order. */
  function IterationOps(kind: OpKind, instruments: seq<string>): (r: seq<Operation>)
    ensures |r| == |instruments|
  {
    if instruments == [] then []
    else IterationOps(kind, instruments[..|instruments| - 1])
         + [Operation(kind, BookChannel(instruments[|instruments| - 1]))]
  }

  /**
   * Every operation the first `n` iterations of the outer loop queue, in order:
   * `n * |instruments|` of them, none for a non-positive count.
   */
  function StressOps(n: int, instruments: seq<string>): (r: seq<Operation>)
    ensures |r| == (if n > 0 then n else 0) * |instruments|
    decreases n
  {
    if n <= 0 then [] else StressOps(n - 1, instruments) + IterationOps(IterationKind(n - 1), instruments)
  }

  /** One more iteration appends its pass of the inner loop. */
  lemma StressOpsStep(n: nat, instruments: seq<string>)
    ensures StressOps(n + 1, instruments) == StressOps(n, instruments) + IterationOps(IterationKind(n), instruments)
  {
  }

  /** Operation j of one pass of the inner loop is the `kind` operation on instrument j's book channel. */
  lemma {:induction false} IterationOpsAt(kind: OpKind, instruments: seq<string>, j: nat)
    requires j < |instruments|
    ensures IterationOps(kind, instruments)[j] == Operation(kind, BookChannel(instruments[j]))
    decreases |instruments|
  {
    if j < |instruments| - 1 {
      var init := instruments[..|instruments| - 1];
      IterationOpsAt(kind, init, j);
    }
  }

  /**
   * Operation `k * |instruments| + j` of the workload is iteration k's operation
   * on instrument j: subscribe for even k, unsubscribe for odd k, on that
   * instrument's book channel.
   */
  lemma {:induction false} StressOpsAt(n: int, instruments: seq<string>, k: nat, j: nat)
    requires k < n && j < |instruments|
    ensures k * |instruments| + j < |StressOps(n, instruments)|
    ensures StressOps(n, instruments)[k * |instruments| + j] == Operation(IterationKind(k), BookChannel(instruments[j]))
    decreases n
  {
    var prev := StressOps(n - 1, instruments);
    assert StressOps(n, instruments) == prev + IterationOps(IterationKind(n - 1), instruments);
    if k < n - 1 {
      StressOpsAt(n - 1, instruments, k, j);
    } else {
      assert |prev| == k * |instruments|;
      IterationOpsAt(IterationKind(k), instruments, j);
    }
  }

  /**
   * Running the queued operations `ops` in order from counters `c`: the request
   * each one sends and the counters after the last one.
   */
  function RunOps(ops: seq<Operation>, c: Counters): (r: (seq<Request>, Counters))
    ensures |r.0| == |ops|
    decreases |ops|
  {
    if ops == [] then ([], c)
    else
      var first := Allocate(ops[0].kind, c);
      var rest := RunOps(ops[1..], first.1);
      ([OperationRequest(ops[0].kind, first.0, ops[0].channel)] + rest.0, rest.1)
  }

  /** The number of operations of `kind` in `ops`. */
  function CountKind(ops: seq<Operation>, kind: OpKind): nat {
    if ops == [] then 0 else (if ops[0].kind == kind then 1 else 0) + CountKind(ops[1..], kind)
  }

  /**
   * After running `ops`, each counter has advanced once per operation of its
   * kind, modulo the band width.
   */
  lemma {:induction false} RunOpsCounters(ops: seq<Operation>, c: Counters, kind: OpKind)
    requires c.Valid()
    ensures RunOps(ops, c).1.Valid()
    ensures RunOps(ops, c).1.Get(kind) == (c.Get(kind) + CountKind(ops, kind)) % ID_RANGE
    decreases |ops|
  {
    if ops != [] {
      var c' := Allocate(ops[0].kind, c).1;
      RunOpsCounters(ops[1..], c', kind);
      if kind == ops[0].kind {
        ModSuccessor(c.Get(kind), CountKind(ops[1..], kind));
      }
    }
  }

  /**
   * Round trip over a run: from valid counters, the identifier of every
   * request sent comes back classified as the reply to that request's kind
   * of operation, however often the counters have wrapped.
   */
  lemma {:induction false} RunOpsRepliesClassify(ops: seq<Operation>, c: Counters, i: nat)
    requires c.Valid() && i < |ops|
    ensures ClassifyId(RunOps(ops, c).0[i].id) == ReplyKindOf(ops[i].kind)
    decreases i
  {
    if i == 0 {
      IssuedIdRoundTrip(ops[0].kind, c);
    } else {
      RunOpsShift(ops, c, i);
      RunOpsRepliesClassify(ops[1..], Allocate(ops[0].kind, c).1, i - 1);
    }
  }

  /** The i-th request of a run, i > 0, is the (i-1)-th of the run of the rest from the counters the head left. */
  lemma RunOpsShift(ops: seq<Operation>, c: Counters, i: nat)
    requires 0 < i < |ops|
    ensures RunOps(ops, c).0[i] == RunOps(ops[1..], Allocate(ops[0].kind, c).1).0[i - 1]
  {
  }

  /**
   * Running operations sends one request per operation, in queue order: the
   * i-th request is the request of the i-th operation, with its method and
   * channel, so none runs twice and none is dropped; its identifier is
   * allocated from the counters that running the operations before it left.
   */
  lemma {:induction false} RunOpsAllocatesAfterPrefix(ops: seq<Operation>, c: Counters, i: nat)
    requires i < |ops|
    ensures RunOps(ops, c).0[i] == OperationRequest(ops[i].kind, Allocate(ops[i].kind, RunOps(ops[..i], c).1).0, ops[i].channel)
    decreases |ops|
  {
    var c' := Allocate(ops[0].kind, c).1;
    var rest := RunOps(ops[1..], c').0;
    assert RunOps(ops, c).0 == [OperationRequest(ops[0].kind, Allocate(ops[0].kind, c).0, ops[0].channel)] + rest;
    if i == 0 {
      assert ops[..0] == [];
    } else {
      RunOpsAllocatesAfterPrefix(ops[1..], c', i - 1);
      assert ops[..i][1..] == ops[1..][..i - 1];
      assert RunOps(ops[..i], c).1 == RunOps(ops[1..][..i - 1], c').1;
    }
  }

  /**
   * Running a non-empty queue after a log of earlier requests is running its
   * head, then the rest from the counters the head left.
   */
  lemma RunOpsCons(log: seq<Request>, ops: seq<Operation>, c: Counters)
    requires ops != []
    ensures log + RunOps(ops, c).0 == (log + RunOps([ops[0]], c).0) + RunOps(ops[1..], RunOps([ops[0]], c).1).0
    ensures RunOps(ops, c).1 == RunOps(ops[1..], RunOps([ops[0]], c).1).1
  {
    assert [ops[0]][1..] == [];
  }

  /**
   * Two iterations over instruments A and B, from fresh counters, send
   * subscribe(A), subscribe(B), unsubscribe(A), unsubscribe(B) with identifiers
   * 1000, 1001, 2000, 2001.
   */
  lemma TwoIterationScenario()
    ensures RunOps(StressOps(2, ["A", "B"]), Counters(0, 0)).0 == [
      Request(1000, "public/subscribe", Channels(["book.A.100ms"])),
      Request(1001, "public/subscribe", Channels(["book.B.100ms"])),
      Request(2000, "public/unsubscribe", Channels(["book.A.100ms"])),
      Request(2001, "public/unsubscribe", Channels(["book.B.100ms"]))]
  {
    ScenarioOps();
    ScenarioRun();
  }

  /** The two iterations over A, B queue subscribe A, subscribe B, unsubscribe A, unsubscribe B. */
  lemma ScenarioOps()
    ensures StressOps(2, ["A", "B"]) == [
      Operation(Subscribe, "book.A.100ms"), Operation(Subscribe, "book.B.100ms"),
      Operation(Unsubscribe, "book.A.100ms"), Operation(Unsubscribe, "book.B.100ms")]
  {
    var insts := ["A", "B"];
    assert BookChannel("A") == "book.A.100ms";
    assert BookChannel("B") == "book.B.100ms";
    assert insts[..1] == ["A"];
    assert ["A"][..0] == [];
    assert IterationOps(Subscribe, insts) == [Operation(Subscribe, "book.A.100ms"), Operation(Subscribe, "book.B.100ms")];
    assert IterationOps(Unsubscribe, insts) == [Operation(Unsubscribe, "book.A.100ms"), Operation(Unsubscribe, "book.B.100ms")];
    assert StressOps(1, insts) == IterationOps(Subscribe, insts);
  }

  /** Running those four operations from fresh counters sends identifiers 1000, 1001, 2000, 2001. */
  lemma ScenarioRun()
    ensures RunOps([
      Operation(Subscribe, "book.A.100ms"), Operation(Subscribe, "book.B.100ms"),
      Operation(Unsubscribe, "book.A.100ms"), Operation(Unsubscribe, "book.B.100ms")], Counters(0, 0)).0 == [
      Request(1000, "public/subscribe", Channels(["book.A.100ms"])),
      Request(1001, "public/subscribe", Channels(["book.B.100ms"])),
      Request(2000, "public/unsubscribe", Channels(["book.A.100ms"])),
      Request(2001, "public/unsubscribe", Channels(["book.B.100ms"]))]
  {
    var a := Operation(Subscribe, "book.A.100ms");
    var b := Operation(Subscribe, "book.B.100ms");
    var ua := Operation(Unsubscribe, "book.A.100ms");
    var ub := Operation(Unsubscribe, "book.B.100ms");
    assert "public/" + OpName(Subscribe) == "public/subscribe";
    assert "public/" + OpName(Unsubscribe) == "public/unsubscribe";
    assert [ub][1..] == [];
    assert [ua, ub][1..] == [ub];
    assert [b, ua, ub][1..] == [ua, ub];
    assert [a, b, ua, ub][1..] == [b, ua, ub];
    var r3 := RunOps([ub], Counters(2, 1));
    assert r3.0 == [Request(2001, "public/unsubscribe", Channels(["book.B.100ms"]))];
    var r2 := RunOps([ua, ub], Counters(2, 0));
    assert r2.0 == [Request(2000, "public/unsubscribe", Channels(["book.A.100ms"]))] + r3.0;
    var r1 := RunOps([b, ua, ub], Counters(1, 0));
    assert r1.0 == [Request(1001, "public/subscribe", Channels(["book.B.100ms"]))] + r2.0;
  }
}
