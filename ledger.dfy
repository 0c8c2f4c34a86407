/** The mechanism every call kind of the ledger shares: one FIFO queue of expectation
    records and the signed balance counter it moves. Every `set_expect_*` is an
    `Enqueue` on its own kind's queue and every `get_expect_*` a `Consume`; the class
    in module Expectations instantiates these once per kind. */
module Ledger {
  import opened Types

  /** What one call kind sees of the ledger: its own queue and the shared balance. */
  datatype Tally<R> = Tally(queue: seq<R>, balance: int)

  /** The result of consuming once: the new tally and the record taken from the front,
      or `None` when the queue was empty. */
  datatype Step<R> = Step(after: Tally<R>, popped: Option<R>)

  /** `set_expect_*`: push the record at the back and raise the balance by one. The
      records already queued keep their places, and the balance stays as far above the
      queue length as it was. */
  function Enqueue<R>(t: Tally<R>, r: R): (e: Tally<R>)
    ensures |e.queue| == |t.queue| + 1 && e.queue[..|t.queue|] == t.queue && e.queue[|t.queue|] == r
    ensures e.balance - |e.queue| == t.balance - |t.queue|
  {
    Tally(t.queue + [r], t.balance + 1)
  }

  /** `get_expect_*` before the comparison: on an empty queue nothing is taken and the
      balance drops by one unless the ledger is lenient; otherwise the front record is
      removed (`remove(0)`) and the balance drops by one whatever the mode. */
  function Consume<R>(t: Tally<R>, lenient: bool): (s: Step<R>)
    ensures match s.popped
      case None =>
        t.queue == [] && s.after.queue == [] &&
        s.after.balance == (if lenient then t.balance else t.balance - 1)
      case Some(r) =>
        t.queue == [r] + s.after.queue && s.after.balance == t.balance - 1
  {
    if |t.queue| == 0 then
      Step(Tally(t.queue, if lenient then t.balance else t.balance - 1), None)
    else
      Step(Tally(t.queue[1..], t.balance - 1), Some(t.queue[0]))
  }

  /** Enqueuing never changes what the next consume takes from a non-empty queue:
      the new record waits behind the ones already queued. */
  lemma {:induction false} EnqueueBehindFront<R>(t: Tally<R>, r: R, lenient: bool)
    requires t.queue != []
    ensures Consume(Enqueue(t, r), lenient).popped == Consume(t, lenient).popped
    ensures Consume(Enqueue(t, r), lenient).after == Enqueue(Consume(t, lenient).after, r)
  {
  }

  /** The result of a consume whose removal is conditional: the new tally and the
      record compared (the front, or `None` on an empty queue). */
  datatype Peek<R> = Peek(after: Tally<R>, front: Option<R>)

  /** `get_expect_set_header_map_pairs` as written: `remove(0)` is the right operand of
      a short-circuit `&&` behind the type comparison, so the front record is compared
      and the balance moves as in `Consume`, but the record is removed only when
      `removeFront` (the type comparison on the front record) holds. */
  function ConsumeUnlessRejected<R>(t: Tally<R>, lenient: bool, removeFront: bool): (p: Peek<R>)
    ensures p.front == Consume(t, lenient).popped
    ensures p.after.balance == Consume(t, lenient).after.balance
    ensures p.after.queue == (if removeFront then Consume(t, lenient).after.queue else t.queue)
  {
    if |t.queue| == 0 then
      Peek(Tally(t.queue, if lenient then t.balance else t.balance - 1), None)
    else
      Peek(Tally(if removeFront then t.queue[1..] else t.queue, t.balance - 1), Some(t.queue[0]))
  }

  /** How far the balance is above what this kind's queue still holds. */
  function Surplus<R>(t: Tally<R>): int {
    t.balance - |t.queue|
  }

  /** Enqueuing and consuming move the balance in step with the queue, except that a
      strict call against an empty queue lowers it by one more. So in lenient mode the
      balance never drifts from the number of expectations still queued. */
  lemma {:induction false} SurplusMovesOnlyOnStrictDeficit<R>(t: Tally<R>, r: R, lenient: bool)
    ensures Surplus(Enqueue(t, r)) == Surplus(t)
    ensures Surplus(Consume(t, lenient).after) == Surplus(t) - (if t.queue == [] && !lenient then 1 else 0)
  {
  }

  /** The conditional removal breaks that: a rejected front record stays queued while
      the balance still drops, so the balance falls one below what is queued in either
      mode; when the record is removed it behaves exactly as `Consume`. */
  lemma {:induction false} RejectedFrontLowersSurplus<R>(t: Tally<R>, lenient: bool, removeFront: bool)
    ensures removeFront ==>
      ConsumeUnlessRejected(t, lenient, removeFront) == Peek(Consume(t, lenient).after, Consume(t, lenient).popped)
    ensures t.queue != [] && !removeFront ==>
      Surplus(ConsumeUnlessRejected(t, lenient, removeFront).after) == Surplus(t) - 1
  {
  }

  /** A test's setup phase on one kind: enqueue the records in order. */
  function EnqueueAll<R>(t: Tally<R>, rs: seq<R>): Tally<R>
    decreases |rs|
  {
    if rs == [] then t else EnqueueAll(Enqueue(t, rs[0]), rs[1..])
  }

  /** Setting up `rs` appends them in order and raises the balance by `|rs|`. */
  lemma {:induction false} EnqueueAllAppends<R>(t: Tally<R>, rs: seq<R>)
    ensures EnqueueAll(t, rs) == Tally(t.queue + rs, t.balance + |rs|)
    decreases |rs|
  {
    if rs != [] {
      EnqueueAllAppends(Enqueue(t, rs[0]), rs[1..]);
      assert t.queue + [rs[0]] + rs[1..] == t.queue + rs;
    }
  }

  /** `n` consecutive calls of one kind during the exercise phase, with the record each
      call took (or `None`), in call order. */
  datatype Run<R> = Run(after: Tally<R>, popped: seq<Option<R>>)

  function ConsumeTimes<R>(t: Tally<R>, lenient: bool, n: nat): Run<R>
    decreases n
  {
    if n == 0 then Run(t, [])
    else
      var s := Consume(t, lenient);
      var rest := ConsumeTimes(s.after, lenient, n - 1);
      Run(rest.after, [s.popped] + rest.popped)
  }

  /** FIFO law: while records remain, the i-th call takes the i-th queued record, the
      queue loses exactly that prefix and each call lowers the balance by one. */
  lemma {:induction false} ConsumeTimesIsFifo<R>(t: Tally<R>, lenient: bool, n: nat)
    requires n <= |t.queue|
    ensures ConsumeTimes(t, lenient, n).after == Tally(t.queue[n..], t.balance - n)
    ensures |ConsumeTimes(t, lenient, n).popped| == n
    ensures forall i :: 0 <= i < n ==> ConsumeTimes(t, lenient, n).popped[i] == Some(t.queue[i])
    decreases n
  {
    if n > 0 {
      var s := Consume(t, lenient);
      ConsumeTimesIsFifo(s.after, lenient, n - 1);
      assert s.after.queue[n - 1..] == t.queue[n..];
      var run := ConsumeTimes(t, lenient, n);
      forall i | 0 <= i < n
        ensures run.popped[i] == Some(t.queue[i])
      {
        if i > 0 {
          assert run.popped[i] == ConsumeTimes(s.after, lenient, n - 1).popped[i - 1];
          assert s.after.queue[i - 1] == t.queue[i];
        }
      }
    }
  }

  /** Deficit law: calls against an empty queue take nothing; each lowers the balance by
      one in strict mode and leaves it alone in lenient mode. */
  lemma {:induction false} ConsumeTimesWhenEmpty<R>(t: Tally<R>, lenient: bool, n: nat)
    requires t.queue == []
    ensures ConsumeTimes(t, lenient, n).after == Tally([], if lenient then t.balance else t.balance - n)
    ensures |ConsumeTimes(t, lenient, n).popped| == n
    ensures forall i :: 0 <= i < n ==> ConsumeTimes(t, lenient, n).popped[i] == None
    decreases n
  {
    if n > 0 {
      var s := Consume(t, lenient);
      ConsumeTimesWhenEmpty(s.after, lenient, n - 1);
      var run := ConsumeTimes(t, lenient, n);
      forall i | 0 <= i < n
        ensures run.popped[i] == None
      {
        if i > 0 {
          assert run.popped[i] == ConsumeTimes(s.after, lenient, n - 1).popped[i - 1];
        }
      }
    }
  }

  /** N enqueues followed by N calls on one kind: the calls take the records in
      enqueue order and the queue and the balance end where they started. */
  lemma {:induction false} SetupThenExerciseBalances<R>(b: int, lenient: bool, rs: seq<R>)
    ensures ConsumeTimes(EnqueueAll(Tally([], b), rs), lenient, |rs|).after == Tally([], b)
    ensures |ConsumeTimes(EnqueueAll(Tally([], b), rs), lenient, |rs|).popped| == |rs|
    ensures forall i :: 0 <= i < |rs| ==>
      ConsumeTimes(EnqueueAll(Tally([], b), rs), lenient, |rs|).popped[i] == Some(rs[i])
  {
    var t := EnqueueAll(Tally([], b), rs);
    assert t == Tally(rs, b + |rs|) by {
      EnqueueAllAppends(Tally([], b), rs);
      assert [] + rs == rs;
    }
    ConsumeTimesIsFifo(t, lenient, |rs|);
    assert t.queue[|rs|..] == [];
  }
}
