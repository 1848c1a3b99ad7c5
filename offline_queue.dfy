/** The offline write queue of src/lib/supabase.ts: an ordered queue of
    pending operations, a guard flag against overlapping drains, and a
    persisted mirror of the queue in the browser's storage slot
    `operationQueue`. The remote `insert` is an oracle: a drain pass is
    given the outcome of each insert call it makes, in call order. */
module OfflineQueue {
  /** The one operation name the drain forwards to the remote store. */
  const InsertOp: string := "insert"

  /** How a remote insert call ends: it resolves without an error, it
      resolves with an `{error}` object, or it throws. */
  datatype Outcome = Ok | ReturnedError | Thrown

  /** A queue entry `{operation, data}`. */
  datatype Op<T> = Op(operation: string, data: T)

  /** One remote insert call and how it ended. */
  datatype Call<T> = Call(payload: T, outcome: Outcome)

  /** What a drain pass leaves: the queue that remains and the insert
      calls it made, in the order it made them. */
  datatype Pass<T> = Pass(rest: seq<Op<T>>, trace: seq<Call<T>>)

  /** The persisted slot: no value, a readable snapshot, or text that
      does not parse as a list of operations. */
  datatype Slot<T> = Absent | Saved(ops: seq<Op<T>>) | Unparsable

  /** How startup loading ends; `ParseFailure` is the exception that
      escapes `loadQueue` when the saved text cannot be parsed. */
  datatype LoadResult = NothingSaved | Restored | ParseFailure

  /** The payloads of the insert operations of `q`, in queue order. */
  function Inserts<T>(q: seq<Op<T>>): seq<T>
  {
    if q == [] then []
    else (if q[0].operation == InsertOp then [q[0].data] else []) + Inserts(q[1..])
  }

  function Payloads<T>(t: seq<Call<T>>): seq<T>
  {
    if t == [] then [] else [t[0].payload] + Payloads(t[1..])
  }

  lemma PayloadsCons<T>(c: Call<T>, t: seq<Call<T>>)
    ensures Payloads([c] + t) == [c.payload] + Payloads(t)
  {
    assert ([c] + t)[1..] == t;
  }

  /** The payloads the store acknowledged without an error: the rows
      that were actually written. */
  function Written<T>(t: seq<Call<T>>): seq<T>
  {
    if t == [] then []
    else (if t[0].outcome == Ok then [t[0].payload] else []) + Written(t[1..])
  }

  lemma {:induction false} InsertsAppend<T>(a: seq<Op<T>>, b: seq<Op<T>>)
    ensures Inserts(a + b) == Inserts(a) + Inserts(b)
  {
    if a == [] {
      assert a + b == b;
    } else {
      var h := if a[0].operation == InsertOp then [a[0].data] else [];
      assert (a + b)[0] == a[0];
      assert (a + b)[1..] == a[1..] + b;
      InsertsAppend(a[1..], b);
      assert Inserts(a + b) == h + Inserts(a[1..] + b);
      assert Inserts(a) == h + Inserts(a[1..]);
    }
  }

  /** Taking a prefix commutes with dropping the head. */
  lemma InsertsOfPrefix<T>(q: seq<Op<T>>, m: nat)
    requires 1 <= m <= |q|
    ensures Inserts(q[..m]) == (if q[0].operation == InsertOp then [q[0].data] else []) + Inserts(q[1..][..m - 1])
  {
    assert q[..m] == [q[0]] + q[1..][..m - 1];
    InsertsAppend([q[0]], q[1..][..m - 1]);
    assert [q[0]][1..] == [];
  }

  /** One pass of the `while` loop of `processQueue`, as written: the head
      is sent when it is an insert; the entry is shifted off when the call
      returns, whether or not it returned an error; a thrown call stops the
      pass with that entry still at the head. `reply(k)` is the outcome of
      the k-th insert call of the pass. */
  function DrainPass<T>(q: seq<Op<T>>, reply: nat -> Outcome, k: nat): Pass<T>
    decreases |q|
  {
    if q == [] then Pass([], [])
    else if q[0].operation != InsertOp then DrainPass(q[1..], reply, k)
    else if reply(k) == Thrown then Pass(q, [Call(q[0].data, Thrown)])
    else
      var r := DrainPass(q[1..], reply, k + 1);
      Pass(r.rest, [Call(q[0].data, reply(k))] + r.trace)
  }

  /** What remains after a pass is a suffix of the queue it started from. */
  lemma {:induction false} DrainLeavesSuffix<T>(q: seq<Op<T>>, reply: nat -> Outcome, k: nat)
    ensures var r := DrainPass(q, reply, k);
      |r.rest| <= |q| && r.rest == q[|q| - |r.rest|..]
    decreases |q|
  {
    if q != [] && (q[0].operation != InsertOp || reply(k) != Thrown) {
      DrainLeavesSuffix(q[1..], reply, if q[0].operation != InsertOp then k else k + 1);
    }
  }

  /** One step of the drain loop that sends the head and shifts it off:
      the calls made so far plus the rest of the pass do not change. */
  lemma DrainStepSend<T>(q: seq<Op<T>>, reply: nat -> Outcome, k: nat, t: seq<Call<T>>)
    requires q != [] && q[0].operation == InsertOp && reply(k) != Thrown
    ensures var r := DrainPass(q, reply, k);
      var r' := DrainPass(q[1..], reply, k + 1);
      r.rest == r'.rest && t + r.trace == (t + [Call(q[0].data, reply(k))]) + r'.trace
  {
    var r := DrainPass(q, reply, k);
    var r' := DrainPass(q[1..], reply, k + 1);
    assert r.trace == [Call(q[0].data, reply(k))] + r'.trace;
  }

  /** FIFO: the calls of a pass carry exactly the inserts of the removed
      prefix, in queue order, followed by the head that threw if the pass
      stopped early. */
  lemma {:induction false} DrainIsFifo<T>(q: seq<Op<T>>, reply: nat -> Outcome, k: nat)
    ensures var r := DrainPass(q, reply, k);
      && |r.rest| <= |q|
      && Payloads(r.trace) == Inserts(q[..|q| - |r.rest|]) + (if r.rest == [] then [] else [r.rest[0].data])
    decreases |q|, 1
  {
    if q == [] {
      assert q[..0] == [];
    } else if q[0].operation != InsertOp {
      FifoSkip(q, reply, k);
    } else if reply(k) == Thrown {
      FifoStop(q, reply, k);
    } else {
      FifoSend(q, reply, k);
    }
  }

  /** `DrainIsFifo` when the head is not an insert. */
  lemma {:induction false} FifoSkip<T>(q: seq<Op<T>>, reply: nat -> Outcome, k: nat)
    requires q != [] && q[0].operation != InsertOp
    ensures var r := DrainPass(q, reply, k);
      && |r.rest| <= |q|
      && Payloads(r.trace) == Inserts(q[..|q| - |r.rest|]) + (if r.rest == [] then [] else [r.rest[0].data])
    decreases |q|, 0
  {
    var r := DrainPass(q, reply, k);
    var r' := DrainPass(q[1..], reply, k);
    assert r == r';
    DrainIsFifo(q[1..], reply, k);
    var m := |q| - |r.rest|;
    assert |q[1..]| - |r'.rest| == m - 1;
    var tail := if r.rest == [] then [] else [r.rest[0].data];
    assert Payloads(r'.trace) == Inserts(q[1..][..m - 1]) + tail;
    InsertsOfPrefix(q, m);
    assert Inserts(q[..m]) == Inserts(q[1..][..m - 1]);
  }

  /** `DrainIsFifo` when the head insert throws. */
  lemma {:induction false} FifoStop<T>(q: seq<Op<T>>, reply: nat -> Outcome, k: nat)
    requires q != [] && q[0].operation == InsertOp && reply(k) == Thrown
    ensures var r := DrainPass(q, reply, k);
      && |r.rest| <= |q|
      && Payloads(r.trace) == Inserts(q[..|q| - |r.rest|]) + (if r.rest == [] then [] else [r.rest[0].data])
  {
    assert q[..0] == [];
  }

  /** `DrainIsFifo` when the head insert returns. */
  lemma {:induction false} FifoSend<T>(q: seq<Op<T>>, reply: nat -> Outcome, k: nat)
    requires q != [] && q[0].operation == InsertOp && reply(k) != Thrown
    ensures var r := DrainPass(q, reply, k);
      && |r.rest| <= |q|
      && Payloads(r.trace) == Inserts(q[..|q| - |r.rest|]) + (if r.rest == [] then [] else [r.rest[0].data])
    decreases |q|, 0
  {
    var r := DrainPass(q, reply, k);
    var r' := DrainPass(q[1..], reply, k + 1);
    var c := Call(q[0].data, reply(k));
    assert r == Pass(r'.rest, [c] + r'.trace);
    DrainIsFifo(q[1..], reply, k + 1);
    var m := |q| - |r.rest|;
    assert |q[1..]| - |r'.rest| == m - 1;
    var tail := if r.rest == [] then [] else [r.rest[0].data];
    assert Payloads(r'.trace) == Inserts(q[1..][..m - 1]) + tail;
    PayloadsCons(c, r'.trace);
    InsertsOfPrefix(q, m);
    assert Inserts(q[..m]) == [q[0].data] + Inserts(q[1..][..m - 1]);
  }


  /** The i-th call of a pass gets the i-th reply. */
  lemma {:induction false} DrainRepliesInOrder<T>(q: seq<Op<T>>, reply: nat -> Outcome, k: nat, i: nat)
    requires i < |DrainPass(q, reply, k).trace|
    ensures DrainPass(q, reply, k).trace[i].outcome == reply(k + i)
    decreases |q|
  {
    if q[0].operation != InsertOp {
      assert DrainPass(q, reply, k) == DrainPass(q[1..], reply, k);
      DrainRepliesInOrder(q[1..], reply, k, i);
    } else if reply(k) != Thrown && i > 0 {
      var r := DrainPass(q, reply, k);
      var r' := DrainPass(q[1..], reply, k + 1);
      assert r.trace == [Call(q[0].data, reply(k))] + r'.trace;
      assert r.trace[i] == r'.trace[i - 1];
      DrainRepliesInOrder(q[1..], reply, k + 1, i - 1);
      assert (k + 1) + (i - 1) == k + i;
    }
  }

  /** A pass ends early exactly when an insert call throws: if entries
      remain, the head is an insert whose call (the last one) threw and no
      earlier call threw; if none remain, no call threw. */
  lemma {:induction false} DrainStopsAtFirstThrow<T>(q: seq<Op<T>>, reply: nat -> Outcome, k: nat)
    ensures var r := DrainPass(q, reply, k);
      && (r.rest == [] ==> forall i :: 0 <= i < |r.trace| ==> r.trace[i].outcome != Thrown)
      && (r.rest != [] ==>
            && r.rest[0].operation == InsertOp
            && |r.trace| > 0 && r.trace[|r.trace| - 1].outcome == Thrown
            && forall i :: 0 <= i < |r.trace| - 1 ==> r.trace[i].outcome != Thrown)
    decreases |q|
  {
    if q == [] {
    } else if q[0].operation != InsertOp {
      DrainStopsAtFirstThrow(q[1..], reply, k);
    } else if reply(k) == Thrown {
    } else {
      var r := DrainPass(q, reply, k);
      var r' := DrainPass(q[1..], reply, k + 1);
      DrainStopsAtFirstThrow(q[1..], reply, k + 1);
      assert r.trace == [Call(q[0].data, reply(k))] + r'.trace;
      forall i | 0 < i < |r.trace|
        ensures r.trace[i] == r'.trace[i - 1]
      {
      }
    }
  }

  /** When no call of the pass throws, the pass empties the queue and
      sends every queued insert once, in submission order. */
  lemma DrainWithoutThrowSendsAll<T>(q: seq<Op<T>>, reply: nat -> Outcome)
    requires forall i :: reply(i) != Thrown
    ensures DrainPass(q, reply, 0).rest == []
    ensures Payloads(DrainPass(q, reply, 0).trace) == Inserts(q)
  {
    var r := DrainPass(q, reply, 0);
    DrainStopsAtFirstThrow(q, reply, 0);
    DrainIsFifo(q, reply, 0);
    if r.rest != [] {
      DrainRepliesInOrder(q, reply, 0, |r.trace| - 1);
      assert false;
    }
    assert q[..|q|] == q;
  }

  /** A trace whose calls all resolved without an error wrote every
      payload it carries. */
  lemma {:induction false} WrittenAllOk<T>(t: seq<Call<T>>)
    requires forall i :: 0 <= i < |t| ==> t[i].outcome == Ok
    ensures Written(t) == Payloads(t)
  {
    if t != [] {
      assert forall i :: 0 <= i < |t[1..]| ==> t[1..][i] == t[i + 1];
      WrittenAllOk(t[1..]);
    }
  }

  /** When every call of the pass resolves without an error, the pass
      empties the queue and the store gets a row for every queued insert,
      in submission order. */
  lemma DrainAllOkWritesAll<T>(q: seq<Op<T>>, reply: nat -> Outcome)
    requires forall i :: reply(i) == Ok
    ensures DrainPass(q, reply, 0).rest == []
    ensures Written(DrainPass(q, reply, 0).trace) == Inserts(q)
  {
    var t := DrainPass(q, reply, 0).trace;
    DrainWithoutThrowSendsAll(q, reply);
    forall i | 0 <= i < |t|
      ensures t[i].outcome == Ok
    {
      DrainRepliesInOrder(q, reply, 0, i);
    }
    WrittenAllOk(t);
  }

  /** Head-of-line blocking: if the insert at position `j` gets a thrown
      call while none before it does, the pass stops with `q[j..]` left and
      makes no call for any entry after `j`. */
  lemma {:induction false} HeadOfLineBlocking<T>(q: seq<Op<T>>, reply: nat -> Outcome, k: nat, j: nat)
    requires j < |q| && q[j].operation == InsertOp
    requires forall i :: k <= i < k + |Inserts(q[..j])| ==> reply(i) != Thrown
    requires reply(k + |Inserts(q[..j])|) == Thrown
    ensures DrainPass(q, reply, k).rest == q[j..]
    ensures |DrainPass(q, reply, k).trace| == |Inserts(q[..j])| + 1
    decreases j
  {
    if j == 0 {
      assert q[..0] == [];
    } else {
      assert q[..j] == [q[0]] + q[1..][..j - 1];
      InsertsAppend([q[0]], q[1..][..j - 1]);
      assert q[1..][j - 1..] == q[j..];
      if q[0].operation != InsertOp {
        HeadOfLineBlocking(q[1..], reply, k, j - 1);
      } else {
        assert reply(k) != Thrown;
        HeadOfLineBlocking(q[1..], reply, k + 1, j - 1);
      }
    }
  }

  /** A head that throws leaves the whole queue in place for the next pass:
      the one-step case (`j == 0` of `HeadOfLineBlocking`) that `Restart`
      uses. */
  lemma BlockedHeadKeepsQueue<T>(q: seq<Op<T>>, reply: nat -> Outcome, k: nat)
    requires q != [] && q[0].operation == InsertOp && reply(k) == Thrown
    ensures DrainPass(q, reply, k) == Pass(q, [Call(q[0].data, Thrown)])
  {
  }

  /** As written, an insert whose call resolves with an `{error}` is
      shifted off: the entry leaves the queue although no row was written. */
  lemma ReturnedErrorDropsEntry<T>(p: T)
    ensures var r := DrainPass([Op(InsertOp, p)], _ => ReturnedError, 0);
      r.rest == [] && Payloads(r.trace) == [p] && Written(r.trace) == []
  {
    var q := [Op(InsertOp, p)];
    assert q[1..] == [];
    assert DrainPass(q, _ => ReturnedError, 0) == Pass([], [Call(p, ReturnedError)]);
  }

  /** The drain as "Remove from queue if successful" intends it: an entry
      is shifted off only when its call resolved without an error; any
      other outcome stops the pass with the entry at the head. */
  function DrainPassConfirmed<T>(q: seq<Op<T>>, reply: nat -> Outcome, k: nat): Pass<T>
    decreases |q|
  {
    if q == [] then Pass([], [])
    else if q[0].operation != InsertOp then DrainPassConfirmed(q[1..], reply, k)
    else if reply(k) != Ok then Pass(q, [Call(q[0].data, reply(k))])
    else
      var r := DrainPassConfirmed(q[1..], reply, k + 1);
      Pass(r.rest, [Call(q[0].data, Ok)] + r.trace)
  }

  /** With the confirmed drain no insert leaves the queue unwritten: the
      rows written are exactly the inserts removed, in queue order. */
  lemma {:induction false} ConfirmedDrainLosesNothing<T>(q: seq<Op<T>>, reply: nat -> Outcome, k: nat)
    ensures var r := DrainPassConfirmed(q, reply, k);
      && |r.rest| <= |q| && r.rest == q[|q| - |r.rest|..]
      && Written(r.trace) == Inserts(q[..|q| - |r.rest|])
    decreases |q|
  {
    var r := DrainPassConfirmed(q, reply, k);
    if q == [] {
      assert q[..0] == [];
    } else if q[0].operation != InsertOp {
      ConfirmedDrainLosesNothing(q[1..], reply, k);
      InsertsOfPrefix(q, |q| - |r.rest|);
    } else if reply(k) != Ok {
      assert q[..0] == [];
      assert r.trace[1..] == [];
    } else {
      var r' := DrainPassConfirmed(q[1..], reply, k + 1);
      ConfirmedDrainLosesNothing(q[1..], reply, k + 1);
      InsertsOfPrefix(q, |q| - |r.rest|);
      assert r.trace[1..] == r'.trace;
    }
  }

  /** The module-level state of src/lib/supabase.ts. */
  class WriteQueue<T> {
    /** `queue`: the pending operations, head first. */
    var queue: seq<Op<T>>
    /** `isProcessingQueue`. */
    var draining: bool
    /** The storage slot `operationQueue`. */
    var stored: Slot<T>
    /** Every remote insert call made through this module, in order. */
    ghost var remoteCalls: seq<Call<T>>

    /** The persisted snapshot mirrors the in-memory queue. */
    ghost predicate Synced()
      reads this
    {
      stored == Saved(queue) || (stored == Absent && queue == [])
    }

    /** The state a call of `processQueue` leaves, given the state
        (`q0`, `busy`, `st0`, `log0`) it started from. */
    ghost predicate AfterProcess(q0: seq<Op<T>>, busy: bool, st0: Slot<T>, log0: seq<Call<T>>, reply: nat -> Outcome)
      reads this
    {
      if busy || q0 == [] then
        queue == q0 && draining == busy && stored == st0 && remoteCalls == log0
      else
        var r := DrainPass(q0, reply, 0);
        && queue == r.rest
        && !draining
        && remoteCalls == log0 + r.trace
        && stored == (if |r.rest| < |q0| then Saved(r.rest) else st0)
    }

    /** Module evaluation up to `loadQueue`: an empty queue, the flag down,
        and whatever the storage slot already holds. */
    constructor (slot: Slot<T>)
      ensures queue == [] && !draining && stored == slot && remoteCalls == []
    {
      queue := [];
      draining := false;
      stored := slot;
      remoteCalls := [];
    }

    /** `supabase.from('prices').insert(data)`: one remote call, ending as
        `outcome` says. */
    method Insert(data: T, outcome: Outcome) returns (o: Outcome)
      modifies this
      ensures o == outcome
      ensures remoteCalls == old(remoteCalls) + [Call(data, outcome)]
      ensures queue == old(queue) && draining == old(draining) && stored == old(stored)
    {
      o := outcome;
      remoteCalls := remoteCalls + [Call(data, outcome)];
    }

    /** `processQueue`: a no-op while a pass is running or when the queue
        is empty; otherwise one drain pass, re-saving the snapshot after
        every shift, then the flag cleared. */
    method ProcessQueue(reply: nat -> Outcome)
      modifies this
      ensures AfterProcess(old(queue), old(draining), old(stored), old(remoteCalls), reply)
      ensures old(Synced()) ==> Synced()
    {
      if draining || |queue| == 0 {
        return;
      }
      draining := true;
      ghost var q0, st0, log0 := queue, stored, remoteCalls;
      ghost var r := DrainPass(q0, reply, 0);
      ghost var t: seq<Call<T>> := [];
      ghost var removed: nat := 0;
      var calls: nat := 0;
      while |queue| > 0
        invariant draining
        invariant remoteCalls == log0 + t && calls == |t|
        invariant removed <= |q0| && queue == q0[removed..]
        invariant stored == if removed > 0 then Saved(queue) else st0
        invariant r == Pass(DrainPass(queue, reply, calls).rest, t + DrainPass(queue, reply, calls).trace)
        decreases |queue|
      {
        var item := queue[0];
        if item.operation == InsertOp {
          var outcome := Insert(item.data, reply(calls));
          if outcome == Thrown {
            t := t + [Call(item.data, outcome)];
            calls := calls + 1;
            break;
          }
          DrainStepSend(queue, reply, calls, t);
          t := t + [Call(item.data, outcome)];
          calls := calls + 1;
        }
        assert q0[removed + 1..] == queue[1..];
        queue := queue[1..];
        removed := removed + 1;
        stored := Saved(queue);
      }
      assert r == Pass(queue, t);
      assert queue == r.rest && remoteCalls == log0 + r.trace;
      draining := false;
    }

    /** `addToQueue`: append at the tail, save the snapshot, start a drain. */
    method AddToQueue(operation: string, data: T, reply: nat -> Outcome)
      modifies this
      ensures AfterProcess(old(queue) + [Op(operation, data)], old(draining),
                           Saved(old(queue) + [Op(operation, data)]), old(remoteCalls), reply)
      ensures Synced()
    {
      queue := queue + [Op(operation, data)];
      stored := Saved(queue);
      ProcessQueue(reply);
    }

    /** `loadQueue`: append the saved snapshot, in its order, then drain.
        Unreadable text makes the parse throw out of module evaluation. */
    method LoadQueue(reply: nat -> Outcome) returns (r: LoadResult)
      modifies this
      ensures old(stored) == Absent ==> r == NothingSaved && unchanged(this)
      ensures old(stored) == Unparsable ==> r == ParseFailure && unchanged(this)
      ensures old(stored).Saved? ==>
        r == Restored &&
        AfterProcess(old(queue) + old(stored).ops, old(draining), old(stored), old(remoteCalls), reply)
      ensures old(queue) == [] && r != ParseFailure ==> Synced()
    {
      match stored
      case Absent =>
        r := NothingSaved;
      case Unparsable =>
        r := ParseFailure;
      case Saved(ops) =>
        queue := queue + ops;
        r := Restored;
        ProcessQueue(reply);
    }
  }

  /** A restart: a fresh module loads the slot the old one kept in sync and
      continues exactly as a drain of the old backlog would. If the first
      call of that drain throws, the backlog comes back unchanged. */
  method Restart<T>(before: WriteQueue<T>, reply: nat -> Outcome) returns (after: WriteQueue<T>, r: LoadResult)
    requires before.Synced()
    ensures fresh(after) && r != ParseFailure
    ensures after.queue == DrainPass(before.queue, reply, 0).rest
    ensures after.remoteCalls == DrainPass(before.queue, reply, 0).trace
    ensures after.Synced() && !after.draining
    ensures reply(0) == Thrown && (before.queue == [] || before.queue[0].operation == InsertOp)
            ==> after.queue == before.queue
  {
    after := new WriteQueue<T>(before.stored);
    assert [] + before.queue == before.queue;
    r := after.LoadQueue(reply);
    if before.queue != [] && before.queue[0].operation == InsertOp && reply(0) == Thrown {
      BlockedHeadKeepsQueue(before.queue, reply, 0);
    }
  }

  /** Two restarts in a row: the second resumes from what the first drain
      left, so nothing the first pass kept is lost across the reloads. */
  method RestartTwice<T>(before: WriteQueue<T>, first: nat -> Outcome, second: nat -> Outcome)
    returns (after: WriteQueue<T>)
    requires before.Synced()
    ensures fresh(after) && after.Synced() && !after.draining
    ensures after.queue == DrainPass(DrainPass(before.queue, first, 0).rest, second, 0).rest
    ensures after.remoteCalls == DrainPass(DrainPass(before.queue, first, 0).rest, second, 0).trace
  {
    var mid, r := Restart(before, first);
    after, r := Restart(mid, second);
  }
}
