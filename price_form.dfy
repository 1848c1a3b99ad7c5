/** The submit handler of src/components/PriceForm.tsx: validation, the
    offline branch that skips the direct insert and queues the entry
    (queuing starts a drain at once), the online branch that inserts
    directly and falls back to the queue on any failure, and the form
    state the handler resets. */
module PriceFormModel {
  import opened PriceTypes
  import opened OfflineQueue

  /** Every entry is submitted under this shopkeeper id. */
  const Guest: string := "guest"

  /** The initial and the reset state of the form. */
  const EmptyForm: NewPriceEntry := NewPriceEntry("", "", 0.0)

  /** The guard of the handler: both names non-empty and a positive price. */
  predicate IsValid(f: NewPriceEntry)
  {
    f.item_name != "" && f.supplier != "" && f.price > 0.0
  }

  /** `toISOString().split('T')[0]`: the text before the first `T`, or the
      whole text when there is none. */
  function DatePart(iso: string): (d: string)
    ensures |d| <= |iso| && d == iso[..|d|]
    ensures 'T' !in d
    ensures |d| < |iso| ==> iso[|d|] == 'T'
  {
    if iso == [] || iso[0] == 'T' then []
    else [iso[0]] + DatePart(iso[1..])
  }

  /** The contract of `DatePart` fixes the result: any prefix free of `T`
      that ends at a `T` or at the end of the text is that result. */
  lemma {:induction false} DatePartUnique(iso: string, d: string)
    requires |d| <= |iso| && d == iso[..|d|]
    requires 'T' !in d
    requires |d| < |iso| ==> iso[|d|] == 'T'
    ensures d == DatePart(iso)
  {
    if d != [] {
      assert d[0] in d && iso[0] == d[0];
      assert d[1..] == iso[1..][..|d| - 1];
      assert forall c :: c in d[1..] ==> c in d;
      DatePartUnique(iso[1..], d[1..]);
      assert d == [iso[0]] + d[1..];
    }
  }

  /** The day of a timestamp in the format `toISOString` produces: the
      text before the `T` that separates the day from the time. */
  lemma DatePartOfTimestamp(day: string, time: string)
    requires 'T' !in day
    ensures DatePart(day + "T" + time) == day
  {
    var iso := day + "T" + time;
    assert iso[..|day|] == day;
    assert iso[|day|] == 'T';
    DatePartUnique(iso, day);
  }

  /** `{...formData, shopkeeper_id: 'guest', date}`. */
  function EntryFor(f: NewPriceEntry, date: string): Payload
  {
    Payload(f.item_name, f.supplier, f.price, Guest, date)
  }

  /** The form fields of an entry. */
  function FormOf(p: Payload): NewPriceEntry
  {
    NewPriceEntry(p.item_name, p.supplier, p.price)
  }

  /** The entry carries the form unchanged, the guest id and the date. */
  lemma EntryKeepsForm(f: NewPriceEntry, date: string)
    ensures FormOf(EntryFor(f, date)) == f
    ensures EntryFor(f, date).shopkeeper_id == Guest && EntryFor(f, date).date == date
  {
  }

  /** How one call of the handler ends. */
  datatype Submission =
    | Rejected            // the guard failed; nothing was sent or queued
    | SavedOffline        // offline: queued, and the drain queuing starts has run
    | SavedOnline         // online: the direct insert succeeded
    | QueuedAfterFailure  // online: the insert failed and the entry was queued

  /** The component's state: the edited fields, the submitting flag, how
      often `onSuccess` has been called, and the shared write queue. */
  class PriceForm {
    var formData: NewPriceEntry
    var isSubmitting: bool
    var successCalls: nat
    const writes: WriteQueue<Payload>

    constructor (w: WriteQueue<Payload>)
      ensures formData == EmptyForm && !isSubmitting && successCalls == 0 && writes == w
    {
      formData := EmptyForm;
      isSubmitting := false;
      successCalls := 0;
      writes := w;
    }

    /** `handleSubmit`. `online` is `navigator.onLine`, `now` the current
        timestamp as `toISOString` writes it, `reply` the outcome of the
        direct insert and `drain` the outcomes of the inserts of the drain
        that `addToQueue` starts. */
    method HandleSubmit(online: bool, now: string, reply: Outcome, drain: nat -> Outcome) returns (s: Submission)
      modifies this, writes
      ensures !IsValid(old(formData)) ==> s == Rejected && unchanged(this) && unchanged(writes)
      ensures IsValid(old(formData)) ==> !isSubmitting
      ensures IsValid(old(formData)) && !online ==>
        var op := Op(InsertOp, EntryFor(old(formData), DatePart(now)));
        && s == SavedOffline
        && writes.AfterProcess(old(writes.queue) + [op], old(writes.draining),
                               Saved(old(writes.queue) + [op]), old(writes.remoteCalls), drain)
        && formData == EmptyForm && successCalls == old(successCalls) + 1
      ensures IsValid(old(formData)) && online && reply == Ok ==>
        && s == SavedOnline
        && writes.queue == old(writes.queue) && writes.stored == old(writes.stored)
        && writes.draining == old(writes.draining)
        && writes.remoteCalls == old(writes.remoteCalls) + [Call(EntryFor(old(formData), DatePart(now)), Ok)]
        && formData == EmptyForm && successCalls == old(successCalls) + 1
      ensures IsValid(old(formData)) && online && reply != Ok ==>
        var e := EntryFor(old(formData), DatePart(now));
        && s == QueuedAfterFailure
        && writes.AfterProcess(old(writes.queue) + [Op(InsertOp, e)], old(writes.draining),
                               Saved(old(writes.queue) + [Op(InsertOp, e)]),
                               old(writes.remoteCalls) + [Call(e, reply)], drain)
        && formData == old(formData) && successCalls == old(successCalls)
    {
      if !IsValid(formData) {
        return Rejected;
      }
      isSubmitting := true;
      var entry := EntryFor(formData, DatePart(now));
      if !online {
        writes.AddToQueue(InsertOp, entry, drain);
        formData := EmptyForm;
        successCalls := successCalls + 1;
        isSubmitting := false;
        return SavedOffline;
      }
      var outcome := writes.Insert(entry, reply);
      if outcome == Ok {
        formData := EmptyForm;
        successCalls := successCalls + 1;
        s := SavedOnline;
      } else {
        // a returned `{error}` is rethrown, so both failures reach the same handler
        writes.AddToQueue(InsertOp, entry, drain);
        s := QueuedAfterFailure;
      }
      isSubmitting := false;
    }
  }

  /** A submission that went to the queue is sent as the last call of a
      drain that meets no thrown call, after every insert queued before it,
      and the drain leaves nothing behind. */
  lemma QueuedSubmissionIsSent(q: seq<Op<Payload>>, e: Payload, drain: nat -> Outcome)
    requires forall i :: drain(i) != Thrown
    ensures DrainPass(q + [Op(InsertOp, e)], drain, 0).rest == []
    ensures Payloads(DrainPass(q + [Op(InsertOp, e)], drain, 0).trace) == Inserts(q) + [e]
  {
    DrainWithoutThrowSendsAll(q + [Op(InsertOp, e)], drain);
    InsertsAppend(q, [Op(InsertOp, e)]);
    assert [Op(InsertOp, e)][1..] == [];
  }

  /** A submission that went to the queue is stored by a drain whose calls
      all resolve without an error: its row is written last, after the rows
      of every insert queued before it. */
  lemma QueuedSubmissionIsStored(q: seq<Op<Payload>>, e: Payload, drain: nat -> Outcome)
    requires forall i :: drain(i) == Ok
    ensures DrainPass(q + [Op(InsertOp, e)], drain, 0).rest == []
    ensures Written(DrainPass(q + [Op(InsertOp, e)], drain, 0).trace) == Inserts(q) + [e]
  {
    DrainAllOkWritesAll(q + [Op(InsertOp, e)], drain);
    InsertsAppend(q, [Op(InsertOp, e)]);
    assert [Op(InsertOp, e)][1..] == [];
  }
}
