/** The function adapters of `many_sender.h`: `many_sender<SF>` turns a
    callable into a many-sender whose `submit` calls it with the receiver;
    `many_sender<Data, DSF>` pairs a data value with a callable and passes
    the data by reference from a persisting sender and by move from an
    expiring one; `many_sender<>` is `many_sender<ignoreSF>`. Callables are
    opaque values: a submission is the call it makes, not what the callable
    then does with the receiver. */
module Adapters {
  import opened Pushmi

  /** A stored callable: pushmi's `ignoreSF` (ignores its arguments),
      `passDSF` (submits the receiver to the data), or the caller's own. */
  datatype Callable<F> = IgnoreSF | PassDSF | Fn(f: F)

  /** The member `data_`: intact, or moved out by an rvalue `submit`. */
  datatype Stored<D> = Intact(value: D) | MovedOut

  /** How the data reaches the callable. */
  datatype Passed<D> = NoData | ByRef(ref: Stored<D>) | ByMove(moved: Stored<D>)

  /** The one call a `submit` makes. */
  datatype Invocation<D, F> =
    | Dropped                                       // ignoreSF
    | SubmittedTo(data: Passed<D>, out: Receiver)   // passDSF: submit(data, out)
    | Called(f: F, data: Passed<D>, out: Receiver)  // the caller's callable

  datatype ManySender<D, F> =
    | FnSender(sf: Callable<F>)                     // many_sender<SF>
    | DataSender(data: Stored<D>, dsf: Callable<F>) // many_sender<Data, DSF>

  /** The senders whose `submit` compiles: `passDSF` needs the data, so a
      `many_sender<passDSF>` has no usable `submit`. */
  predicate Compiles<D, F>(s: ManySender<D, F>) {
    s.FnSender? ==> !s.sf.PassDSF?
  }

  /** Whether `submit` is called on a persisting (`&`) or an expiring (`&&`)
      sender; only `many_sender<Data, DSF>` overloads on it. */
  datatype Category = Lvalue | Rvalue

  /** The sender after a `submit`, and the call it made. */
  datatype Submitted<D, F> = Submitted(after: ManySender<D, F>, call: Invocation<D, F>)

  /** `sf_(args..., out)` for each kind of stored callable. */
  function Invoke<D, F>(c: Callable<F>, data: Passed<D>, out: Receiver): (r: Invocation<D, F>)
    ensures r.Dropped? <==> c.IgnoreSF?
    ensures !r.Dropped? ==> r.out == out && r.data == data
    ensures r.Called? <==> c.Fn?
    ensures r.Called? ==> r.f == c.f
  {
    match c
    case IgnoreSF => Dropped
    case PassDSF => SubmittedTo(data, out)
    case Fn(f) => Called(f, data, out)
  }

  /** `many_sender<>`: a `many_sender<ignoreSF>`. */
  function EmptySender<D, F>(): (r: ManySender<D, F>)
    ensures r.FnSender? && r.sf.IgnoreSF? && Compiles(r)
  {
    FnSender(IgnoreSF)
  }

  /** `submit(out)` on a sender used as `how`. `many_sender<SF>::submit`
      calls `sf_(std::move(out))` whatever the category;
      `many_sender<Data, DSF>::submit() &` calls `sf_(data_, out)` and
      `submit() &&` calls `sf_(std::move(data_), out)`. */
  function Submit<D, F>(s: ManySender<D, F>, out: Receiver, how: Category): (r: Submitted<D, F>)
    ensures r.after.FnSender? == s.FnSender?
    ensures s.FnSender? || how == Lvalue ==> r.after == s
    ensures s.DataSender? && how == Rvalue ==> r.after == s.(data := MovedOut)
    ensures s.FnSender? ==> r.call == Invoke(s.sf, NoData, out)
    ensures s.DataSender? ==>
      r.call == Invoke(s.dsf, if how == Lvalue then ByRef(s.data) else ByMove(s.data), out)
  {
    match s
    case FnSender(sf) =>
      Submitted(s, Invoke(sf, NoData, out))
    case DataSender(data, dsf) =>
      if how == Lvalue then Submitted(s, Invoke(dsf, ByRef(data), out))
      else Submitted(s.(data := MovedOut), Invoke(dsf, ByMove(data), out))
  }

  /** The sender after several submissions, and the calls they made in order. */
  datatype Submissions<D, F> = Submissions(after: ManySender<D, F>, calls: seq<Invocation<D, F>>)

  /** Submits once to each receiver of `outs` in turn, each time to the
      sender the previous submission left. */
  function SubmitEach<D, F>(s: ManySender<D, F>, outs: seq<Receiver>, how: Category): (r: Submissions<D, F>)
    decreases |outs|
  {
    if outs == [] then Submissions(s, [])
    else
      var first := Submit(s, outs[0], how);
      var rest := SubmitEach(first.after, outs[1..], how);
      Submissions(rest.after, [first.call] + rest.calls)
  }

  /** `many_sender<SF>` is its callable: submitting `out` makes exactly the
      call `f(out)` and changes nothing. */
  lemma FnSenderCallsOnce<D, F>(f: F, out: Receiver, how: Category)
    ensures Submit(FnSender(Fn(f)), out, how) ==
      Submitted(ManySender<D, F>.FnSender(Fn(f)), Called(f, NoData, out))
  {
  }

  /** `many_sender<>` drops every receiver and stays as it is. */
  lemma EmptySenderDrops<D, F>(out: Receiver, how: Category)
    ensures Submit(EmptySender<D, F>(), out, how) == Submitted(EmptySender(), Dropped)
  {
  }

  /** Repeated `submit() &`: every call sees the data the sender was built
      with, and the sender is left as it was. */
  lemma {:induction false} SharedSubmissionsKeepData<D, F>(s: ManySender<D, F>, outs: seq<Receiver>)
    requires s.DataSender?
    ensures SubmitEach(s, outs, Lvalue).after == s
    ensures |SubmitEach(s, outs, Lvalue).calls| == |outs|
    ensures forall i | 0 <= i < |outs| ::
      SubmitEach(s, outs, Lvalue).calls[i] == Invoke(s.dsf, ByRef(s.data), outs[i])
    decreases |outs|
  {
    if outs != [] {
      SharedSubmissionsKeepData(s, outs[1..]);
    }
  }

  /** Repeated `submit() &&`: the data moves into the first call only; every
      later call receives the moved-from data. */
  lemma {:induction false} ConsumingSubmissionsMoveOnce<D, F>(s: ManySender<D, F>, outs: seq<Receiver>)
    requires s.DataSender?
    ensures outs != [] ==> SubmitEach(s, outs, Rvalue).after == s.(data := MovedOut)
    ensures |SubmitEach(s, outs, Rvalue).calls| == |outs|
    ensures forall i | 0 <= i < |outs| ::
      SubmitEach(s, outs, Rvalue).calls[i] ==
        Invoke(s.dsf, ByMove(if i == 0 then s.data else MovedOut), outs[i])
    decreases |outs|
  {
    if outs != [] {
      var moved := s.(data := MovedOut);
      ConsumingSubmissionsMoveOnce(moved, outs[1..]);
      assert moved.(data := MovedOut) == moved;
    }
  }
}
