/** Vocabulary shared by the type-erased holder `any_many_sender`, the
    `many_sender` adapters and the factory of `many_sender.h`: the wrapped
    senders and receivers as opaque values, where a holder keeps its object,
    and what the allocator and the wrapped type's special members see. */
module Pushmi {

  datatype Option<T> = None | Some(value: T)

  /** The erased receiver `any_receiver<E, VN...>` handed to a wrapped sender.
      Its channels belong to the receiver and are not modelled. */
  datatype Receiver = Receiver(id: nat)

  /** A concrete many-sender object (`Wrapped`): its identity as a value, and
      the two facts about its type that decide the storage strategy,
      `sizeof(Wrapped)` and `is_nothrow_move_constructible<Wrapped>`. */
  datatype Producer = Producer(id: nat, size: nat, nothrowMove: bool)

  /** One call of a wrapped sender's own `submit` with an erased receiver. */
  datatype Delivery = Delivery(target: Producer, out: Receiver)

  /** What a holder owns: nothing (the no-op table), an object on the heap
      (the heap table), or an object in its inline buffer (the inline table). */
  datatype Held = Nothing | OnHeap(obj: Producer) | InPlace(obj: Producer)

  /** Running totals: `new Wrapped`, `delete` of a non-null pointer, objects
      of type `Wrapped` constructed inside a holder's storage (heap object or
      inline buffer), and `~Wrapped()` runs on such objects (explicit, or as
      part of `delete`). Temporaries outside a holder's storage, such as the
      by-value constructor parameters, are not counted. */
  datatype Counts = Counts(allocs: nat, frees: nat, builds: nat, dtors: nat) {
    function Plus(other: Counts): Counts {
      Counts(allocs + other.allocs, frees + other.frees,
             builds + other.builds, dtors + other.dtors)
    }
  }

  const NoCost := Counts(0, 0, 0, 0)

  /** `insitu<Wrapped>()`: the object fits the inline buffer and its move
      constructor cannot throw. */
  predicate Insitu(obj: Producer, bufferSize: nat) {
    obj.size <= bufferSize && obj.nothrowMove
  }

  /** Where `explicit any_many_sender(Wrapped obj)` puts `obj`: it dispatches
      on `bool_<insitu<Wrapped>()>` to the inline or the heap constructor. */
  function Emplace(obj: Producer, bufferSize: nat): (h: Held)
    ensures h != Nothing && h.obj == obj
    ensures h.InPlace? <==> obj.size <= bufferSize && obj.nothrowMove
    ensures h.OnHeap? <==> bufferSize < obj.size || !obj.nothrowMove
  {
    if Insitu(obj, bufferSize) then InPlace(obj) else OnHeap(obj)
  }

  /** What installing `h` in a fresh holder costs: one object constructed,
      and one allocation when it goes to the heap. */
  function ConstructCost(h: Held): (c: Counts)
    ensures c.builds == (if h.Nothing? then 0 else 1)
    ensures c.allocs == (if h.OnHeap? then 1 else 0)
    ensures c.frees == 0 && c.dtors == 0
  {
    match h
    case Nothing => NoCost
    case OnHeap(_) => Counts(1, 0, 1, 0)
    case InPlace(_) => Counts(0, 0, 1, 0)
  }

  /** What `op_(src, &dst)` costs. The heap table hands the pointer over and
      then deletes the now-null source pointer, which frees nothing; the
      inline table move-constructs into the destination buffer and runs the
      source object's destructor. */
  function MoveCost(h: Held): (c: Counts)
    ensures c.allocs == 0 && c.frees == 0
    ensures c.builds == c.dtors
    ensures c.builds == (if h.InPlace? then 1 else 0)
  {
    match h
    case Nothing => NoCost
    case OnHeap(_) => NoCost
    case InPlace(_) => Counts(0, 0, 1, 1)
  }

  /** What `op_(src, nullptr)` costs: `delete` on the heap, an explicit
      destructor call inline, nothing for the no-op table. */
  function DestroyCost(h: Held): (c: Counts)
    ensures c.allocs == 0 && c.builds == 0
    ensures c.frees == (if h.OnHeap? then 1 else 0)
    ensures c.dtors == (if h.Nothing? then 0 else 1)
  {
    match h
    case Nothing => NoCost
    case OnHeap(_) => Counts(0, 1, 0, 1)
    case InPlace(_) => Counts(0, 0, 0, 1)
  }

  /** The call `submit_` makes for a holder owning `h`: the no-op table's
      `s_submit` drops the receiver, the other two tables call the held
      object's `submit` once. */
  function Forward(h: Held, out: Receiver): (d: Option<Delivery>)
    ensures d.None? <==> h.Nothing?
    ensures d.Some? ==> d.value.target == h.obj && d.value.out == out
  {
    if h.Nothing? then None else Some(Delivery(h.obj, out))
  }
}
