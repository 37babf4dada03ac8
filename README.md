# pushmi many-senders, modelled in Dafny

This project models `folly/experimental/pushmi/many_sender.h`, the
many-sender header of pushmi, folly's experimental library of senders and
receivers. A *many-sender* is an object whose `submit(out)` may deliver any
number of values to the receiver `out`. The header provides:

- `any_many_sender<E, VN...>`, a move-only type-erased holder. It owns one
  concrete many-sender either on the heap or inside an inline buffer, and
  reaches it only through a table of two function pointers: `op_` (move to
  another holder, or destroy) and `submit_`. The inline buffer is used
  exactly when the object fits and its move constructor cannot throw
  (`insitu`). An empty holder points at the shared no-op table.
- `many_sender<SF>`, which turns a callable into a many-sender;
  `many_sender<Data, DSF>`, which pairs a data sender with a callable and
  passes the data by reference from `submit() &` and by move from
  `submit() &&`; and `many_sender<>`, a `many_sender<ignoreSF>`.
- `make_many_sender`, a function object whose four overloads are chosen by
  arity and by whether the argument is already a many-sender.

Files:

- `pushmi.dfy` (module `Pushmi`): the shared vocabulary. It defines the
  opaque wrapped sender (`Producer`, carrying `sizeof` and
  nothrow-movability), receivers, what a holder owns (`Held`), the
  `insitu` choice (`Emplace`), and the allocation, construction and
  destruction cost of each table operation.
- `erased.dfy` (module `Erased`): `any_many_sender` as a class with the
  union `data_` and the table pointer `vptr_` as fields. A ghost `Ledger`
  counts `new`, `delete`, constructions and destructor runs, and maps every
  live heap object to the one holder that owns it.
- `lifetime.dfy` (module `Lifetime`): any number of holders side by side,
  as values, driven by a program of steps. Each step is specified by the
  same cost functions as the class. It proves the conservation laws that
  follow: nothing leaks, frees never outrun allocations, and moves never
  allocate. That no single object is deleted twice is guaranteed in the
  class model, where `Ledger.Delete` only accepts an object a holder owns.
- `adapters.dfy` (module `Adapters`): the `many_sender` adapters as
  datatypes; a submission is the one call it makes.
- `factory.dfy` (module `Factory`): `make_many_sender_fn` as overload
  resolution over a description of the arguments.

## Model

| member | source | states |
|---|---|---|
| Pushmi.Emplace | folly/experimental/pushmi/many_sender.h:32-36 | the wrapping constructor stores the object inline iff it fits the buffer and has a nothrow move constructor, on the heap iff not, and holds that same object |
| Pushmi.Forward | folly/experimental/pushmi/many_sender.h:37-74 | a holder's `submit_` forwards nothing iff it holds nothing (the no-op `s_submit`); otherwise the heap or inline table's `submit` makes exactly one call, on the held object, with the given receiver |
| Pushmi.ConstructCost | folly/experimental/pushmi/many_sender.h:45-79 | installing an object in a fresh holder builds exactly one object in holder storage, allocates only for the heap constructor (`new` at line 59, placement `new` at line 77), and frees or destroys nothing |
| Pushmi.MoveCost | folly/experimental/pushmi/many_sender.h:48-70 | `op_` with a destination never allocates or frees; the heap table's `delete` of the nulled source costs nothing, and the inline table builds one object and destroys one |
| Pushmi.DestroyCost | folly/experimental/pushmi/many_sender.h:48-70 | `op_` with no destination never allocates or builds; it frees exactly when the object is on the heap and runs exactly one destructor when the holder is not empty |
| Erased.Ledger.New | folly/experimental/pushmi/many_sender.h:59 | `new Wrapped` yields a fresh object equal to the argument, owned by the holder, and counts one allocation and one construction |
| Erased.Ledger.Delete | folly/experimental/pushmi/many_sender.h:51 | `delete` of a null pointer changes nothing; of a live object it counts one free and one destructor run and ends its ownership; it is only callable on a live object, so nothing is deleted twice |
| Erased.Ledger.Hand | folly/experimental/pushmi/many_sender.h:50 | `std::exchange` moves ownership of the heap object to the destination holder without any allocation, free, construction or destruction |
| Erased.Ledger.PlacementNew | folly/experimental/pushmi/many_sender.h:67-68 | a placement `new` of `Wrapped` counts one construction and touches no heap ownership |
| Erased.Ledger.RunDestructor | folly/experimental/pushmi/many_sender.h:69 | the explicit `~Wrapped()` on an inline buffer counts one destructor run and touches no heap ownership |
| Erased.AnyManySender.Empty | folly/experimental/pushmi/many_sender.h:87 | a default-constructed holder has the no-op table and a null pointer, and holds nothing |
| Erased.AnyManySender.Wrap | folly/experimental/pushmi/many_sender.h:93-98 | wrapping holds `Emplace(obj)`; only a heap placement allocates, the new heap object is owned by this holder alone, and exactly one object is constructed in the holder's storage |
| Erased.AnyManySender.PlaceOnHeap | folly/experimental/pushmi/many_sender.h:45-61 | the heap constructor allocates one fresh object, owned by this holder, and installs the heap table |
| Erased.AnyManySender.PlaceInline | folly/experimental/pushmi/many_sender.h:62-79 | the inline constructor constructs the object in the buffer without allocating and installs the inline table |
| Erased.AnyManySender.Op | folly/experimental/pushmi/many_sender.h:48-70 | `op_` never changes a table pointer; the no-op table does nothing; the heap table hands the pointer to the destination and nulls the source, so its `delete` frees nothing, or with no destination deletes the object; the inline table move-constructs into the destination and destroys the source object |
| Erased.AnyManySender.Submit | folly/experimental/pushmi/many_sender.h:107-111 | `submit` makes exactly the call `Forward(Contents(), out)`: none on an empty or moved-from holder, one on the held object otherwise |
| Erased.AnyManySender.Destroy | folly/experimental/pushmi/many_sender.h:99-101 | the destructor is `op_(data_, nullptr)`: it deletes a heap object, destroys an inline one, does nothing for an empty holder, and ends this holder's ownership |
| Erased.AnyManySender.TakeFrom | folly/experimental/pushmi/many_sender.h:89-90 | on an empty holder, the source's `op_` followed by swapping the table pointers moves the object here and leaves the source empty with the no-op table |
| Erased.AnyManySender.Move | folly/experimental/pushmi/many_sender.h:88-91 | the move constructor holds what the source held, leaves the source empty, transfers ownership of a heap object without allocating or freeing, and for an inline object builds one and destroys one |
| Erased.AnyManySender.MoveAssign | folly/experimental/pushmi/many_sender.h:102-106 | move assignment from a different holder destroys this holder's object, then takes over the source's object as the move constructor does, leaving the source empty |
| Erased.HeapLifecycle | folly/experimental/pushmi/many_sender.h:45-111 | a heap-stored sender wrapped, moved and both holders destroyed: the moved-to holder forwards what the original did, the moved-from one nothing, and the counts grow by exactly one allocation, one free, one construction and one destruction |
| Erased.InlineLifecycle | folly/experimental/pushmi/many_sender.h:62-111 | an inline-stored sender wrapped, submitted, moved, submitted to both holders and both destroyed: the moved-to holder forwards what the original did, the moved-from one nothing, and there is no allocation, with two constructions and two destructions |
| Lifetime.ApplyShape | folly/experimental/pushmi/many_sender.h:45-111 | each holder operation as a step on the world: constructors and the move constructor add a holder, the destructor removes one, only wrapping a non-`insitu` object allocates, and `submit` changes no holder or count and forwards one call unless the holder is empty |
| Lifetime.ApplyBalanced | folly/experimental/pushmi/many_sender.h:45-106 | every constructor, move, move assignment, destructor and submit keeps the books balanced: unfreed allocations equal heap-owning holders, and undestroyed objects equal non-empty holders |
| Lifetime.RunBalanced | folly/experimental/pushmi/many_sender.h:45-106 | any sequence of holder operations keeps the books balanced |
| Lifetime.NoLeakNoDoubleFree | folly/experimental/pushmi/many_sender.h:45-106 | from an empty program, frees never exceed allocations and destructor runs never exceed constructions; once every holder is destroyed, both pairs are equal |
| Lifetime.MoveConstructTransfers | folly/experimental/pushmi/many_sender.h:88-91 | the moved-to holder owns and forwards exactly what the source did, the source forwards nothing, and nothing is allocated or freed |
| Lifetime.MoveAssignTransfers | folly/experimental/pushmi/many_sender.h:102-106 | after move assignment the destination holds the source's object and the source holds nothing; the destination's old object is freed if it was on the heap and destroyed if it existed, and no allocation happens |
| Lifetime.RelayCost | folly/experimental/pushmi/many_sender.h:88-101 | moving a holder into a new one and destroying the old one, `k` times, costs nothing for a heap object and `k` constructions and destructions for an inline one |
| Lifetime.SingleSenderLifetime | folly/experimental/pushmi/many_sender.h:45-101 | a sender wrapped, moved `k` times and destroyed costs one allocation, one free, and one construction and one destruction in holder storage on the heap, and `k + 1` constructions and destructions in holder storage with no allocation inline |
| Lifetime.DestroyLast | folly/experimental/pushmi/many_sender.h:99-101 | destroying the last holder leaves no holders and adds exactly the destroy cost of what it held |
| Lifetime.EmptyDropsSubmissions | folly/experimental/pushmi/many_sender.h:37-44 | submitting to an empty or moved-from holder changes nothing and forwards nothing |
| Adapters.Invoke | folly/experimental/pushmi/many_sender.h:152-163 | the stored callable is invoked once with the given data and receiver: `ignoreSF` drops the call, `passDSF` submits the receiver to the data, and the caller's callable is called |
| Adapters.EmptySender | folly/experimental/pushmi/many_sender.h:166-170 | `many_sender<>` is a `many_sender<ignoreSF>`, whose `submit` compiles |
| Adapters.Submit | folly/experimental/pushmi/many_sender.h:129-163 | `submit` makes exactly the stored callable's call: `many_sender<SF>` calls its callable with the receiver only and is unchanged; `many_sender<Data, DSF>` passes its data by reference and stays intact from `submit() &`, and by move, leaving its data moved out, from `submit() &&` |
| Adapters.FnSenderCallsOnce | folly/experimental/pushmi/many_sender.h:129-134 | submitting to `many_sender<SF>` makes exactly the call `f(out)` and leaves the sender as it was |
| Adapters.EmptySenderDrops | folly/experimental/pushmi/many_sender.h:166-170 | `many_sender<>` drops every receiver and stays as it is |
| Adapters.SharedSubmissionsKeepData | folly/experimental/pushmi/many_sender.h:152-157 | repeated `submit() &` makes one call per receiver, each with a reference to the same intact data, and leaves the sender unchanged |
| Adapters.ConsumingSubmissionsMoveOnce | folly/experimental/pushmi/many_sender.h:158-163 | repeated `submit() &&` makes one call per receiver; only the first receives the data, every later one the moved-from data |
| Factory.Viable | folly/experimental/pushmi/many_sender.h:174-195 | an overload is viable exactly when its arity and constraints accept the arguments: no arguments for the nullary one; one argument for the callable one, and only a non-sender when the `not Sender<SF>` workaround is in force; one many-sender for the sender one; a many-sender first argument for the two-argument one |
| Factory.Build | folly/experimental/pushmi/many_sender.h:174-195 | each overload's body: the nullary one makes `many_sender<ignoreSF>`, the callable one stores the callable, the sender one pairs the data with `passDSF`, the two-argument one pairs data and callable; every result has a `submit` that compiles |
| Factory.MostConstrained | folly/experimental/pushmi/many_sender.h:178-189 | some overload is chosen iff one is viable, the chosen one is viable, and the many-sender overload, whose constraint subsumes the callable one's, wins whenever it applies |
| Factory.MakeManySender | folly/experimental/pushmi/many_sender.h:174-196 | no arguments give `many_sender<ignoreSF>`; a non-sender gives `many_sender<SF>`; a many-sender gives `many_sender<Data, passDSF>`; a sender that is not many gives `many_sender<SF>` only when the compiler orders by subsumption; two arguments give `many_sender<Data, DSF>` exactly when the first is a many-sender, and otherwise the call is ill-formed |
| Factory.ResolutionIsUnambiguous | folly/experimental/pushmi/many_sender.h:178-195 | with the `not Sender<SF>` workaround at most one overload is viable; without it, two are viable exactly for a single many-sender argument |
| Factory.ModesAgree | folly/experimental/pushmi/many_sender.h:178-189 | both ways of compiling the constraints choose the same result, except for a single sender that is not a many-sender |
| Factory.CallableRoundTrip | folly/experimental/pushmi/many_sender.h:178-183 | making a sender from a callable `f` and submitting `out` to it calls `f(out)` exactly once |
| Factory.SenderPassesThrough | folly/experimental/pushmi/many_sender.h:184-189 | making a sender from a many-sender and submitting `out` to it submits `out` to that many-sender, passing it by reference |
| Factory.FactoryOutputCompiles | folly/experimental/pushmi/many_sender.h:174-196 | every sender the factory makes has a `submit` that compiles: `passDSF` only ever comes with data |

## Left out

- The concept machinery (`PUSHMI_TEMPLATE`, `SenderTo`, `ReceiveError`, `ReceiveValue`, `Invocable`) is reduced to the two facts the factory tests, `Sender<T>` and `is_many_v<T>`, carried with each argument. The factory reports a call with no viable overload as `None`.
- `PUSHMI_BROKEN_SUBSUMPTION` is defined outside this header. It is modelled as a flag saying whether the compiler orders constrained overloads by subsumption; when it does not, the callable overload gains `not Sender<SF>`.
- `ignoreSF` and `passDSF` are defined outside this header. They are modelled as "ignore the arguments" and "submit the receiver to the data".
- `any_receiver<E, VN...>` and the free `submit` it is passed to are not part of this model. A receiver is an opaque identity, and a forwarded submission is recorded as the call made, not as what the wrapped sender then does.
- Erased.AnyManySender.MoveAssign: requires `this != that`. Self-move-assignment would destroy the object and then move from the destroyed holder; this model does not describe it.
- The byte layout of the union, `aligned_union_t` and alignment are abstracted: the buffer is either vacant or holds one object, and `sizeof(buffer_)` is the number `bufferSize`.
- The per-type `vtbl` statics are abstracted to three kinds of table (no-op, heap, inline). Their function pointers are the branches of `Op` and `Submit`.
- `noexcept` and exceptions are not modelled. A throwing move constructor only affects the storage choice, which `Insitu` and `Emplace` capture.
- A wrapped sender's own `submit` may change that sender. Here the held object is a value that submissions do not change.
- A callable given `data_` by reference may change the data. Here the callable is an opaque value and the data stays as stored.
- The `properties` typedefs and `property_set_insert_t` are type-level only and are not modelled.
- The deduction guides (`many_sender(...) -> many_sender<...>`) and `construct_deduced<many_sender>` repeat the factory's selection table and are not modelled separately.
- The wrapping constructors take `Wrapped` by value (lines 46, 63 and 96-98), so each wrap also move-constructs and later destroys parameter objects. The `builds` and `dtors` counts cover only objects in a holder's storage, not those temporaries.
- `ManySender` can describe a `many_sender<passDSF>`, whose `submit` would not compile because `passDSF` needs data. `Compiles` names the senders that make sense, and `Factory.FactoryOutputCompiles` shows the factory builds only those.
- `submit() &&` calls `sf_(std::move(data_), out)`, which only casts: the data is actually moved from only if the callable takes it by value or moves from it. `MovedOut` means "possibly moved from" (valid but unspecified), and `Adapters.Submit` and `Adapters.ConsumingSubmissionsMoveOnce` treat the data as consumed by the first such call.
- Callables are invoked as lvalues (`SF&`), so a mutable callable may change itself. The model treats stored callables as unchanged by a call.
- Executors, the trampoline and concurrency come from headers that are not part of this model.
- The class model and the multi-holder `Lifetime` model share the cost functions of `Pushmi`, and `Erased.HeapLifecycle` and `Erased.InlineLifecycle` repeat two `Lifetime` scenarios on the class. There is no general refinement proof between the two models.
