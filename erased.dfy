/** `any_many_sender<E, VN...>`: a move-only holder that owns one concrete
    many-sender, either through a heap pointer or inside an inline buffer,
    and reaches it only through a table of two operations, `op_` (move or
    destroy) and `submit_`. Which member of the storage union is in use is
    never stored; it follows from the installed table. */
module Erased {
  import opened Pushmi

  /** An object of type `Wrapped` created by `new Wrapped(...)`. */
  class Box {
    const obj: Producer

    constructor (obj: Producer)
      ensures this.obj == obj
    {
      this.obj := obj;
    }
  }

  /** The allocator and the wrapped types' special members, as the holders
      see them: running counts, and for every heap object not yet deleted
      the holder that owns it. */
  class Ledger {
    ghost var counts: Counts
    ghost var owner: map<Box, AnyManySender>

    constructor ()
      ensures counts == NoCost && owner == map[]
    {
      counts := NoCost;
      owner := map[];
    }

    /** `new Wrapped(std::move(obj))`, owned by `holder`. */
    method New(obj: Producer, holder: AnyManySender) returns (p: Box)
      modifies this
      ensures fresh(p) && p.obj == obj
      ensures owner == old(owner)[p := holder]
      ensures counts == old(counts).Plus(ConstructCost(OnHeap(obj)))
    {
      p := new Box(obj);
      owner := owner[p := holder];
      counts := counts.(allocs := counts.allocs + 1, builds := counts.builds + 1);
    }

    /** `delete p`: destroys and frees a live object; on a null pointer it
        does nothing. Deleting an object twice cannot be expressed. */
    method Delete(p: Box?)
      requires p != null ==> p in owner
      modifies this
      ensures p == null ==> counts == old(counts) && owner == old(owner)
      ensures p != null ==> counts == old(counts).Plus(DestroyCost(OnHeap(p.obj)))
      ensures p != null ==> owner == old(owner) - {p}
    {
      if p != null {
        owner := owner - {p};
        counts := counts.(frees := counts.frees + 1, dtors := counts.dtors + 1);
      }
    }

    /** The pointer to `p` now lives in `holder`. */
    ghost method Hand(p: Box, holder: AnyManySender)
      modifies this
      ensures owner == old(owner)[p := holder] && counts == old(counts)
    {
      owner := owner[p := holder];
    }

    /** A placement `new` of a `Wrapped` into an inline buffer. */
    ghost method PlacementNew()
      modifies this
      ensures owner == old(owner)
      ensures counts == old(counts).Plus(Counts(0, 0, 1, 0))
    {
      counts := counts.(builds := counts.builds + 1);
    }

    /** An explicit `~Wrapped()` on an inline buffer. */
    ghost method RunDestructor()
      modifies this
      ensures owner == old(owner)
      ensures counts == old(counts).Plus(Counts(0, 0, 0, 1))
    {
      counts := counts.(dtors := counts.dtors + 1);
    }
  }

  /** The installed `vtable`: the shared `noop_`, or the per-type table of
      the heap or the inline constructor. */
  datatype Table = NoopTable | HeapTable | InlineTable

  /** The inline buffer: either no live object, or one object of type
      `Wrapped` placed there. Its bytes and alignment are not modelled. */
  datatype Slot = Vacant | Occupied(obj: Producer)

  /** The union `data`: the member `pobj_` or the member `buffer_`. */
  datatype Data = Pointer(pobj: Box?) | Buffer(slot: Slot)

  class AnyManySender {
    /** `sizeof(data::buffer_)`, fixed by the instantiation `<E, VN...>`. */
    const bufferSize: nat
    var data: Data
    var vptr: Table

    /** The union member in use is the one the installed table reads, and
        the table agrees with `insitu` for the object it holds. */
    ghost predicate WellFormed()
      reads this
    {
      match vptr
      case NoopTable => true
      case HeapTable =>
        data.Pointer? && data.pobj != null && !Insitu(data.pobj.obj, bufferSize)
      case InlineTable =>
        data.Buffer? && data.slot.Occupied? && Insitu(data.slot.obj, bufferSize)
    }

    /** A heap object is live and owned by this holder alone. */
    ghost predicate Valid(ledger: Ledger)
      reads this, ledger
    {
      WellFormed() &&
      (vptr == HeapTable ==> data.pobj in ledger.owner && ledger.owner[data.pobj] == this)
    }

    ghost function Contents(): Held
      reads this
      requires WellFormed()
    {
      match vptr
      case NoopTable => Nothing
      case HeapTable => OnHeap(data.pobj.obj)
      case InlineTable => InPlace(data.slot.obj)
    }

    /** The heap objects this holder owns. */
    ghost function Footprint(): set<Box>
      reads this
      requires WellFormed()
    {
      if vptr == HeapTable then {data.pobj} else {}
    }

    /** `any_many_sender()`: the no-op table and a null `pobj_`. */
    constructor Empty(bufferSize: nat)
      ensures this.bufferSize == bufferSize
      ensures vptr == NoopTable && data == Pointer(null)
      ensures WellFormed() && Contents() == Nothing && Footprint() == {}
    {
      this.bufferSize := bufferSize;
      data := Pointer(null);
      vptr := NoopTable;
    }

    /** `explicit any_many_sender(Wrapped obj)`: starts empty, then installs
        `obj` inline when `insitu`, on the heap otherwise. */
    constructor Wrap(obj: Producer, bufferSize: nat, ledger: Ledger)
      modifies ledger
      ensures this.bufferSize == bufferSize
      ensures Valid(ledger) && Contents() == Emplace(obj, bufferSize)
      ensures fresh(Footprint())
      ensures ledger.owner.Keys == old(ledger.owner.Keys) + Footprint()
      ensures forall p | p in ledger.owner ::
        ledger.owner[p] == if p in Footprint() then this else old(ledger.owner[p])
      ensures ledger.counts == old(ledger.counts).Plus(ConstructCost(Contents()))
    {
      this.bufferSize := bufferSize;
      data := Pointer(null);
      vptr := NoopTable;
      new;
      if Insitu(obj, bufferSize) {
        PlaceInline(obj, ledger);
      } else {
        PlaceOnHeap(obj, ledger);
      }
    }

    /** `any_many_sender(Wrapped obj, std::false_type)`. */
    method PlaceOnHeap(obj: Producer, ledger: Ledger)
      requires vptr == NoopTable && data == Pointer(null)
      requires !Insitu(obj, bufferSize)
      modifies this, ledger
      ensures Valid(ledger) && Contents() == OnHeap(obj)
      ensures fresh(Footprint())
      ensures ledger.owner == old(ledger.owner)[data.pobj := this]
      ensures ledger.counts == old(ledger.counts).Plus(ConstructCost(OnHeap(obj)))
    {
      var p := ledger.New(obj, this);
      data := Pointer(p);
      vptr := HeapTable;
    }

    /** `any_many_sender(Wrapped obj, std::true_type)`. */
    method PlaceInline(obj: Producer, ledger: Ledger)
      requires vptr == NoopTable && data == Pointer(null)
      requires Insitu(obj, bufferSize)
      modifies this, ledger
      ensures Valid(ledger) && Contents() == InPlace(obj) && Footprint() == {}
      ensures ledger.owner == old(ledger.owner)
      ensures ledger.counts == old(ledger.counts).Plus(ConstructCost(InPlace(obj)))
    {
      data := Buffer(Occupied(obj));
      ledger.PlacementNew();
      vptr := InlineTable;
    }

    /** `vptr_->op_(data_, dst)`: with a destination, hand the object to the
        destination's storage; then destroy what the source still holds.
        Neither table pointer changes. */
    method Op(dst: AnyManySender?, ledger: Ledger)
      requires Valid(ledger)
      requires dst != this
      requires dst != null ==> dst.vptr == NoopTable && dst.bufferSize == bufferSize
      modifies this, dst, ledger
      ensures vptr == old(vptr) && (dst != null ==> dst.vptr == old(dst.vptr))
      ensures old(Contents()).Nothing? ==>
        data == old(data) && ledger.owner == old(ledger.owner) &&
        (dst != null ==> dst.data == old(dst.data))
      ensures old(Contents()).OnHeap? && dst != null ==>
        data == Pointer(null) && dst.data == old(data) &&
        ledger.owner == old(ledger.owner)[old(data.pobj) := dst]
      ensures old(Contents()).OnHeap? && dst == null ==>
        data == old(data) && ledger.owner == old(ledger.owner) - old(Footprint())
      ensures old(Contents()).InPlace? ==>
        data == Buffer(Vacant) && ledger.owner == old(ledger.owner) &&
        (dst != null ==> dst.data == old(data))
      ensures ledger.counts == old(ledger.counts).Plus(
        if dst == null then DestroyCost(old(Contents())) else MoveCost(old(Contents())))
    {
      match vptr
      case NoopTable =>
      case HeapTable =>
        if dst != null {
          var p: Box := data.pobj;
          dst.data, data := Pointer(p), Pointer(null);
          ledger.Hand(p, dst);
        }
        ledger.Delete(data.pobj);
      case InlineTable =>
        if dst != null {
          dst.data := data;
          ledger.PlacementNew();
        }
        data := Buffer(Vacant);
        ledger.RunDestructor();
    }

    /** `submit(out)`: `vptr_->submit_(data_, any_receiver{out})`. Returns the
        call made on the held object, if any. */
    method Submit(out: Receiver) returns (sent: Option<Delivery>)
      requires WellFormed()
      ensures sent == Forward(Contents(), out)
    {
      match vptr
      case NoopTable =>
        sent := None;
      case HeapTable =>
        sent := Some(Delivery(data.pobj.obj, out));
      case InlineTable =>
        sent := Some(Delivery(data.slot.obj, out));
    }

    /** `~any_many_sender()`: `vptr_->op_(data_, nullptr)`. */
    method Destroy(ledger: Ledger)
      requires Valid(ledger)
      modifies this, ledger
      ensures ledger.owner == old(ledger.owner) - old(Footprint())
      ensures ledger.counts == old(ledger.counts).Plus(DestroyCost(old(Contents())))
    {
      Op(null, ledger);
    }

    /** The body of the move constructor on an empty holder: the source's
        `op_` moves its object here, then the two table pointers swap. */
    method TakeFrom(that: AnyManySender, ledger: Ledger)
      requires that != this && that.Valid(ledger)
      requires vptr == NoopTable && bufferSize == that.bufferSize
      modifies this, that, ledger
      ensures Valid(ledger) && that.Valid(ledger)
      ensures Contents() == old(that.Contents())
      ensures that.vptr == NoopTable && that.Contents() == Nothing
      ensures Footprint() == old(that.Footprint())
      ensures ledger.owner.Keys == old(ledger.owner.Keys)
      ensures forall p | p in ledger.owner ::
        ledger.owner[p] == if p in Footprint() then this else old(ledger.owner[p])
      ensures ledger.counts == old(ledger.counts).Plus(MoveCost(old(that.Contents())))
    {
      that.Op(this, ledger);
      vptr, that.vptr := that.vptr, vptr;
    }

    /** `any_many_sender(any_many_sender&& that)`. */
    constructor Move(that: AnyManySender, ledger: Ledger)
      requires that.Valid(ledger)
      modifies that, ledger
      ensures bufferSize == that.bufferSize
      ensures Valid(ledger) && that.Valid(ledger)
      ensures Contents() == old(that.Contents())
      ensures that.vptr == NoopTable && that.Contents() == Nothing
      ensures Footprint() == old(that.Footprint())
      ensures ledger.owner.Keys == old(ledger.owner.Keys)
      ensures forall p | p in ledger.owner ::
        ledger.owner[p] == if p in Footprint() then this else old(ledger.owner[p])
      ensures ledger.counts == old(ledger.counts).Plus(MoveCost(old(that.Contents())))
    {
      bufferSize := that.bufferSize;
      data := Pointer(null);
      vptr := NoopTable;
      new;
      TakeFrom(that, ledger);
    }

    /** `operator=(any_many_sender&& that)`: destroy this holder's object,
        rebuild this holder empty in place, and take over `that`. */
    method MoveAssign(that: AnyManySender, ledger: Ledger)
      requires this != that
      requires Valid(ledger) && that.Valid(ledger) && bufferSize == that.bufferSize
      modifies this, that, ledger
      ensures Valid(ledger) && that.Valid(ledger)
      ensures Contents() == old(that.Contents())
      ensures that.vptr == NoopTable && that.Contents() == Nothing
      ensures Footprint() == old(that.Footprint())
      ensures ledger.owner.Keys == old(ledger.owner.Keys) - old(Footprint())
      ensures forall p | p in ledger.owner ::
        ledger.owner[p] == if p in Footprint() then this else old(ledger.owner[p])
      ensures ledger.counts ==
        old(ledger.counts).Plus(DestroyCost(old(Contents()))).Plus(MoveCost(old(that.Contents())))
    {
      Destroy(ledger);
      data, vptr := Pointer(null), NoopTable;
      TakeFrom(that, ledger);
    }
  }

  /** A heap-stored sender through its whole life: wrap it, submit, move it
      into a second holder, submit to both, destroy both. The moved-from
      holder forwards nothing, the other forwards as the original did, and
      the allocator sees one `new` and one `delete`. */
  method HeapLifecycle(obj: Producer, bufferSize: nat, out: Receiver, ledger: Ledger)
    returns (before: Option<Delivery>, fromSource: Option<Delivery>, fromTarget: Option<Delivery>)
    requires !Insitu(obj, bufferSize)
    modifies ledger
    ensures before == Some(Delivery(obj, out))
    ensures fromSource == None && fromTarget == before
    ensures ledger.counts == old(ledger.counts).Plus(Counts(1, 1, 1, 1))
  {
    var a := new AnyManySender.Wrap(obj, bufferSize, ledger);
    before := a.Submit(out);
    var b := new AnyManySender.Move(a, ledger);
    fromSource := a.Submit(out);
    fromTarget := b.Submit(out);
    assert a.Footprint() == {};
    a.Destroy(ledger);
    assert b.Valid(ledger);
    b.Destroy(ledger);
  }

  /** An inline-stored sender through the same life: the moved-from holder
      forwards nothing, the other forwards as the original did, and no
      allocation happens while two objects are built and two destroyed. */
  method InlineLifecycle(obj: Producer, bufferSize: nat, out: Receiver, ledger: Ledger)
    returns (before: Option<Delivery>, fromSource: Option<Delivery>, fromTarget: Option<Delivery>)
    requires Insitu(obj, bufferSize)
    modifies ledger
    ensures before == Some(Delivery(obj, out))
    ensures fromSource == None && fromTarget == before
    ensures ledger.counts == old(ledger.counts).Plus(Counts(0, 0, 2, 2))
  {
    var a := new AnyManySender.Wrap(obj, bufferSize, ledger);
    before := a.Submit(out);
    var b := new AnyManySender.Move(a, ledger);
    fromSource := a.Submit(out);
    fromTarget := b.Submit(out);
    a.Destroy(ledger);
    assert b.Valid(ledger);
    b.Destroy(ledger);
  }
}
