/** The lifetimes of many `any_many_sender` holders side by side, as values:
    any program of constructions, moves, move assignments, destructions and
    submissions, with the counts the allocator and the wrapped types see.
    Each step is specified by the same functions the holder class is
    specified by, so the conservation laws proved here are the ownership
    rules of the holder: nothing leaks, nothing is freed twice, moves never
    allocate, and a moved-from holder forwards nothing. */
module Lifetime {
  import opened Pushmi

  datatype Step =
    | Default                          // any_many_sender()
    | Wrap(obj: Producer)              // explicit any_many_sender(Wrapped)
    | MoveConstruct(src: nat)          // any_many_sender(any_many_sender&&)
    | MoveAssign(dst: nat, src: nat)   // operator=(any_many_sender&&)
    | Destroy(victim: nat)             // ~any_many_sender()
    | Submit(target: nat, out: Receiver)

  /** The holders in scope, oldest first, with the running counts and every
      call forwarded to a wrapped sender so far. */
  datatype World = World(holders: seq<Held>, counts: Counts, forwarded: seq<Delivery>)

  const Start := World([], NoCost, [])

  /** The step names holders in scope; a holder is never move-assigned from
      itself (the source does not handle self-move-assignment). */
  predicate Enabled(w: World, s: Step) {
    match s
    case Default => true
    case Wrap(_) => true
    case MoveConstruct(src) => src < |w.holders|
    case MoveAssign(dst, src) => dst < |w.holders| && src < |w.holders| && dst != src
    case Destroy(i) => i < |w.holders|
    case Submit(i, _) => i < |w.holders|
  }

  function Sent(d: Option<Delivery>): seq<Delivery> {
    match d
    case None => []
    case Some(x) => [x]
  }

  function Apply(w: World, s: Step, bufferSize: nat): World
    requires Enabled(w, s)
  {
    var hs := w.holders;
    match s
    case Default =>
      w.(holders := hs + [Nothing])
    case Wrap(obj) =>
      var h := Emplace(obj, bufferSize);
      w.(holders := hs + [h], counts := w.counts.Plus(ConstructCost(h)))
    case MoveConstruct(src) =>
      w.(holders := hs[src := Nothing] + [hs[src]],
         counts := w.counts.Plus(MoveCost(hs[src])))
    case MoveAssign(dst, src) =>
      w.(holders := hs[dst := hs[src]][src := Nothing],
         counts := w.counts.Plus(DestroyCost(hs[dst])).Plus(MoveCost(hs[src])))
    case Destroy(i) =>
      w.(holders := hs[..i] + hs[i + 1..], counts := w.counts.Plus(DestroyCost(hs[i])))
    case Submit(i, out) =>
      w.(forwarded := w.forwarded + Sent(Forward(hs[i], out)))
  }

  /** What each holder operation does to the world: the constructors and the
      move constructor add a holder, the destructor removes one, only
      wrapping an object that is not `insitu` allocates, and a submission
      changes neither holders nor counts and forwards one call unless the
      holder is empty. */
  lemma {:induction false} ApplyShape(w: World, s: Step, bufferSize: nat)
    requires Enabled(w, s)
    ensures var r := Apply(w, s, bufferSize);
      |r.holders| ==
        (if s.Default? || s.Wrap? || s.MoveConstruct? then |w.holders| + 1
         else if s.Destroy? then |w.holders| - 1
         else |w.holders|)
    ensures Apply(w, s, bufferSize).counts.allocs ==
      w.counts.allocs + (if s.Wrap? && !Insitu(s.obj, bufferSize) then 1 else 0)
    ensures s.Submit? ==>
      var r := Apply(w, s, bufferSize);
      r.holders == w.holders && r.counts == w.counts &&
      |r.forwarded| == |w.forwarded| + (if w.holders[s.target].Nothing? then 0 else 1)
    ensures !s.Submit? ==> Apply(w, s, bufferSize).forwarded == w.forwarded
  {
  }

  /** Runs `steps` in order; `None` when one of them is not enabled. */
  function Run(w: World, steps: seq<Step>, bufferSize: nat): Option<World>
    decreases |steps|
  {
    if steps == [] then Some(w)
    else if !Enabled(w, steps[0]) then None
    else Run(Apply(w, steps[0], bufferSize), steps[1..], bufferSize)
  }

  /** How many holders own an object, and how many of those own it on the heap. */
  datatype Census = Census(live: nat, onHeap: nat) {
    function Plus(other: Census): Census {
      Census(live + other.live, onHeap + other.onHeap)
    }
  }

  function Occupancy(h: Held): Census {
    match h
    case Nothing => Census(0, 0)
    case OnHeap(_) => Census(1, 1)
    case InPlace(_) => Census(1, 0)
  }

  function Tally(hs: seq<Held>): Census
    decreases |hs|
  {
    if |hs| == 0 then Census(0, 0) else Tally(hs[..|hs| - 1]).Plus(Occupancy(hs[|hs| - 1]))
  }

  /** Every allocation not yet freed is owned by exactly one holder on the
      heap, and every object built and not yet destroyed by exactly one
      holder. */
  ghost predicate Balanced(w: World) {
    w.counts.allocs == w.counts.frees + Tally(w.holders).onHeap &&
    w.counts.builds == w.counts.dtors + Tally(w.holders).live
  }

  lemma {:induction false} TallyAppend(hs: seq<Held>, h: Held)
    ensures Tally(hs + [h]) == Tally(hs).Plus(Occupancy(h))
  {
    var s := hs + [h];
    assert s[..|s| - 1] == hs;
  }

  lemma {:induction false} TallyConcat(a: seq<Held>, b: seq<Held>)
    ensures Tally(a + b) == Tally(a).Plus(Tally(b))
    decreases |b|
  {
    if b == [] {
      assert a + b == a;
    } else {
      var init, x := b[..|b| - 1], b[|b| - 1];
      assert b == init + [x];
      assert a + b == (a + init) + [x];
      TallyAppend(a + init, x);
      TallyAppend(init, x);
      TallyConcat(a, init);
    }
  }

  lemma {:induction false} TallyMiddle(a: seq<Held>, x: Held, b: seq<Held>)
    ensures Tally(a + [x] + b) == Tally(a).Plus(Occupancy(x)).Plus(Tally(b))
  {
    TallyConcat(a + [x], b);
    TallyAppend(a, x);
  }

  lemma {:induction false} TallyUpdate(hs: seq<Held>, i: nat, h: Held)
    requires i < |hs|
    ensures Tally(hs[i := h]).Plus(Occupancy(hs[i])) == Tally(hs).Plus(Occupancy(h))
  {
    var a, b := hs[..i], hs[i + 1..];
    assert hs == a + [hs[i]] + b;
    assert hs[i := h] == a + [h] + b;
    TallyMiddle(a, hs[i], b);
    TallyMiddle(a, h, b);
  }

  lemma {:induction false} TallyRemove(hs: seq<Held>, i: nat)
    requires i < |hs|
    ensures Tally(hs[..i] + hs[i + 1..]).Plus(Occupancy(hs[i])) == Tally(hs)
  {
    var a, b := hs[..i], hs[i + 1..];
    assert hs == a + [hs[i]] + b;
    TallyMiddle(a, hs[i], b);
    TallyConcat(a, b);
  }

  /** Every step keeps the books balanced. */
  lemma {:induction false} ApplyBalanced(w: World, s: Step, bufferSize: nat)
    requires Enabled(w, s) && Balanced(w)
    ensures Balanced(Apply(w, s, bufferSize))
  {
    match s
    case Default => DefaultBalanced(w, bufferSize);
    case Wrap(obj) => WrapBalanced(w, obj, bufferSize);
    case MoveConstruct(src) => MoveConstructBalanced(w, src, bufferSize);
    case MoveAssign(dst, src) => MoveAssignBalanced(w, dst, src, bufferSize);
    case Destroy(i) => DestroyBalanced(w, i, bufferSize);
    case Submit(i, out) => assert Apply(w, s, bufferSize).holders == w.holders;
  }

  lemma {:induction false} DefaultBalanced(w: World, bufferSize: nat)
    requires Balanced(w)
    ensures Balanced(Apply(w, Default, bufferSize))
  {
    TallyAppend(w.holders, Nothing);
  }

  lemma {:induction false} WrapBalanced(w: World, obj: Producer, bufferSize: nat)
    requires Balanced(w)
    ensures Balanced(Apply(w, Wrap(obj), bufferSize))
  {
    var h := Emplace(obj, bufferSize);
    var w' := Apply(w, Wrap(obj), bufferSize);
    assert w'.holders == w.holders + [h];
    assert w'.counts == w.counts.Plus(ConstructCost(h));
    TallyAppend(w.holders, h);
  }

  lemma {:induction false} MoveConstructBalanced(w: World, src: nat, bufferSize: nat)
    requires src < |w.holders| && Balanced(w)
    ensures Balanced(Apply(w, MoveConstruct(src), bufferSize))
  {
    var hs := w.holders;
    var h := hs[src];
    var w' := Apply(w, MoveConstruct(src), bufferSize);
    assert w'.holders == hs[src := Nothing] + [h];
    assert w'.counts == w.counts.Plus(MoveCost(h));
    TallyUpdate(hs, src, Nothing);
    TallyAppend(hs[src := Nothing], h);
  }

  lemma {:induction false} MoveAssignBalanced(w: World, dst: nat, src: nat, bufferSize: nat)
    requires dst < |w.holders| && src < |w.holders| && dst != src && Balanced(w)
    ensures Balanced(Apply(w, MoveAssign(dst, src), bufferSize))
  {
    var hs := w.holders;
    var old', h := hs[dst], hs[src];
    var mid := hs[dst := h];
    var w' := Apply(w, MoveAssign(dst, src), bufferSize);
    assert w'.holders == mid[src := Nothing];
    assert w'.counts == w.counts.Plus(DestroyCost(old')).Plus(MoveCost(h));
    TallyUpdate(hs, dst, h);
    TallyUpdate(mid, src, Nothing);
  }

  lemma {:induction false} DestroyBalanced(w: World, i: nat, bufferSize: nat)
    requires i < |w.holders| && Balanced(w)
    ensures Balanced(Apply(w, Destroy(i), bufferSize))
  {
    var hs := w.holders;
    var w' := Apply(w, Destroy(i), bufferSize);
    assert w'.holders == hs[..i] + hs[i + 1..];
    assert w'.counts == w.counts.Plus(DestroyCost(hs[i]));
    TallyRemove(hs, i);
  }

  lemma {:induction false} RunBalanced(w: World, steps: seq<Step>, bufferSize: nat)
    requires Balanced(w)
    ensures Run(w, steps, bufferSize).Some? ==> Balanced(Run(w, steps, bufferSize).value)
    decreases |steps|
  {
    if steps != [] && Enabled(w, steps[0]) {
      ApplyBalanced(w, steps[0], bufferSize);
      RunBalanced(Apply(w, steps[0], bufferSize), steps[1..], bufferSize);
    }
  }

  /** Whatever a program does with its holders: frees never exceed
      allocations and destructor runs never exceed constructions, and once
      every holder is destroyed each allocation has been freed and each
      object destroyed exactly once (nothing leaks). These are balances of
      counts; that no single object is deleted twice is the precondition of
      `Ledger.Delete` in the class model, which only accepts an owned
      object. */
  lemma {:induction false} NoLeakNoDoubleFree(steps: seq<Step>, bufferSize: nat)
    ensures var r := Run(Start, steps, bufferSize);
      r.Some? ==> r.value.counts.frees <= r.value.counts.allocs &&
                  r.value.counts.dtors <= r.value.counts.builds
    ensures var r := Run(Start, steps, bufferSize);
      r.Some? && r.value.holders == [] ==>
        r.value.counts.allocs == r.value.counts.frees &&
        r.value.counts.builds == r.value.counts.dtors
  {
    RunBalanced(Start, steps, bufferSize);
  }

  /** Move construction: the new holder owns what the source owned and
      forwards a submission exactly as the source would have; the source is
      left empty and forwards nothing; nothing is allocated or freed. */
  lemma {:induction false} MoveConstructTransfers(w: World, src: nat, out: Receiver, bufferSize: nat)
    requires src < |w.holders|
    ensures var w' := Apply(w, MoveConstruct(src), bufferSize);
      |w'.holders| == |w.holders| + 1 &&
      w'.holders[|w.holders|] == w.holders[src] &&
      w'.holders[src] == Nothing &&
      Forward(w'.holders[|w.holders|], out) == Forward(w.holders[src], out) &&
      Forward(w'.holders[src], out) == None &&
      w'.counts.allocs == w.counts.allocs && w'.counts.frees == w.counts.frees
  {
  }

  /** Move assignment: the destination's previous object is destroyed, then
      the destination takes over the source's object, leaving the source
      empty; no allocation happens. */
  lemma {:induction false} MoveAssignTransfers(w: World, dst: nat, src: nat, bufferSize: nat)
    requires dst < |w.holders| && src < |w.holders| && dst != src
    ensures var w' := Apply(w, MoveAssign(dst, src), bufferSize);
      w'.holders[dst] == w.holders[src] &&
      w'.holders[src] == Nothing &&
      w'.counts.allocs == w.counts.allocs &&
      w'.counts.frees == w.counts.frees + (if w.holders[dst].OnHeap? then 1 else 0) &&
      w'.counts.dtors == w.counts.dtors + (if w.holders[dst].Nothing? then 0 else 1) +
                         (if w.holders[src].InPlace? then 1 else 0)
  {
  }

  /** `k` times: move the only holder into a new one and destroy the
      moved-from one. */
  function Relay(k: nat): seq<Step> {
    if k == 0 then [] else [MoveConstruct(0), Destroy(0)] + Relay(k - 1)
  }

  lemma {:induction false} RelayCost(h: Held, c: Counts, f: seq<Delivery>, k: nat,
                                     rest: seq<Step>, bufferSize: nat)
    ensures Run(World([h], c, f), Relay(k) + rest, bufferSize) ==
      Run(World([h], c.Plus(if h.InPlace? then Counts(0, 0, k, k) else NoCost), f),
          rest, bufferSize)
    decreases k
  {
    if k == 0 {
      assert Relay(k) + rest == rest;
      assert c.Plus(Counts(0, 0, 0, 0)) == c;
    } else {
      var tail := Relay(k - 1) + rest;
      assert Relay(k) + rest == [MoveConstruct(0), Destroy(0)] + tail;
      RelayStep(h, c, f, tail, bufferSize);
      RelayCost(h, c.Plus(MoveCost(h)), f, k - 1, rest, bufferSize);
    }
  }

  /** One round of the relay: the object ends up back in a single holder,
      at the price of one move. */
  lemma {:induction false} RelayStep(h: Held, c: Counts, f: seq<Delivery>,
                                     rest: seq<Step>, bufferSize: nat)
    ensures Run(World([h], c, f), [MoveConstruct(0), Destroy(0)] + rest, bufferSize) ==
      Run(World([h], c.Plus(MoveCost(h)), f), rest, bufferSize)
  {
    var w0 := World([h], c, f);
    var w1 := Apply(w0, MoveConstruct(0), bufferSize);
    assert w1 == World([Nothing, h], c.Plus(MoveCost(h)), f);
    var w2 := Apply(w1, Destroy(0), bufferSize);
    assert [Nothing, h][..0] + [Nothing, h][1..] == [h];
    assert w2 == World([h], c.Plus(MoveCost(h)), f);
    RunFirst(w0, MoveConstruct(0), [Destroy(0)] + rest, bufferSize);
    assert [MoveConstruct(0), Destroy(0)] + rest == [MoveConstruct(0)] + ([Destroy(0)] + rest);
    RunFirst(w1, Destroy(0), rest, bufferSize);
  }

  /** The whole life of one wrapped sender: constructed, moved `k` times
      (each time into a new holder, the old one destroyed), then destroyed.
      On the heap that is one allocation, one delete and one object however
      often it moves; inline it is no allocation at all, and each move
      builds one new object and destroys the old one. */
  lemma {:induction false} SingleSenderLifetime(w: World, obj: Producer, k: nat, bufferSize: nat)
    requires w.holders == []
    ensures Run(w, [Wrap(obj)] + (Relay(k) + [Destroy(0)]), bufferSize) ==
      Some(w.(counts := w.counts.Plus(
        if Insitu(obj, bufferSize) then Counts(0, 0, k + 1, k + 1) else Counts(1, 1, 1, 1))))
  {
    var h := Emplace(obj, bufferSize);
    var c := w.counts.Plus(ConstructCost(h));
    assert Apply(w, Wrap(obj), bufferSize) == World([h], c, w.forwarded);
    RunFirst(w, Wrap(obj), Relay(k) + [Destroy(0)], bufferSize);
    RelayCost(h, c, w.forwarded, k, [Destroy(0)], bufferSize);
    DestroyLast(h, c.Plus(if h.InPlace? then Counts(0, 0, k, k) else NoCost), w.forwarded, bufferSize);
  }

  lemma {:induction false} DestroyLast(h: Held, c: Counts, f: seq<Delivery>, bufferSize: nat)
    ensures Run(World([h], c, f), [Destroy(0)], bufferSize) ==
      Some(World([], c.Plus(DestroyCost(h)), f))
  {
    var w := Apply(World([h], c, f), Destroy(0), bufferSize);
    assert [h][..0] + [h][1..] == [];
    assert w == World([], c.Plus(DestroyCost(h)), f);
    assert [Destroy(0)][1..] == [];
  }

  lemma {:induction false} RunFirst(w: World, s: Step, rest: seq<Step>, bufferSize: nat)
    requires Enabled(w, s)
    ensures Run(w, [s] + rest, bufferSize) == Run(Apply(w, s, bufferSize), rest, bufferSize)
  {
    assert ([s] + rest)[0] == s;
    assert ([s] + rest)[1..] == rest;
  }

  /** A holder that never owned a sender, or whose sender moved away,
      forwards nothing. */
  lemma {:induction false} EmptyDropsSubmissions(w: World, i: nat, out: Receiver, bufferSize: nat)
    requires i < |w.holders| && w.holders[i] == Nothing
    ensures Apply(w, Submit(i, out), bufferSize) == w
  {
    assert Sent(Forward(Nothing, out)) == [];
    assert w.forwarded + [] == w.forwarded;
  }
}
