/** `make_many_sender_fn`: four `operator()` overloads, selected at compile
    time by the number of arguments and by whether the (first) argument is
    already a sender with the `is_many` property. Modelled as overload
    resolution over a descriptor of the arguments: collect the viable
    overloads, then prefer the more constrained one. */
module Factory {
  import opened Pushmi
  import opened Adapters

  /** One argument, with the two type-level facts the constraints test:
      `Sender<T>` and `is_many_v<T>`. */
  datatype Arg<V> = Arg(value: V, isSender: bool, isMany: bool)

  datatype Args<V> = NoArgs | One(a: Arg<V>) | Two(data: Arg<V>, sf: Arg<V>)

  /** The four overloads, in declaration order. */
  datatype Overload =
    | Nullary        // operator()()                 -> many_sender<ignoreSF>
    | FromCallable   // operator()(SF sf)            -> many_sender<SF>
    | FromSender     // operator()(Data d)           -> many_sender<Data, passDSF>
    | FromDataAndFn  // operator()(Data d, DSF sf)   -> many_sender<Data, DSF>

  predicate IsManySender<V>(a: Arg<V>) {
    a.isSender && a.isMany
  }

  /** The overloads whose arity and constraints accept `args`.
      `subsumption` says whether the compiler orders constrained overloads by
      subsumption; when it does not, `PUSHMI_BROKEN_SUBSUMPTION` adds
      `not Sender<SF>` to the callable overload so that the two one-argument
      overloads never both apply. */
  function Viable<V>(args: Args<V>, subsumption: bool): (r: set<Overload>)
    ensures Nullary in r <==> args.NoArgs?
    ensures FromCallable in r <==> args.One? && (subsumption || !args.a.isSender)
    ensures FromSender in r <==> args.One? && IsManySender(args.a)
    ensures FromDataAndFn in r <==> args.Two? && IsManySender(args.data)
  {
    match args
    case NoArgs => {Nullary}
    case One(a) =>
      (if subsumption || !a.isSender then {FromCallable} else {}) +
      (if IsManySender(a) then {FromSender} else {})
    case Two(d, _) =>
      if IsManySender(d) then {FromDataAndFn} else {}
  }

  /** The chosen overload: `FromSender`'s constraint
      `True<> && Sender<Data> && is_many_v<Data>` subsumes `FromCallable`'s
      `True<>`, so it wins when both apply; no other two overloads ever
      apply together. */
  function MostConstrained(viable: set<Overload>): (r: Option<Overload>)
    ensures r.None? <==> viable == {}
    ensures r.Some? ==> r.value in viable
    ensures FromSender in viable ==> r == Some(FromSender)
  {
    if FromSender in viable then Some(FromSender)
    else if FromCallable in viable then Some(FromCallable)
    else if Nullary in viable then Some(Nullary)
    else if FromDataAndFn in viable then Some(FromDataAndFn)
    else
      assert forall o :: o in viable ==> o.Nullary? || o.FromCallable? || o.FromSender? || o.FromDataAndFn?;
      None
  }

  /** The body of each overload. */
  function Build<V>(o: Overload, args: Args<V>): (r: ManySender<V, V>)
    requires o in Viable(args, true) || o in Viable(args, false)
    ensures Compiles(r)
    ensures r.FnSender? <==> o.Nullary? || o.FromCallable?
    ensures o.Nullary? ==> r.sf == IgnoreSF
    ensures o.FromCallable? ==> r.sf == Fn(args.a.value)
    ensures o.FromSender? ==> r.data == Intact(args.a.value) && r.dsf == PassDSF
    ensures o.FromDataAndFn? ==> r.data == Intact(args.data.value) && r.dsf == Fn(args.sf.value)
  {
    match o
    case Nullary => FnSender(IgnoreSF)
    case FromCallable => FnSender(Fn(args.a.value))
    case FromSender => DataSender(Intact(args.a.value), PassDSF)
    case FromDataAndFn => DataSender(Intact(args.data.value), Fn(args.sf.value))
  }

  /** `make_many_sender(args...)`; `None` when no overload applies (the
      call does not compile). */
  function MakeManySender<V>(args: Args<V>, subsumption: bool): (r: Option<ManySender<V, V>>)
    ensures args.NoArgs? ==> r == Some(FnSender(IgnoreSF))
    ensures args.One? && !args.a.isSender ==> r == Some(FnSender(Fn(args.a.value)))
    ensures args.One? && IsManySender(args.a) ==>
      r == Some(DataSender(Intact(args.a.value), PassDSF))
    ensures args.One? && args.a.isSender && !args.a.isMany ==>
      r == (if subsumption then Some(FnSender(Fn(args.a.value))) else None)
    ensures args.Two? ==>
      r == (if IsManySender(args.data)
            then Some(DataSender(Intact(args.data.value), Fn(args.sf.value)))
            else None)
  {
    var viable := Viable(args, subsumption);
    match MostConstrained(viable)
    case None => None
    case Some(o) => Some(Build(o, args))
  }

  /** Without subsumption at most one overload is viable for any arguments;
      with it, the only overlap is a many-sender argument, which both
      one-argument overloads accept. */
  lemma {:induction false} ResolutionIsUnambiguous<V>(args: Args<V>)
    ensures |Viable(args, false)| <= 1
    ensures |Viable(args, true)| <= 2
    ensures |Viable(args, true)| == 2 <==> args.One? && IsManySender(args.a)
  {
    match args
    case NoArgs =>
    case One(a) =>
      if IsManySender(a) {
        assert Viable(args, false) == {FromSender};
        assert Viable(args, true) == {FromCallable, FromSender};
      } else if a.isSender {
        assert Viable(args, false) == {};
        assert Viable(args, true) == {FromCallable};
      } else {
        assert Viable(args, false) == {FromCallable};
        assert Viable(args, true) == {FromCallable};
      }
    case Two(d, _) =>
  }

  /** The two ways of compiling the constraints pick the same adapter for
      every argument list except a single sender that is not a many-sender. */
  lemma ModesAgree<V>(args: Args<V>)
    requires !(args.One? && args.a.isSender && !args.a.isMany)
    ensures MakeManySender(args, true) == MakeManySender(args, false)
  {
  }

  /** Making a sender from a callable `f` and submitting `out` to it makes
      exactly the call `f(out)`. */
  lemma CallableRoundTrip<V>(f: V, isMany: bool, subsumption: bool, out: Receiver, how: Category)
    ensures var made := MakeManySender(One(Arg(f, false, isMany)), subsumption);
      made.Some? && Submit(made.value, out, how) == Submitted(made.value, Called(f, NoData, out))
  {
  }

  /** A many-sender given to the factory is passed through: submitting to
      the result submits the same receiver to that sender. */
  lemma SenderPassesThrough<V>(d: V, subsumption: bool, out: Receiver)
    ensures var made := MakeManySender(One(Arg(d, true, true)), subsumption);
      made.Some? &&
      Submit(made.value, out, Lvalue).call == SubmittedTo(ByRef(Intact(d)), out)
  {
  }

  /** The factory only builds senders whose `submit` compiles: `passDSF` is
      only ever paired with data. */
  lemma {:induction false} FactoryOutputCompiles<V>(args: Args<V>, subsumption: bool)
    ensures var made := MakeManySender(args, subsumption);
      made.Some? ==> Compiles(made.value)
  {
  }
}
