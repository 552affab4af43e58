/** The meaning of the cell operations, as functions on the whole state.

    The state of the engine is a `World`: the cell store, the registry of
    external observers, the registry of internal observers (the
    recomputations `calculate` attaches to source cells), the global read
    protocol and the log of external callback invocations. `SetSpec`,
    `ObserveSpec` and `CalculateSpec` give the state after a setter call,
    `observe` and `calculate`; the methods of `Cells.Engine` are proved to
    produce exactly these states. */
module Propagation {
  import opened Values
  import opened Formulas
  import opened Registry

  type CallbackId = nat

  /** An `observe` registration: the pattern and the block. */
  datatype Observer = Observer(pattern: Pattern, callback: CallbackId)

  /** The proc `calculate` registers on each source cell: it re-evaluates
      `formula` and assigns the result to `target`. */
  datatype Computation = Computation(target: Ref, formula: Formula)

  /** An entry of the setter's notification list. */
  datatype Block = External(callback: CallbackId) | Internal(computation: Computation)

  /** One call `block.call(new_value, old_value, self, name)` of an external observer. */
  datatype Event = Event(callback: CallbackId, newValue: Value, oldValue: Value, owner: ObjId, name: Name)

  /** The global read protocol: nil, or the list of cells read so far. */
  datatype Trace = Inactive | Active(recorded: seq<Ref>)

  /** The result of a setter or `calculate`: it returned, or an error escaped. */
  datatype Status = Done | Failed(error: Failure)

  /** The first argument of `observe`: one cell name or a collection of names. */
  datatype CellSpec = Single(name: Name) | Many(names: seq<Name>)

  /** The whole state: the cell store, the two registries, the read
      protocol, the log of external block calls, and the blocks whose call
      raises (or throws) after it has been logged. */
  datatype World = World(
    values: map<Ref, Value>,
    observers: Registry<Observer>,
    internals: Registry<Computation>,
    trace: Trace,
    log: seq<Event>,
    raising: set<CallbackId>)

  /** The getter's effect on the protocol: it appends while one is active. */
  function Record(t: Trace, cells: seq<Ref>): (t': Trace)
    ensures t'.Active? == t.Active?
    ensures t.Active? ==> t'.recorded == t.recorded + cells
  {
    match t
    case Inactive => Inactive
    case Active(s) => Active(s + cells)
  }

  /** Two getter calls record what one call over both cells records. */
  lemma RecordTwice(t: Trace, a: seq<Ref>, b: seq<Ref>)
    ensures Record(Record(t, a), b) == Record(t, a + b)
  {
    if t.Active? {
      assert t.recorded + a + b == t.recorded + (a + b);
    }
  }

  /** What every setter call leaves alone or only extends: it registers
      nothing, it only appends to an active protocol and it only appends to
      the callback log. */
  ghost predicate Extends(w: World, w': World) {
    && w'.raising == w.raising
    && w'.observers == w.observers
    && w'.internals == w.internals
    && w'.trace.Active? == w.trace.Active?
    && (w.trace.Active? ==> w.trace.recorded <= w'.trace.recorded)
    && w.log <= w'.log
  }

  /** The blocks of the observers whose pattern matches `v`, in registration order. */
  function Collect(obs: seq<Observer>, v: Value): (cbs: seq<CallbackId>)
    ensures |cbs| <= |obs|
    decreases |obs|
  {
    if obs == [] then []
    else
      var last := obs[|obs| - 1];
      Collect(obs[..|obs| - 1], v) + (if Matches(last.pattern, v) then [last.callback] else [])
  }

  /** The external blocks `cbs`, as entries of a notification list. */
  function Externals(cbs: seq<CallbackId>): (bs: seq<Block>)
    ensures |bs| == |cbs| && forall i :: 0 <= i < |cbs| ==> bs[i] == External(cbs[i])
  {
    seq(|cbs|, i requires 0 <= i < |cbs| => External(cbs[i]))
  }

  /** The computations `cs`, as entries of a notification list. */
  function Internals(cs: seq<Computation>): (bs: seq<Block>)
    ensures |bs| == |cs| && forall i :: 0 <= i < |cs| ==> bs[i] == Internal(cs[i])
  {
    seq(|cs|, i requires 0 <= i < |cs| => Internal(cs[i]))
  }

  /** The events of calling the blocks `cbs` for a change of cell `r`. */
  function Events(cbs: seq<CallbackId>, newValue: Value, oldValue: Value, r: Ref): (es: seq<Event>)
    ensures |es| == |cbs|
    ensures forall i :: 0 <= i < |cbs| ==> es[i] == Event(cbs[i], newValue, oldValue, r.obj, r.name)
  {
    seq(|cbs|, i requires 0 <= i < |cbs| => Event(cbs[i], newValue, oldValue, r.obj, r.name))
  }

  /** The position of the first block of `cbs` that raises, or `|cbs|` when
      none does. */
  function FirstRaising(cbs: seq<CallbackId>, raising: set<CallbackId>): (k: nat)
    ensures k <= |cbs|
    ensures k < |cbs| ==> cbs[k] in raising
    ensures forall i :: 0 <= i < k ==> cbs[i] !in raising
  {
    if cbs == [] then 0
    else if cbs[0] in raising then 0
    else 1 + FirstRaising(cbs[1..], raising)
  }

  /** The list a setter of `r` builds for the new value `v` before calling
      anything: the matching external observers, then every internal one. */
  function Notification(w: World, r: Ref, v: Value): (bs: seq<Block>)
    ensures |bs| == |Collect(Lookup(w.observers, r), v)| + |Lookup(w.internals, r)|
    ensures forall i :: 0 <= i < |bs| ==> (bs[i].External? <==> i < |Collect(Lookup(w.observers, r), v)|)
  {
    Externals(Collect(Lookup(w.observers, r), v)) + Internals(Lookup(w.internals, r))
  }

  /** The setter of cell `r` called with `v`. `fuel` is the depth of nested
      setter calls the stack still allows. */
  function SetSpec(w: World, r: Ref, v: Value, fuel: nat): (res: (World, Status))
    ensures Extends(w, res.0)
    decreases fuel, 1, 0
  {
    var previous := ValueOf(w.values, r);
    if previous == v then (w, Done)
    else NotifySpec(w.(values := w.values[r := v]), Notification(w, r, v), v, previous, r, fuel)
  }

  /** Calls the blocks of a notification list in order; an error raised by
      one of them stops the rest. */
  function NotifySpec(w: World, blocks: seq<Block>, newValue: Value, oldValue: Value, r: Ref, fuel: nat)
    : (res: (World, Status))
    ensures Extends(w, res.0)
    decreases fuel, 0, |blocks|
  {
    if blocks == [] then (w, Done)
    else
      var (w', status) := CallSpec(w, blocks[0], newValue, oldValue, r, fuel);
      if status.Failed? then (w', status)
      else NotifySpec(w', blocks[1..], newValue, oldValue, r, fuel)
  }

  /** Calls one block of the notification list of cell `r`. An external
      block is called with `(new_value, old_value, self, name)`; a raising
      block stops the setter with its error. An internal
      one evaluates its formula over the current store (recording its reads
      if a protocol is active) and calls the target's setter, one level
      deeper. */
  function CallSpec(w: World, b: Block, newValue: Value, oldValue: Value, r: Ref, fuel: nat)
    : (res: (World, Status))
    ensures Extends(w, res.0)
    decreases fuel, 0, 0
  {
    match b
    case External(cb) =>
      var w1 := w.(log := w.log + [Event(cb, newValue, oldValue, r.obj, r.name)]);
      if cb in w.raising then (w1, Failed(Thrown)) else (w1, Done)
    case Internal(c) =>
      if fuel == 0 then (w, Failed(StackOverflow))
      else
        var e := Eval(w.values, c.formula);
        var w1 := w.(trace := Record(w.trace, e.sources));
        if e.result.Raised? then (w1, Failed(e.result.error))
        else SetSpec(w1, c.target, e.result.value, fuel - 1)
  }

  /** The cells named by an `observe` call on object `obj`. */
  function Cells(obj: ObjId, spec: CellSpec): (refs: seq<Ref>)
    ensures |refs| == match spec case Single(_) => 1 case Many(names) => |names|
    ensures forall i :: 0 <= i < |refs| ==> refs[i].obj == obj
  {
    match spec
    case Single(n) => [Ref(obj, n)]
    case Many(ns) => CellsNamed(obj, ns)
  }

  /** The cells `names` of object `obj`, in order. */
  function CellsNamed(obj: ObjId, names: seq<Name>): (refs: seq<Ref>)
    ensures |refs| == |names|
    ensures forall i :: 0 <= i < |names| ==> refs[i] == Ref(obj, names[i])
    decreases |names|
  {
    if names == [] then []
    else CellsNamed(obj, names[..|names| - 1]) + [Ref(obj, names[|names| - 1])]
  }

  /** `obj.observe(spec, pattern, &block)`. */
  function ObserveSpec(reg: Registry<Observer>, obj: ObjId, spec: CellSpec, pattern: Pattern, cb: CallbackId)
    : (reg': Registry<Observer>)
    ensures obj in reg'
  {
    AppendAll(WithHash(reg, obj), Cells(obj, spec), Observer(pattern, cb))
  }

  /** `target.obj.calculate(target.name, &f)`. The protocol is opened, the
      formula evaluated and the result assigned through the setter while the
      protocol is still open; then one internal observer is attached per
      recorded read and the protocol is closed. An error raised by the
      formula or by the setter's cascade leaves the protocol open. */
  function CalculateSpec(w: World, target: Ref, f: Formula, fuel: nat): (res: (World, Status))
    ensures res.0.observers == w.observers
  {
    var e := Eval(w.values, f);
    var w1 := w.(trace := Active(e.sources));
    if e.result.Raised? then (w1, Failed(e.result.error))
    else
      var (w2, status) := SetSpec(w1, target, e.result.value, fuel);
      if status.Failed? then (w2, status)
      else
        (w2.(internals := AppendAll(w2.internals, w2.trace.recorded, Computation(target, f)),
             trace := Inactive), Done)
  }

  // ---------------------------------------------------------------------
  // Properties of the notification list

  /** Collecting over two lists of registrations is collecting over each, in order. */
  lemma {:induction false} CollectConcat(a: seq<Observer>, b: seq<Observer>, v: Value)
    ensures Collect(a + b, v) == Collect(a, v) + Collect(b, v)
    decreases |b|
  {
    if b == [] {
      assert a + b == a;
    } else {
      var init := b[..|b| - 1];
      assert (a + b)[..|a + b| - 1] == a + init;
      assert (a + b)[|a + b| - 1] == b[|b| - 1];
      CollectConcat(a, init, v);
    }
  }

  /** A block is collected exactly when one of its registrations has a
      pattern that matches the new value. */
  lemma {:induction false} CollectIsFilter(obs: seq<Observer>, v: Value, cb: CallbackId)
    ensures cb in Collect(obs, v) <==>
            exists i :: 0 <= i < |obs| && obs[i].callback == cb && Matches(obs[i].pattern, v)
    decreases |obs|
  {
    if obs != [] {
      var init := obs[..|obs| - 1];
      CollectIsFilter(init, v, cb);
      if cb in Collect(obs, v) && cb !in Collect(init, v) {
        var n := |obs| - 1;
        assert obs[n].callback == cb && Matches(obs[n].pattern, v);
      }
      if exists i :: 0 <= i < |obs| && obs[i].callback == cb && Matches(obs[i].pattern, v) {
        var i :| 0 <= i < |obs| && obs[i].callback == cb && Matches(obs[i].pattern, v);
        if i < |obs| - 1 {
          assert init[i] == obs[i];
        }
      }
    }
  }

  /** With the default pattern every observer of the cell is collected, in
      registration order. */
  lemma {:induction false} CollectDefaultPattern(obs: seq<Observer>, v: Value)
    requires forall i :: 0 <= i < |obs| ==> obs[i].pattern == Any
    ensures |Collect(obs, v)| == |obs|
    ensures forall i :: 0 <= i < |obs| ==> Collect(obs, v)[i] == obs[i].callback
    decreases |obs|
  {
    if obs != [] {
      CollectDefaultPattern(obs[..|obs| - 1], v);
    }
  }

  // ---------------------------------------------------------------------
  // Properties of the setter

  /** Writing the value a cell already holds changes nothing and calls nothing. */
  lemma NoChangeIsNoOp(w: World, r: Ref, v: Value, fuel: nat)
    requires ValueOf(w.values, r) == v
    ensures SetSpec(w, r, v, fuel) == (w, Done)
  {
  }

  /** With a nil protocol, a setter and the recomputations it triggers
      record no reads and attach or remove no observer: the dependency edges
      are those the successful `calculate` calls traced. */
  lemma RecomputeKeepsEdges(w: World, r: Ref, v: Value, fuel: nat)
    requires w.trace == Inactive
    ensures SetSpec(w, r, v, fuel).0.trace == Inactive
    ensures SetSpec(w, r, v, fuel).0.internals == w.internals
    ensures SetSpec(w, r, v, fuel).0.observers == w.observers
  {
  }

  /** An external block at the head of the list logs its call; it then
      stops the list if it raises, and otherwise the rest is called. */
  lemma NotifyExternal(w: World, cb: CallbackId, rest: seq<Block>,
                       newValue: Value, oldValue: Value, r: Ref, fuel: nat)
    ensures var w1 := w.(log := w.log + [Event(cb, newValue, oldValue, r.obj, r.name)]);
            NotifySpec(w, [External(cb)] + rest, newValue, oldValue, r, fuel)
              == if cb in w.raising then (w1, Failed(Thrown))
                 else NotifySpec(w1, rest, newValue, oldValue, r, fuel)
  {
    assert ([External(cb)] + rest)[1..] == rest;
  }

  /** The events of a list of blocks: the first block's event, then the rest's. */
  lemma EventsCons(log: seq<Event>, cbs: seq<CallbackId>, newValue: Value, oldValue: Value, r: Ref)
    requires cbs != []
    ensures log + [Event(cbs[0], newValue, oldValue, r.obj, r.name)] + Events(cbs[1..], newValue, oldValue, r)
         == log + Events(cbs, newValue, oldValue, r)
  {
    assert Events(cbs, newValue, oldValue, r)
        == [Event(cbs[0], newValue, oldValue, r.obj, r.name)] + Events(cbs[1..], newValue, oldValue, r);
  }

  /** The external blocks at the head of a notification list are called one
      after the other with the same arguments. When none of them raises, the
      rest of the list follows; otherwise the first raising block is the last
      one called, and its error stops the list. */
  lemma {:induction false} ExternalsFirst(w: World, cbs: seq<CallbackId>, rest: seq<Block>,
                                          newValue: Value, oldValue: Value, r: Ref, fuel: nat)
    ensures var k := FirstRaising(cbs, w.raising);
            NotifySpec(w, Externals(cbs) + rest, newValue, oldValue, r, fuel)
              == if k == |cbs|
                 then NotifySpec(w.(log := w.log + Events(cbs, newValue, oldValue, r)), rest,
                                 newValue, oldValue, r, fuel)
                 else (w.(log := w.log + Events(cbs[..k + 1], newValue, oldValue, r)), Failed(Thrown))
    decreases |cbs|
  {
    if cbs == [] {
      assert Externals(cbs) + rest == rest;
      assert w.log + Events(cbs, newValue, oldValue, r) == w.log;
      assert w.(log := w.log) == w;
    } else {
      var event := Event(cbs[0], newValue, oldValue, r.obj, r.name);
      var w1 := w.(log := w.log + [event]);
      var tail := Externals(cbs[1..]) + rest;
      assert Externals(cbs) + rest == [External(cbs[0])] + tail;
      NotifyExternal(w, cbs[0], tail, newValue, oldValue, r, fuel);
      if cbs[0] in w.raising {
        assert Events(cbs[..1], newValue, oldValue, r) == [event];
      } else {
        ExternalsFirst(w1, cbs[1..], rest, newValue, oldValue, r, fuel);
        var k := FirstRaising(cbs, w.raising);
        if k == |cbs| {
          EventsCons(w.log, cbs, newValue, oldValue, r);
        } else {
          assert cbs[..k + 1][1..] == cbs[1..][..k];
          EventsCons(w.log, cbs[..k + 1], newValue, oldValue, r);
        }
      }
    }
  }

  /** A changing write stores the new value first; then the matching
      external observers are called, in registration order, each with the
      new value, the previous value, the owner and the cell's name, before
      any dependent cell is recomputed. A raising observer ends the write:
      the new value stays stored, no later observer is called and no
      dependent cell is recomputed. With no raising observer and no internal
      observer on the cell, the stored value and the calls are the whole
      effect. */
  lemma ChangingWrite(w: World, r: Ref, v: Value, fuel: nat)
    requires ValueOf(w.values, r) != v
    ensures var stored := w.(values := w.values[r := v]);
            var cbs := Collect(Lookup(w.observers, r), v);
            var k := FirstRaising(cbs, w.raising);
            var events := Events(cbs, v, ValueOf(w.values, r), r);
            && (k == |cbs| ==>
                  && SetSpec(w, r, v, fuel)
                     == NotifySpec(stored.(log := w.log + events), Internals(Lookup(w.internals, r)),
                                   v, ValueOf(w.values, r), r, fuel)
                  && w.log + events <= SetSpec(w, r, v, fuel).0.log
                  && (Lookup(w.internals, r) == [] ==>
                        SetSpec(w, r, v, fuel) == (stored.(log := w.log + events), Done)))
            && (k < |cbs| ==>
                  SetSpec(w, r, v, fuel)
                  == (stored.(log := w.log + Events(cbs[..k + 1], v, ValueOf(w.values, r), r)), Failed(Thrown)))
  {
    var stored := w.(values := w.values[r := v]);
    var cbs := Collect(Lookup(w.observers, r), v);
    ExternalsFirst(stored, cbs, Internals(Lookup(w.internals, r)), v, ValueOf(w.values, r), r, fuel);
  }

  /** No computation that a setter of `r` can trigger, within `fuel` nested
      setter calls, targets `q`: none of those registered on `r` does, and
      none of those their targets' setters can trigger does. */
  ghost predicate Unreached(reg: Registry<Computation>, r: Ref, q: Ref, fuel: nat)
    decreases fuel
  {
    forall i :: 0 <= i < |Lookup(reg, r)| ==>
      && Lookup(reg, r)[i].target != q
      && (fuel > 0 ==> Unreached(reg, Lookup(reg, r)[i].target, q, fuel - 1))
  }

  /** A setter of `r` writes only `r` itself and the cells its cascade
      reaches: a cell the cascade cannot reach keeps its value, and `r`
      keeps the written value unless the cascade writes it back. */
  lemma {:induction false} SetFrame(w: World, r: Ref, v: Value, fuel: nat, q: Ref)
    requires Unreached(w.internals, r, q, fuel)
    ensures ValueOf(SetSpec(w, r, v, fuel).0.values, q) == if q == r then v else ValueOf(w.values, q)
    decreases fuel, 1, 0
  {
    var previous := ValueOf(w.values, r);
    if previous != v {
      var stored := w.(values := w.values[r := v]);
      var blocks := Notification(w, r, v);
      forall i | 0 <= i < |blocks| && blocks[i].Internal?
        ensures blocks[i].computation.target != q
        ensures fuel > 0 ==> Unreached(w.internals, blocks[i].computation.target, q, fuel - 1)
      {
        var cbs := Collect(Lookup(w.observers, r), v);
        assert blocks[i] == Internals(Lookup(w.internals, r))[i - |cbs|];
        assert blocks[i].computation == Lookup(w.internals, r)[i - |cbs|];
      }
      NotifyFrame(stored, blocks, v, previous, r, fuel, q);
    }
  }

  /** Calling a list of blocks leaves cell `q` alone when neither an internal
      block of the list nor a computation its cascade reaches targets `q`. */
  lemma {:induction false} NotifyFrame(w: World, blocks: seq<Block>, newValue: Value, oldValue: Value,
                                       r: Ref, fuel: nat, q: Ref)
    requires forall i :: 0 <= i < |blocks| && blocks[i].Internal? ==>
               && blocks[i].computation.target != q
               && (fuel > 0 ==> Unreached(w.internals, blocks[i].computation.target, q, fuel - 1))
    ensures ValueOf(NotifySpec(w, blocks, newValue, oldValue, r, fuel).0.values, q) == ValueOf(w.values, q)
    decreases fuel, 0, |blocks|
  {
    if blocks != [] {
      forall i | 0 <= i < |blocks[1..]| && blocks[1..][i].Internal?
        ensures blocks[1..][i].computation.target != q
        ensures fuel > 0 ==> Unreached(w.internals, blocks[1..][i].computation.target, q, fuel - 1)
      {
        assert blocks[1..][i] == blocks[i + 1];
      }
      CallFrame(w, blocks[0], newValue, oldValue, r, fuel, q);
      var (w', status) := CallSpec(w, blocks[0], newValue, oldValue, r, fuel);
      if !status.Failed? {
        NotifyFrame(w', blocks[1..], newValue, oldValue, r, fuel, q);
      }
    }
  }

  /** One block leaves cell `q` alone when neither the block itself nor a
      computation its cascade reaches targets `q`. */
  lemma {:induction false} CallFrame(w: World, b: Block, newValue: Value, oldValue: Value,
                                     r: Ref, fuel: nat, q: Ref)
    requires b.Internal? ==>
               && b.computation.target != q
               && (fuel > 0 ==> Unreached(w.internals, b.computation.target, q, fuel - 1))
    ensures ValueOf(CallSpec(w, b, newValue, oldValue, r, fuel).0.values, q) == ValueOf(w.values, q)
    decreases fuel, 0, 0
  {
    if b.Internal? && fuel > 0 {
      var e := Eval(w.values, b.computation.formula);
      if e.result.Ok? {
        SetFrame(w.(trace := Record(w.trace, e.sources)), b.computation.target, e.result.value, fuel - 1, q);
      }
    }
  }

  // ---------------------------------------------------------------------
  // Properties of observe and calculate

  /** The cells named by a collection hold `q` once per occurrence of its name. */
  lemma {:induction false} CountCells(obj: ObjId, names: seq<Name>, q: Ref)
    ensures Count(CellsNamed(obj, names), q) == if q.obj == obj then Count(names, q.name) else 0
    decreases |names|
  {
    if names != [] {
      var init := names[..|names| - 1];
      var cells := CellsNamed(obj, names);
      assert cells[..|cells| - 1] == CellsNamed(obj, init);
      CountCells(obj, init, q);
    }
  }

  /** `observe` appends its registration to the end of each named cell's
      list, once per time the name is given, and leaves every other list as
      it was; a single name gets exactly one registration. */
  lemma ObserveAppends(reg: Registry<Observer>, obj: ObjId, spec: CellSpec, pattern: Pattern,
                       cb: CallbackId, q: Ref)
    ensures var n := match spec
                     case Single(name) => if q == Ref(obj, name) then 1 else 0
                     case Many(names) => if q.obj == obj then Count(names, q.name) else 0;
            Lookup(ObserveSpec(reg, obj, spec, pattern, cb), q)
              == Lookup(reg, q) + Repeat(Observer(pattern, cb), n)
  {
    var reg1 := WithHash(reg, obj);
    AppendAllLookup(reg1, Cells(obj, spec), Observer(pattern, cb), q);
    match spec
    case Single(name) =>
      assert Cells(obj, spec)[..0] == [];
    case Many(names) =>
      CountCells(obj, names, q);
  }

  /** A successful `calculate` first evaluates the formula with a fresh
      protocol and hands the result to the setter; afterwards the protocol
      is closed, and every cell recorded during the formula and during the
      setter's cascade (the formula's own reads come first) has gained one
      internal observer for this computation per time it was recorded. The
      store and the log are those the setter left. */
  lemma CalculateRegisters(w: World, target: Ref, f: Formula, fuel: nat, q: Ref)
    requires Eval(w.values, f).result.Ok?
    requires CalculateSpec(w, target, f, fuel).1 == Done
    ensures var e := Eval(w.values, f);
            var after := SetSpec(w.(trace := Active(e.sources)), target, e.result.value, fuel).0;
            var res := CalculateSpec(w, target, f, fuel).0;
            && after.trace.Active?
            && e.sources <= after.trace.recorded
            && res.trace == Inactive
            && res.values == after.values && res.log == after.log
            && Lookup(res.internals, q)
               == Lookup(w.internals, q) + Repeat(Computation(target, f), Count(after.trace.recorded, q))
  {
    var e := Eval(w.values, f);
    var after := SetSpec(w.(trace := Active(e.sources)), target, e.result.value, fuel).0;
    AppendAllLookup(after.internals, after.trace.recorded, Computation(target, f), q);
  }

  /** Unless the cascade of its own setter writes the target back,
      `calculate` leaves the target holding the formula's value, computed
      over the store as it was, even if an error escapes the cascade
      afterwards. */
  lemma CalculateStoresResult(w: World, target: Ref, f: Formula, fuel: nat)
    requires Eval(w.values, f).result.Ok?
    requires Unreached(w.internals, target, target, fuel)
    ensures ValueOf(CalculateSpec(w, target, f, fuel).0.values, target) == Eval(w.values, f).result.value
  {
    var e := Eval(w.values, f);
    SetFrame(w.(trace := Active(e.sources)), target, e.result.value, fuel, target);
  }

  /** A formula that raises leaves the store and registries untouched and the
      protocol open with the reads made before the error. */
  lemma CalculateRaises(w: World, target: Ref, f: Formula, fuel: nat)
    requires Eval(w.values, f).result.Raised?
    ensures CalculateSpec(w, target, f, fuel)
         == (w.(trace := Active(Eval(w.values, f).sources)), Failed(OperandError))
  {
  }

  /** A formula that succeeds but whose setter cascade fails (a throwing
      observer of the target, an operand error in a recomputation, or the
      stack running out) ends `calculate` with the setter's state and
      error: no computation is attached, and the protocol stays open with
      the formula's reads followed by the cascade's. */
  lemma CalculateCascadeFails(w: World, target: Ref, f: Formula, fuel: nat)
    requires Eval(w.values, f).result.Ok?
    requires SetSpec(w.(trace := Active(Eval(w.values, f).sources)), target,
                     Eval(w.values, f).result.value, fuel).1.Failed?
    ensures var e := Eval(w.values, f);
            var (after, status) := SetSpec(w.(trace := Active(e.sources)), target, e.result.value, fuel);
            && CalculateSpec(w, target, f, fuel) == (after, status)
            && after.internals == w.internals
            && after.trace.Active?
            && e.sources <= after.trace.recorded
  {
  }

  /** `calculate` starts from a fresh protocol whatever an earlier failed
      `calculate` left open, so a stale protocol never reaches the edges. */
  lemma CalculateResetsProtocol(w: World, t: Trace, target: Ref, f: Formula, fuel: nat)
    ensures CalculateSpec(w.(trace := t), target, f, fuel) == CalculateSpec(w, target, f, fuel)
  {
    assert w.(trace := t).(trace := Active(Eval(w.values, f).sources))
        == w.(trace := Active(Eval(w.values, f).sources));
  }
}
