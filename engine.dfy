/** The cell engine as the program runs it: the instance variables of all
    objects, their observer hashes, the global read protocol, and the
    generated getters and setters, `observe` and `calculate`, each changing
    that state step by step. Every method is proved to leave exactly the
    state, or return exactly the result, that the matching function of
    `Values`, `Formulas` or `Propagation` describes. */
module Cells {
  import opened Values
  import opened Formulas
  import opened Registry
  import opened Propagation

  class Engine {
    /** The cell instance variables of every object. */
    var values: map<Ref, Value>
    /** `@cells_observers` of every object. */
    var observers: Registry<Observer>
    /** `@cells_internal_observers` of every object. */
    var internals: Registry<Computation>
    /** `$cells_read_protocoll`. */
    var trace: Trace
    /** The external callbacks called so far, with their arguments. */
    var log: seq<Event>
    /** The external blocks that raise (or throw) when called. */
    const raising: set<CallbackId>

    /** The engine's fields as one `World`. */
    function State(): (w: World)
      reads this
    {
      World(values, observers, internals, trace, log, raising)
    }

    /** No cell has been set, nothing is observed and the protocol is nil;
        the blocks of `raising` raise when called. */
    constructor (raising: set<CallbackId>)
      ensures State() == World(map[], map[], map[], Inactive, [], raising)
    {
      values, observers, internals, trace, log := map[], map[], map[], Inactive, [];
      this.raising := raising;
    }

    /** The generated getter of cell `r`. */
    method Get(r: Ref) returns (v: Value)
      modifies this`trace
      ensures v == ValueOf(values, r)
      ensures trace == Record(old(trace), [r])
    {
      if trace.Active? {
        trace := Active(trace.recorded + [r]);
      }
      v := ValueOf(values, r);
    }

    /** Runs a formula block: every cell it reads goes through the getter. */
    method Evaluate(f: Formula) returns (result: Outcome)
      modifies this`trace
      ensures result == Eval(values, f).result
      ensures trace == Record(old(trace), Eval(values, f).sources)
      decreases f
    {
      match f
      case Const(v) =>
        result := Ok(v);
      case Read(r) =>
        var v := Get(r);
        result := Ok(v);
      case Binary(op, a, b) =>
        var ra := Evaluate(a);
        if ra.Raised? {
          return ra;
        }
        var rb := Evaluate(b);
        if rb.Raised? {
          return rb;
        }
        result := Apply(op, ra.value, rb.value);
      case Case(s, arms, otherwise) =>
        var rs := Evaluate(s);
        if rs.Raised? {
          return rs;
        }
        result := Ok(SelectArm(arms, rs.value, otherwise));
    }

    /** The generated setter of cell `r`, called with `v`; `fuel` is the
        depth of nested setter calls the stack still allows. */
    method Set(r: Ref, v: Value, fuel: nat) returns (status: Status)
      modifies this
      ensures (State(), status) == SetSpec(old(State()), r, v, fuel)
      decreases fuel, 2
    {
      var previous := ValueOf(values, r);
      if previous == v {
        return Done;
      }
      values := values[r := v];
      var blocks := NotificationList(r, v);
      status := NotifyAll(blocks, v, previous, r, fuel);
    }

    /** The setter's loop `observers.each { |block| block.call(...) }`. */
    method NotifyAll(blocks: seq<Block>, newValue: Value, oldValue: Value, r: Ref, fuel: nat)
      returns (status: Status)
      modifies this
      ensures (State(), status) == NotifySpec(old(State()), blocks, newValue, oldValue, r, fuel)
      decreases fuel, 1
    {
      var j := 0;
      while j < |blocks|
        invariant 0 <= j <= |blocks|
        invariant NotifySpec(State(), blocks[j..], newValue, oldValue, r, fuel)
               == NotifySpec(old(State()), blocks, newValue, oldValue, r, fuel)
      {
        assert blocks[j..][0] == blocks[j] && blocks[j..][1..] == blocks[j + 1..];
        var result := Call(blocks[j], newValue, oldValue, r, fuel);
        if result.Failed? {
          return result;
        }
        j := j + 1;
      }
      status := Done;
    }

    /** The list the setter of `r` builds for the new value `v`: the
        matching external observers pushed one by one, then all internal
        observers appended. */
    method NotificationList(r: Ref, v: Value) returns (blocks: seq<Block>)
      ensures blocks == Notification(State(), r, v)
    {
      blocks := [];
      var external := Lookup(observers, r);
      var i := 0;
      while i < |external|
        invariant 0 <= i <= |external|
        invariant blocks == Externals(Collect(external[..i], v))
      {
        assert external[..i + 1][..i] == external[..i];
        if Matches(external[i].pattern, v) {
          blocks := blocks + [External(external[i].callback)];
        }
        i := i + 1;
      }
      assert external[..i] == external;
      blocks := blocks + Internals(Lookup(internals, r));
    }

    /** Calls one block of the notification list of cell `r`. */
    method Call(b: Block, newValue: Value, oldValue: Value, r: Ref, fuel: nat) returns (status: Status)
      modifies this
      ensures (State(), status) == CallSpec(old(State()), b, newValue, oldValue, r, fuel)
      decreases fuel, 0
    {
      match b
      case External(cb) =>
        log := log + [Event(cb, newValue, oldValue, r.obj, r.name)];
        status := if cb in raising then Failed(Thrown) else Done;
      case Internal(c) =>
        if fuel == 0 {
          return Failed(StackOverflow);
        }
        var result := Evaluate(c.formula);
        if result.Raised? {
          return Failed(result.error);
        }
        status := Set(c.target, result.value, fuel - 1);
    }

    /** `self.observe(spec, pattern, &block)` on the object `obj`; the
        default pattern `Object` is `Any`. */
    method Observe(obj: ObjId, spec: CellSpec, pattern: Pattern, cb: CallbackId)
      modifies this`observers
      ensures observers == ObserveSpec(old(observers), obj, spec, pattern, cb)
    {
      observers := WithHash(observers, obj);
      match spec
      case Many(names) =>
        ObserveEach(obj, names, Observer(pattern, cb));
      case Single(name) =>
        AppendAllSnoc(observers, [], Ref(obj, name), Observer(pattern, cb));
        observers := Append(observers, Ref(obj, name), Observer(pattern, cb));
    }

    /** `cell_spec.each { |cell| @cells_observers[cell] ||= []; ...push ... }`. */
    method ObserveEach(obj: ObjId, names: seq<Name>, registration: Observer)
      modifies this`observers
      ensures observers == AppendAll(old(observers), CellsNamed(obj, names), registration)
    {
      var k := 0;
      while k < |names|
        invariant 0 <= k <= |names|
        invariant observers == AppendAll(old(observers), CellsNamed(obj, names[..k]), registration)
      {
        assert names[..k + 1][..k] == names[..k];
        AppendAllSnoc(old(observers), CellsNamed(obj, names[..k]), Ref(obj, names[k]), registration);
        observers := Append(observers, Ref(obj, names[k]), registration);
        k := k + 1;
      }
      assert names[..k] == names;
    }

    /** `target.obj.calculate(target.name, &f)`. */
    method Calculate(target: Ref, f: Formula, fuel: nat) returns (status: Status)
      modifies this
      ensures (State(), status) == CalculateSpec(old(State()), target, f, fuel)
    {
      // initialize the attribute and determine the source cells
      trace := Active([]);
      var result := Evaluate(f);
      assert trace == Active(Eval(values, f).sources);
      if result.Raised? {
        return Failed(result.error);
      }
      status := Set(target, result.value, fuel);
      if status.Failed? {
        return;
      }

      // register an internal observer on every source cell
      Connect(trace.recorded, Computation(target, f));

      // reset the read protocol
      trace := Inactive;
    }

    /** The registration loop of `calculate`: pushes `c` onto the internal
        observer list of every cell of `sources`, in order. */
    method Connect(sources: seq<Ref>, c: Computation)
      modifies this`internals
      ensures internals == AppendAll(old(internals), sources, c)
    {
      var k := 0;
      while k < |sources|
        invariant 0 <= k <= |sources|
        invariant internals == AppendAll(old(internals), sources[..k], c)
      {
        assert sources[..k + 1][..k] == sources[..k];
        internals := Append(internals, sources[k], c);
        k := k + 1;
      }
      assert sources[..k] == sources;
    }
  }
}
