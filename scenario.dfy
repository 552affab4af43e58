/** The fixture of the test suite: one object with cells `cell1` to `cell4`,
    `cell1 = 5`, `cell2` computed as `cell1 * 10` and `cell3` classifying
    `cell2` as low, medium, high or out of range. */
module Scenario {
  import opened Values
  import opened Formulas
  import opened Registry
  import opened Propagation
  import opened Cells

  /** `@dummy` and its cells. */
  const DUMMY: ObjId := 0
  const CELL1: Ref := Ref(DUMMY, "cell1")
  const CELL2: Ref := Ref(DUMMY, "cell2")
  const CELL3: Ref := Ref(DUMMY, "cell3")

  /** Enough nesting for the chain cell1 -> cell2 -> cell3. */
  const DEPTH: nat := 3

  /** `@dummy.cell1 * 10` */
  const TIMES_TEN: Formula := Binary(Times, Read(CELL1), Const(Int(10)))

  /** `case @dummy.cell2 when 0...25 then :low when 25...75 then :medium
      when 75..100 then :high else :out_of_range end` */
  const CLASSIFY: Formula :=
    Case(Read(CELL2),
         [Arm(IntRange(0, 25, true), Sym("low")),
          Arm(IntRange(25, 75, true), Sym("medium")),
          Arm(IntRange(75, 100, false), Sym("high"))],
         Sym("out_of_range"))

  /** The classification reads `cell2` once and yields the matching label. */
  lemma Classify(values: map<Ref, Value>, v: Value)
    requires ValueOf(values, CELL2) == v
    ensures Eval(values, CLASSIFY) == Evaluation(Ok(SelectArm(CLASSIFY.arms, v, CLASSIFY.otherwise)), [CELL2])
  {
    assert Eval(values, Read(CELL2)) == Evaluation(Ok(v), [CELL2]);
  }

  /** 50 is :medium; 80 and 100 are :high; 200 is out of range. */
  lemma ClassifyExamples()
    ensures SelectArm(CLASSIFY.arms, Int(50), CLASSIFY.otherwise) == Sym("medium")
    ensures SelectArm(CLASSIFY.arms, Int(80), CLASSIFY.otherwise) == Sym("high")
    ensures SelectArm(CLASSIFY.arms, Int(100), CLASSIFY.otherwise) == Sym("high")
    ensures SelectArm(CLASSIFY.arms, Int(200), CLASSIFY.otherwise) == Sym("out_of_range")
  {
  }

  /** The computations `calculate` attaches for `cell2` and `cell3`. */
  const COMPUTE_CELL2: Computation := Computation(CELL2, TIMES_TEN)
  const COMPUTE_CELL3: Computation := Computation(CELL3, CLASSIFY)

  /** A fresh `TestDummy`. */
  const EMPTY: World := World(map[], map[], map[], Inactive, [], {})

  /** After `cell1 = 5`. */
  const AFTER_SET: World := World(map[CELL1 := Int(5)], map[], map[], Inactive, [], {})

  /** After `calculate(:cell2) { cell1 * 10 }`. */
  const AFTER_CELL2: World :=
    World(map[CELL1 := Int(5), CELL2 := Int(50)], map[],
          map[DUMMY := map["cell1" := [COMPUTE_CELL2]]], Inactive, [], {})

  /** After `calculate(:cell3) { case cell2 ... }`: the fixture. */
  const FIXTURE: World :=
    World(map[CELL1 := Int(5), CELL2 := Int(50), CELL3 := Sym("medium")], map[],
          map[DUMMY := map["cell1" := [COMPUTE_CELL2], "cell2" := [COMPUTE_CELL3]]], Inactive, [], {})

  /** `@dummy.cell1 = 5` on a fresh object: nothing to notify. */
  lemma SetCell1()
    ensures SetSpec(EMPTY, CELL1, Int(5), DEPTH) == (AFTER_SET, Done)
  {
    assert Notification(EMPTY, CELL1, Int(5)) == [];
    assert NotifySpec(EMPTY.(values := map[CELL1 := Int(5)]), [], Int(5), Nil, CELL1, DEPTH)
        == (AFTER_SET, Done);
  }

  /** `calculate(:cell2)` stores 50 and hangs its computation on `cell1`. */
  lemma CalculateCell2()
    ensures CalculateSpec(AFTER_SET, CELL2, TIMES_TEN, DEPTH) == (AFTER_CELL2, Done)
  {
    assert Eval(AFTER_SET.values, TIMES_TEN) == Evaluation(Ok(Int(50)), [CELL1]);
    var tracing := AFTER_SET.(trace := Active([CELL1]));
    assert Notification(tracing, CELL2, Int(50)) == [];
    var stored := tracing.(values := tracing.values[CELL2 := Int(50)]);
    assert SetSpec(tracing, CELL2, Int(50), DEPTH) == (stored, Done);
    assert AppendAll(map[], [CELL1], COMPUTE_CELL2) == AFTER_CELL2.internals by {
      assert [CELL1][..0] == [];
      assert AppendAll(map[], [CELL1], COMPUTE_CELL2) == Append(map[], CELL1, COMPUTE_CELL2);
      assert [] + [COMPUTE_CELL2] == [COMPUTE_CELL2];
    }
  }

  /** `calculate(:cell3)` stores :medium and hangs its computation on `cell2`. */
  lemma CalculateCell3()
    ensures CalculateSpec(AFTER_CELL2, CELL3, CLASSIFY, DEPTH) == (FIXTURE, Done)
  {
    assert "cell3" != "cell1" by { assert "cell3"[4] != "cell1"[4]; }
    assert "cell2" != "cell1" by { assert "cell2"[4] != "cell1"[4]; }
    assert ValueOf(AFTER_CELL2.values, CELL2) == Int(50);
    ClassifyExamples();
    Classify(AFTER_CELL2.values, Int(50));
    var tracing := AFTER_CELL2.(trace := Active([CELL2]));
    assert Lookup(tracing.internals, CELL3) == [];
    assert Notification(tracing, CELL3, Sym("medium")) == [];
    var stored := tracing.(values := tracing.values[CELL3 := Sym("medium")]);
    assert SetSpec(tracing, CELL3, Sym("medium"), DEPTH) == (stored, Done);
    assert AppendAll(AFTER_CELL2.internals, [CELL2], COMPUTE_CELL3) == FIXTURE.internals by {
      assert [CELL2][..0] == [];
      assert AppendAll(AFTER_CELL2.internals, [CELL2], COMPUTE_CELL3)
          == Append(AFTER_CELL2.internals, CELL2, COMPUTE_CELL3);
      assert [] + [COMPUTE_CELL3] == [COMPUTE_CELL3];
    }
  }

  /** The fixture after `@dummy.cell1 = 8`. */
  const UPDATED: World :=
    FIXTURE.(values := map[CELL1 := Int(8), CELL2 := Int(80), CELL3 := Sym("high")])

  /** The fixture just after the setter of `cell1` stored 8. */
  const BUMPED: World := FIXTURE.(values := FIXTURE.values[CELL1 := Int(8)])

  /** The cell names of the fixture are distinct strings. */
  lemma NamesDistinct()
    ensures "cell1" != "cell2" && "cell1" != "cell3" && "cell2" != "cell3"
  {
    assert "cell1"[4] != "cell2"[4] && "cell1"[4] != "cell3"[4] && "cell2"[4] != "cell3"[4];
  }

  /** The fixture once the nested setter of `cell2` stored 80. */
  const BUMPED_TWICE: World := BUMPED.(values := BUMPED.values[CELL2 := Int(80)])

  /** The innermost setter: `cell3 = :high` has nothing to notify. */
  lemma UpdateCell3()
    ensures SetSpec(BUMPED_TWICE, CELL3, Sym("high"), DEPTH - 2) == (UPDATED, Done)
  {
    NamesDistinct();
    assert Lookup(BUMPED_TWICE.internals, CELL3) == [];
    assert Notification(BUMPED_TWICE, CELL3, Sym("high")) == [];
    assert BUMPED_TWICE.(values := BUMPED_TWICE.values[CELL3 := Sym("high")]) == UPDATED;
  }

  /** Inside the setter of `cell1`, recomputing `cell2` gives 80, whose
      setter recomputes `cell3` to :high. */
  lemma UpdateCell2()
    ensures SetSpec(BUMPED, CELL2, Int(80), DEPTH - 1) == (UPDATED, Done)
  {
    NamesDistinct();
    assert Lookup(BUMPED.internals, CELL2) == [COMPUTE_CELL3];
    UpdateCell3();
    assert ValueOf(BUMPED_TWICE.values, CELL2) == Int(80);
    ClassifyExamples();
    Classify(BUMPED_TWICE.values, Int(80));
    assert BUMPED_TWICE.(trace := Record(BUMPED_TWICE.trace, [CELL2])) == BUMPED_TWICE;
    assert CallSpec(BUMPED_TWICE, Internal(COMPUTE_CELL3), Int(80), Int(50), CELL2, DEPTH - 1) == (UPDATED, Done);
    assert [Internal(COMPUTE_CELL3)][1..] == [];
    assert NotifySpec(BUMPED_TWICE, [Internal(COMPUTE_CELL3)], Int(80), Int(50), CELL2, DEPTH - 1) == (UPDATED, Done);
    assert Notification(BUMPED, CELL2, Int(80)) == [Internal(COMPUTE_CELL3)];
  }

  /** `@dummy.cell1 = 8` recomputes `cell2`, whose setter recomputes `cell3`. */
  lemma UpdateCell1()
    ensures SetSpec(FIXTURE, CELL1, Int(8), DEPTH) == (UPDATED, Done)
  {
    NamesDistinct();
    assert Lookup(FIXTURE.internals, CELL1) == [COMPUTE_CELL2];
    assert Lookup(FIXTURE.observers, CELL1) == [];
    UpdateCell2();
    assert Eval(BUMPED.values, TIMES_TEN) == Evaluation(Ok(Int(80)), [CELL1]);
    assert CallSpec(BUMPED, Internal(COMPUTE_CELL2), Int(8), Int(5), CELL1, DEPTH) == (UPDATED, Done);
    assert [Internal(COMPUTE_CELL2)][1..] == [];
    assert Notification(FIXTURE, CELL1, Int(8)) == [Internal(COMPUTE_CELL2)];
  }

  /** The test suite's fixture and its automatic update: setting `cell1` to
      5 and attaching the two formulas gives `cell2` = 50 and `cell3` =
      :medium, each computation hanging on the one cell it read and the
      protocol nil; then setting `cell1` to 8 makes `cell2` 80 and `cell3`
      :high without any further call, and calls no external observer. */
  lemma ChainedUpdate()
    ensures CalculateSpec(CalculateSpec(SetSpec(EMPTY, CELL1, Int(5), DEPTH).0,
                                        CELL2, TIMES_TEN, DEPTH).0,
                          CELL3, CLASSIFY, DEPTH) == (FIXTURE, Done)
    ensures ValueOf(FIXTURE.values, CELL2) == Int(50)
    ensures ValueOf(FIXTURE.values, CELL3) == Sym("medium")
    ensures Lookup(FIXTURE.internals, CELL1) == [COMPUTE_CELL2]
    ensures Lookup(FIXTURE.internals, CELL2) == [COMPUTE_CELL3]
    ensures FIXTURE.trace == Inactive
    ensures SetSpec(FIXTURE, CELL1, Int(8), DEPTH) == (UPDATED, Done)
    ensures ValueOf(UPDATED.values, CELL2) == Int(80)
    ensures ValueOf(UPDATED.values, CELL3) == Sym("high")
    ensures UPDATED.log == []
  {
    SetCell1();
    CalculateCell2();
    CalculateCell3();
    UpdateCell1();
    FixtureValues();
  }

  /** The cell values and edges `ChainedUpdate` reads off the two worlds.
      They are proved here, apart from the ensures of `ChainedUpdate` that
      repeat them, because one proof of all of them together is too costly
      for the verifier. */
  lemma FixtureValues()
    ensures ValueOf(FIXTURE.values, CELL2) == Int(50)
    ensures ValueOf(FIXTURE.values, CELL3) == Sym("medium")
    ensures Lookup(FIXTURE.internals, CELL1) == [COMPUTE_CELL2]
    ensures Lookup(FIXTURE.internals, CELL2) == [COMPUTE_CELL3]
    ensures ValueOf(UPDATED.values, CELL2) == Int(80)
    ensures ValueOf(UPDATED.values, CELL3) == Sym("high")
  {
    NamesDistinct();
  }

  /** The test suite's `setup`, driven through the engine's methods. */
  method Setup() returns (dummy: Engine)
    ensures fresh(dummy) && dummy.State() == FIXTURE
  {
    dummy := new Engine({});
    var status := dummy.Set(CELL1, Int(5), DEPTH);
    SetCell1();
    assert dummy.State() == AFTER_SET;
    status := dummy.Calculate(CELL2, TIMES_TEN, DEPTH);
    CalculateCell2();
    assert dummy.State() == AFTER_CELL2;
    status := dummy.Calculate(CELL3, CLASSIFY, DEPTH);
    CalculateCell3();
  }

  /** The same fixture and update driven through the engine's methods, with
      the values read back through the getter (test.rb, test_cells_updated):
      the repeated write `cell1 = 5` changes nothing. */
  method CellsUpdated() returns (before2: Value, before3: Value, after2: Value, after3: Value)
    ensures before2 == Int(50) && before3 == Sym("medium")
    ensures after2 == Int(80) && after3 == Sym("high")
  {
    var dummy := Setup();
    NamesDistinct();
    var status := dummy.Set(CELL1, Int(5), DEPTH);
    NoChangeIsNoOp(FIXTURE, CELL1, Int(5), DEPTH);
    assert dummy.State() == FIXTURE;
    before2 := dummy.Get(CELL2);
    before3 := dummy.Get(CELL3);
    assert dummy.State() == FIXTURE;
    status := dummy.Set(CELL1, Int(8), DEPTH);
    UpdateCell1();
    assert dummy.State() == UPDATED;
    after2 := dummy.Get(CELL2);
    after3 := dummy.Get(CELL3);
  }

  /** `@dummy.cell1 * 20` */
  const TIMES_TWENTY: Formula := Binary(Times, Read(CELL1), Const(Int(20)))

  /** The fixture once the setter of `cell2`, called by
      `calculate(:cell2) { cell1 * 20 }`, stored 100; the protocol holds the
      formula's read of `cell1`. */
  const STORED_HUNDRED: World :=
    FIXTURE.(values := FIXTURE.values[CELL2 := Int(100)], trace := Active([CELL1]))

  /** `STORED_HUNDRED` once the recomputation of `cell3` read `cell2` into
      the protocol. */
  const CASCADED: World :=
    FIXTURE.(values := FIXTURE.values[CELL2 := Int(100)], trace := Active([CELL1, CELL2]))

  /** The fixture after `cell2 = 100` inside `calculate(:cell2) { cell1 * 20 }`,
      before the computation is registered: `cell3` is :high and the
      protocol holds the formula's read of `cell1` and the cascade's read of
      `cell2`. */
  const RETARGETED: World :=
    CASCADED.(values := CASCADED.values[CELL3 := Sym("high")])

  /** Inside that cascade, the setter `cell3 = :high` has nothing to notify. */
  lemma CascadeToCell3()
    ensures SetSpec(CASCADED, CELL3, Sym("high"), DEPTH - 1) == (RETARGETED, Done)
  {
    NamesDistinct();
    assert Lookup(CASCADED.internals, CELL3) == [];
    assert Notification(CASCADED, CELL3, Sym("high")) == [];
  }

  /** The internal observer of `cell2` classifies 100 as :high, reading
      `cell2` into the protocol. */
  lemma RecomputeCell3()
    ensures CallSpec(STORED_HUNDRED, Internal(COMPUTE_CELL3), Int(100), Int(50), CELL2, DEPTH)
         == (RETARGETED, Done)
  {
    CascadeToCell3();
    assert ValueOf(STORED_HUNDRED.values, CELL2) == Int(100);
    ClassifyExamples();
    Classify(STORED_HUNDRED.values, Int(100));
    assert STORED_HUNDRED.(trace := Record(STORED_HUNDRED.trace, [CELL2])) == CASCADED by {
      assert [CELL1] + [CELL2] == [CELL1, CELL2];
    }
  }

  /** With the protocol open on the read of `cell1`, writing 100 into
      `cell2` recomputes `cell3` to :high, and that recomputation's read of
      `cell2` is recorded too. */
  lemma CascadeFromCell2()
    ensures SetSpec(FIXTURE.(trace := Active([CELL1])), CELL2, Int(100), DEPTH) == (RETARGETED, Done)
  {
    NamesDistinct();
    var tracing := FIXTURE.(trace := Active([CELL1]));
    assert tracing.(values := tracing.values[CELL2 := Int(100)]) == STORED_HUNDRED;
    RecomputeCell3();
    assert [Internal(COMPUTE_CELL3)][1..] == [];
    assert NotifySpec(STORED_HUNDRED, [Internal(COMPUTE_CELL3)], Int(100), Int(50), CELL2, DEPTH) == (RETARGETED, Done);
    assert Notification(tracing, CELL2, Int(100)) == [Internal(COMPUTE_CELL3)];
  }

  /** The read protocol stays open while `calculate` assigns the target: on
      the fixture, `calculate(:cell2) { cell1 * 20 }` writes 100 into `cell2`,
      whose setter recomputes `cell3`, and that recomputation's read of
      `cell2` is recorded too. So the new computation hangs on `cell1` and on
      its own target `cell2`, next to the earlier ones, which are not
      removed. */
  lemma CascadedReadIsRecorded()
    ensures var (w, status) := CalculateSpec(FIXTURE, CELL2, TIMES_TWENTY, DEPTH);
            && status == Done
            && ValueOf(w.values, CELL2) == Int(100)
            && ValueOf(w.values, CELL3) == Sym("high")
            && Lookup(w.internals, CELL1) == [COMPUTE_CELL2, Computation(CELL2, TIMES_TWENTY)]
            && Lookup(w.internals, CELL2) == [COMPUTE_CELL3, Computation(CELL2, TIMES_TWENTY)]
  {
    var c := Computation(CELL2, TIMES_TWENTY);
    assert Eval(FIXTURE.values, TIMES_TWENTY) == Evaluation(Ok(Int(100)), [CELL1]);
    CascadeFromCell2();
    var registered := AppendAll(RETARGETED.internals, [CELL1, CELL2], c);
    assert CalculateSpec(FIXTURE, CELL2, TIMES_TWENTY, DEPTH)
        == (RETARGETED.(internals := registered, trace := Inactive), Done);
    RegisterTwice();
  }

  /** Registering the computation over the recorded reads `cell1, cell2`
      appends it once to each list, after the computation already there. */
  lemma RegisterTwice()
    ensures var registered := AppendAll(RETARGETED.internals, [CELL1, CELL2], Computation(CELL2, TIMES_TWENTY));
            && Lookup(registered, CELL1) == [COMPUTE_CELL2, Computation(CELL2, TIMES_TWENTY)]
            && Lookup(registered, CELL2) == [COMPUTE_CELL3, Computation(CELL2, TIMES_TWENTY)]
  {
    assert "cell2" != "cell1" by { assert "cell2"[4] != "cell1"[4]; }
    var c := Computation(CELL2, TIMES_TWENTY);
    var registered := AppendAll(RETARGETED.internals, [CELL1, CELL2], c);
    assert [CELL1, CELL2][..1] == [CELL1] && [CELL1][..0] == [];
    assert AppendAll(RETARGETED.internals, [], c) == RETARGETED.internals;
    var once := AppendAll(RETARGETED.internals, [CELL1], c);
    assert once == Append(RETARGETED.internals, CELL1, c);
    assert registered == Append(once, CELL2, c);
  }

  /** Writing a computed cell keeps the written value: 7 stays in `cell2`,
      whose cascade only recomputes `cell3`. */
  lemma WriteComputedCell()
    ensures ValueOf(SetSpec(FIXTURE, CELL2, Int(7), DEPTH).0.values, CELL2) == Int(7)
  {
    NamesDistinct();
    assert Lookup(FIXTURE.internals, CELL2) == [COMPUTE_CELL3];
    assert Lookup(FIXTURE.internals, CELL3) == [];
    assert Unreached(FIXTURE.internals, CELL3, CELL2, DEPTH - 1);
    SetFrame(FIXTURE, CELL2, Int(7), DEPTH, CELL2);
  }

  /** The block of the observers in the tests, which throws when called. */
  const THROWER: CallbackId := 1

  /** The fixture after `observe(:cell1) { throw :cell1_changed }`. */
  const OBSERVED: World :=
    FIXTURE.(observers := ObserveSpec(FIXTURE.observers, DUMMY, Single("cell1"), Any, THROWER),
             raising := {THROWER})

  /** The fixture after `observe(:cell1, 0..10) { throw :cell1_changed }`. */
  const OBSERVED_RANGE: World :=
    FIXTURE.(observers := ObserveSpec(FIXTURE.observers, DUMMY, Single("cell1"), IntRange(0, 10, false), THROWER),
             raising := {THROWER})

  /** `OBSERVED` after the throw escaped `cell1 = 10`. */
  const AFTER_THROW: World :=
    OBSERVED.(values := OBSERVED.values[CELL1 := Int(10)],
              log := [Event(THROWER, Int(10), Int(5), DUMMY, "cell1")])

  /** The only registration on `cell1` in `OBSERVED`. */
  lemma ObserverRegistered()
    ensures Lookup(OBSERVED.observers, CELL1) == [Observer(Any, THROWER)]
  {
    ObserveAppends(FIXTURE.observers, DUMMY, Single("cell1"), Any, THROWER, CELL1);
  }

  /** The setter stores 10, calls the observer and stops at its throw. */
  lemma SimpleObserverCalled()
    ensures SetSpec(OBSERVED, CELL1, Int(10), DEPTH) == (AFTER_THROW, Failed(Thrown))
  {
    var registration := Observer(Any, THROWER);
    var event := Event(THROWER, Int(10), Int(5), DUMMY, "cell1");
    ObserverRegistered();
    assert Collect([registration], Int(10)) == [THROWER] by {
      assert [registration][..0] == [];
    }
    assert FirstRaising([THROWER], OBSERVED.raising) == 0;
    assert [THROWER][..1] == [THROWER];
    assert ValueOf(OBSERVED.values, CELL1) == Int(5);
    assert OBSERVED.log + Events([THROWER], Int(10), Int(5), CELL1) == [event];
    ChangingWrite(OBSERVED, CELL1, Int(10), DEPTH);
  }

  /** `cell1 = 10` calls the observer once with `(10, 5, dummy, :cell1)`; its
      throw escapes the setter, after 10 was stored and before `cell2` was
      recomputed (test.rb, test_simple_observer). */
  lemma SimpleObserverThrows()
    ensures var (w, status) := SetSpec(OBSERVED, CELL1, Int(10), DEPTH);
            && status == Failed(Thrown)
            && w.log == [Event(THROWER, Int(10), Int(5), DUMMY, "cell1")]
            && ValueOf(w.values, CELL1) == Int(10)
            && ValueOf(w.values, CELL2) == Int(50)
  {
    SimpleObserverCalled();
    NamesDistinct();
  }

  /** The only registration on `cell1` in `OBSERVED_RANGE` lets 2 through
      and not 20. */
  lemma RangeObserverRegistered()
    ensures Collect(Lookup(OBSERVED_RANGE.observers, CELL1), Int(2)) == [THROWER]
    ensures Collect(Lookup(OBSERVED_RANGE.observers, CELL1), Int(20)) == []
  {
    var registration := Observer(IntRange(0, 10, false), THROWER);
    ObserveAppends(FIXTURE.observers, DUMMY, Single("cell1"), IntRange(0, 10, false), THROWER, CELL1);
    assert Lookup(OBSERVED_RANGE.observers, CELL1) == [registration];
    assert [registration][..0] == [];
  }

  /** `OBSERVED_RANGE` after the throw escaped `cell1 = 2`. */
  const AFTER_RANGE_THROW: World :=
    OBSERVED_RANGE.(values := OBSERVED_RANGE.values[CELL1 := Int(2)],
                    log := [Event(THROWER, Int(2), Int(5), DUMMY, "cell1")])

  /** With the pattern `0..10`, `cell1 = 2` calls the observer, whose throw
      escapes the setter. */
  lemma ConditionalObserverFires()
    ensures SetSpec(OBSERVED_RANGE, CELL1, Int(2), DEPTH) == (AFTER_RANGE_THROW, Failed(Thrown))
  {
    var event := Event(THROWER, Int(2), Int(5), DUMMY, "cell1");
    RangeObserverRegistered();
    assert FirstRaising([THROWER], OBSERVED_RANGE.raising) == 0;
    assert [THROWER][..1] == [THROWER];
    assert ValueOf(OBSERVED_RANGE.values, CELL1) == Int(5);
    assert OBSERVED_RANGE.log + Events([THROWER], Int(2), Int(5), CELL1) == [event];
    ChangingWrite(OBSERVED_RANGE, CELL1, Int(2), DEPTH);
  }

  /** With the pattern `0..10`, the notification list of `cell1 = 20` holds
      only the recomputation of `cell2`. */
  lemma ConditionalObserverSkips()
    ensures Notification(OBSERVED_RANGE, CELL1, Int(20)) == [Internal(COMPUTE_CELL2)]
  {
    NamesDistinct();
    RangeObserverRegistered();
    assert Lookup(OBSERVED_RANGE.internals, CELL1) == [COMPUTE_CELL2];
    assert Externals([]) + Internals([COMPUTE_CELL2]) == [Internal(COMPUTE_CELL2)];
  }

  /** `AFTER_RANGE_THROW` just after the setter of `cell1` stored 20. */
  const SKIPPED: World := AFTER_RANGE_THROW.(values := AFTER_RANGE_THROW.values[CELL1 := Int(20)])

  /** `SKIPPED` once the nested setter of `cell2` stored 200. */
  const SKIPPED_TWICE: World := SKIPPED.(values := SKIPPED.values[CELL2 := Int(200)])

  /** `AFTER_RANGE_THROW` after `cell1 = 20`: `cell2` is 200 and `cell3` out of range. */
  const QUIET: World := SKIPPED_TWICE.(values := SKIPPED_TWICE.values[CELL3 := Sym("out_of_range")])

  /** No observer is registered on `cell2` or `cell3` in `OBSERVED_RANGE`. */
  lemma RangeObserverOnlyOnCell1()
    ensures Lookup(OBSERVED_RANGE.observers, CELL2) == []
    ensures Lookup(OBSERVED_RANGE.observers, CELL3) == []
  {
    NamesDistinct();
    ObserveAppends(FIXTURE.observers, DUMMY, Single("cell1"), IntRange(0, 10, false), THROWER, CELL2);
    ObserveAppends(FIXTURE.observers, DUMMY, Single("cell1"), IntRange(0, 10, false), THROWER, CELL3);
  }

  /** The innermost setter of the quiet write: `cell3 = :out_of_range`
      has nothing to notify. */
  lemma QuietCell3()
    ensures SetSpec(SKIPPED_TWICE, CELL3, Sym("out_of_range"), DEPTH - 2) == (QUIET, Done)
  {
    NamesDistinct();
    RangeObserverOnlyOnCell1();
    assert Lookup(SKIPPED_TWICE.internals, CELL3) == [];
    assert Notification(SKIPPED_TWICE, CELL3, Sym("out_of_range")) == [];
  }

  /** The internal observer of `cell2` classifies 200 as :out_of_range. */
  lemma QuietRecomputeCell3()
    ensures CallSpec(SKIPPED_TWICE, Internal(COMPUTE_CELL3), Int(200), Int(50), CELL2, DEPTH - 1)
         == (QUIET, Done)
  {
    QuietCell3();
    assert ValueOf(SKIPPED_TWICE.values, CELL2) == Int(200);
    ClassifyExamples();
    Classify(SKIPPED_TWICE.values, Int(200));
    assert SKIPPED_TWICE.(trace := Record(SKIPPED_TWICE.trace, [CELL2])) == SKIPPED_TWICE;
  }

  /** Recomputing `cell2` to 200 recomputes `cell3` to :out_of_range. */
  lemma QuietCell2()
    ensures SetSpec(SKIPPED, CELL2, Int(200), DEPTH - 1) == (QUIET, Done)
  {
    NamesDistinct();
    RangeObserverOnlyOnCell1();
    assert Lookup(SKIPPED.internals, CELL2) == [COMPUTE_CELL3];
    assert Notification(SKIPPED, CELL2, Int(200)) == [Internal(COMPUTE_CELL3)];
    assert SKIPPED.(values := SKIPPED.values[CELL2 := Int(200)]) == SKIPPED_TWICE;
    QuietRecomputeCell3();
    assert [Internal(COMPUTE_CELL3)][1..] == [];
    assert NotifySpec(SKIPPED_TWICE, [Internal(COMPUTE_CELL3)], Int(200), Int(50), CELL2, DEPTH - 1) == (QUIET, Done);
  }

  /** The internal observer of `cell1` recomputes `cell2` from 20. */
  lemma QuietRecomputeCell2()
    ensures CallSpec(SKIPPED, Internal(COMPUTE_CELL2), Int(20), Int(2), CELL1, DEPTH) == (QUIET, Done)
  {
    QuietCell2();
    assert ValueOf(SKIPPED.values, CELL1) == Int(20);
    assert Eval(SKIPPED.values, TIMES_TEN) == Evaluation(Ok(Int(200)), [CELL1]);
  }

  /** After the throw, `cell1 = 20` calls no observer and completes. */
  lemma QuietCell1()
    ensures SetSpec(AFTER_RANGE_THROW, CELL1, Int(20), DEPTH) == (QUIET, Done)
  {
    ConditionalObserverSkips();
    assert AFTER_RANGE_THROW.observers == OBSERVED_RANGE.observers;
    assert AFTER_RANGE_THROW.internals == OBSERVED_RANGE.internals;
    assert Notification(AFTER_RANGE_THROW, CELL1, Int(20)) == [Internal(COMPUTE_CELL2)];
    assert ValueOf(AFTER_RANGE_THROW.values, CELL1) == Int(2);
    QuietRecomputeCell2();
    assert [Internal(COMPUTE_CELL2)][1..] == [];
    assert NotifySpec(SKIPPED, [Internal(COMPUTE_CELL2)], Int(20), Int(2), CELL1, DEPTH) == (QUIET, Done);
  }

  /** `cell1 = 2` calls the throwing observer with `(2, 5, dummy, :cell1)`,
      whose throw escapes after 2 was stored; afterwards `cell1 = 20` does
      not match, its notification list holds only the recomputation of
      `cell2`, and it completes without calling the observer again (test.rb,
      test_conditional_observer). */
  lemma ConditionalObserver()
    ensures var (w, status) := SetSpec(OBSERVED_RANGE, CELL1, Int(2), DEPTH);
            && status == Failed(Thrown)
            && w.log == [Event(THROWER, Int(2), Int(5), DUMMY, "cell1")]
            && ValueOf(w.values, CELL1) == Int(2)
            && Notification(w, CELL1, Int(20)) == [Internal(COMPUTE_CELL2)]
            && SetSpec(w, CELL1, Int(20), DEPTH).1 == Done
            && SetSpec(w, CELL1, Int(20), DEPTH).0.log == w.log
  {
    ConditionalObserverFires();
    ConditionalObserverSkips();
    QuietCell1();
    assert AFTER_RANGE_THROW.observers == OBSERVED_RANGE.observers;
    assert AFTER_RANGE_THROW.internals == OBSERVED_RANGE.internals;
  }
}
