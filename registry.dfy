/** Per-object registries of observers.

    Each object lazily creates a hash from cell name to a list
    (`@cells_observers ||= Hash.new`, then `[name] ||= []`), and registering
    pushes onto the end of the list. A registry is modelled as a map from
    object to such a hash; an object without a hash and a name without an
    entry both read as the empty list. */
module Registry {
  import opened Values

  type Registry<T> = map<ObjId, map<Name, seq<T>>>

  /** The list registered for cell `r`; empty when the object has no hash
      yet or the hash has no entry for the name. */
  function Lookup<T>(reg: Registry<T>, r: Ref): (list: seq<T>)
    ensures r.obj !in reg || r.name !in reg[r.obj] ==> list == []
    ensures r.obj in reg && r.name in reg[r.obj] ==> list == reg[r.obj][r.name]
  {
    if r.obj in reg && r.name in reg[r.obj] then reg[r.obj][r.name] else []
  }

  /** `@registry ||= Hash.new` on object `obj`. */
  function WithHash<T>(reg: Registry<T>, obj: ObjId): (reg': Registry<T>)
    ensures obj in reg'
    ensures forall q :: Lookup(reg', q) == Lookup(reg, q)
  {
    if obj in reg then reg else reg[obj := map[]]
  }

  /** `@registry ||= Hash.new; @registry[name] ||= []; @registry[name].push x`
      on the object owning `r`. */
  function Append<T>(reg: Registry<T>, r: Ref, x: T): (reg': Registry<T>)
    ensures Lookup(reg', r) == Lookup(reg, r) + [x]
    ensures forall q :: q != r ==> Lookup(reg', q) == Lookup(reg, q)
  {
    var hash := if r.obj in reg then reg[r.obj] else map[];
    var list := if r.name in hash then hash[r.name] else [];
    reg[r.obj := hash[r.name := list + [x]]]
  }

  /** Appends `x` once per element of `refs`, first element first. */
  function AppendAll<T>(reg: Registry<T>, refs: seq<Ref>, x: T): (reg': Registry<T>)
    ensures forall o :: o in reg ==> o in reg'
    decreases |refs|
  {
    if refs == [] then reg
    else Append(AppendAll(reg, refs[..|refs| - 1], x), refs[|refs| - 1], x)
  }

  /** Pushing onto one more cell is one more `Append` at the end. */
  lemma AppendAllSnoc<T>(reg: Registry<T>, refs: seq<Ref>, r: Ref, x: T)
    ensures AppendAll(reg, refs + [r], x) == Append(AppendAll(reg, refs, x), r, x)
  {
    assert (refs + [r])[..|refs|] == refs;
  }

  /** How often `x` occurs in `s`. */
  function Count<T(==)>(s: seq<T>, x: T): (n: nat)
    decreases |s|
  {
    if s == [] then 0
    else Count(s[..|s| - 1], x) + (if s[|s| - 1] == x then 1 else 0)
  }

  /** `n` copies of `x`. */
  function Repeat<T>(x: T, n: nat): (s: seq<T>)
    ensures |s| == n && forall i :: 0 <= i < n ==> s[i] == x
  {
    if n == 0 then [] else Repeat(x, n - 1) + [x]
  }

  /** Registering `x` on every cell of `refs` appends it to each cell's list
      as many times as the cell occurs in `refs`, duplicates included, and
      leaves the lists of all other cells as they were. */
  lemma {:induction false} AppendAllLookup<T>(reg: Registry<T>, refs: seq<Ref>, x: T, q: Ref)
    ensures Lookup(AppendAll(reg, refs, x), q) == Lookup(reg, q) + Repeat(x, Count(refs, q))
    decreases |refs|
  {
    if refs != [] {
      var init := refs[..|refs| - 1];
      AppendAllLookup(reg, init, x, q);
      if refs[|refs| - 1] == q {
        calc {
          Lookup(AppendAll(reg, refs, x), q);
          Lookup(AppendAll(reg, init, x), q) + [x];
          Lookup(reg, q) + Repeat(x, Count(init, q)) + [x];
          Lookup(reg, q) + (Repeat(x, Count(init, q)) + [x]);
          Lookup(reg, q) + Repeat(x, Count(refs, q));
        }
      }
    }
  }
}
