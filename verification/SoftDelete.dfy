// The soft-delete filter of backend/app/db.py: one walk over a statement, then
// `deleted_at IS NULL` on everything in it that reads a soft-deletable table.
module SoftDelete {
  import opened Options
  import opened Query
  import opened Sequences

  // ---------- The walk ----------

  function Leaves(keys: seq<Key>): seq<El> {
    seq(|keys|, i requires 0 <= i < |keys| => Leaf(keys[i], false))
  }

  // A SELECT also hands out the tables its columns and criteria bring in, and
  // an alias the table it stands for.
  function Children(el: El): seq<El> {
    match el
    case Leaf(k, _) => if k.AliasKey? then [Leaf(TableKey(k.table), false)] else []
    case Derived(_, q) => [q]
    case Join(l, r, on, _) => [l, r] + on
    case Target(i, on, _) => [i] + on
    case Select(_, _, columns, froms, joins, criteria, _) =>
      columns + froms + joins + criteria + Leaves(FromKeysOf(columns) + FromKeysOf(criteria))
    case Output(_, e, _) => [e]
    case Column(_, _, _) => []
    case Literal(_) => []
    case Op(_, args) => args
    case Exists(q) => [q]
    case InQuery(p, q) => [p, q]
    case Scalar(q) => [q]
  }

  // Counts every element a walk can meet below `el`.
  ghost function Weight(el: El): nat
    decreases el, 1
  {
    match el
    case Leaf(k, _) => if k.AliasKey? then 2 else 1
    case Derived(_, q) => 1 + Weight(q)
    case Join(l, r, on, _) => 2 + Weight(l) + Weight(r) + WeightAll(on)
    case Target(i, on, _) => 1 + Weight(i) + WeightAll(on)
    case Select(_, _, columns, froms, joins, criteria, _) =>
      1 + WeightAll(columns) + WeightAll(froms) + WeightAll(joins) + WeightAll(criteria)
      + 3 * |FromKeysOf(columns)| + 3 * |FromKeysOf(criteria)|
    case Output(_, e, _) => 1 + Weight(e)
    case Column(_, _, _) => 1
    case Literal(_) => 1
    case Op(_, args) => 1 + WeightAll(args)
    case Exists(q) => 1 + Weight(q)
    case InQuery(p, q) => 2 + Weight(p) + Weight(q)
    case Scalar(q) => 1 + Weight(q)
  }

  ghost function WeightAll(els: seq<El>): (w: nat)
    ensures w >= |els|
    decreases els, 0
  {
    if els == [] then 0 else 1 + Weight(els[0]) + WeightAll(els[1..])
  }

  lemma {:induction false} WeightOfSum(a: seq<El>, b: seq<El>)
    ensures WeightAll(a + b) == WeightAll(a) + WeightAll(b)
  {
    if a == [] {
      assert a + b == b;
    } else {
      assert (a + b)[1..] == a[1..] + b;
      WeightOfSum(a[1..], b);
    }
  }

  lemma {:induction false} WeightOfLeaves(keys: seq<Key>)
    ensures WeightAll(Leaves(keys)) <= 3 * |keys|
  {
    if keys != [] {
      assert Leaves(keys)[1..] == Leaves(keys[1..]);
      WeightOfLeaves(keys[1..]);
    }
  }

  lemma ChildrenAreLighter(el: El)
    ensures WeightAll(Children(el)) <= Weight(el)
  {
    match el
    case Join(l, r, on, _) =>
      WeightOfSum([l, r], on);
      assert [l, r][1..] == [r];
    case Target(i, on, _) => WeightOfSum([i], on);
    case InQuery(p, q) =>
      assert [p, q] == [p] + [q];
      WeightOfSum([p], [q]);
    case Select(_, _, columns, froms, joins, criteria, _) =>
      var keys := FromKeysOf(columns) + FromKeysOf(criteria);
      WeightOfSum(columns + froms + joins + criteria, Leaves(keys));
      WeightOfSum(columns + froms + joins, criteria);
      WeightOfSum(columns + froms, joins);
      WeightOfSum(columns, froms);
      WeightOfLeaves(keys);
    case _ =>
  }

  // A nested SELECT that asks for deleted rows is not looked into.
  predicate OptsOut(el: El) { el.Select? && el.includeDeleted }

  // Reference walk: what lies below `els`, opted-out SELECTs pruned.
  ghost function Reached(els: seq<El>): multiset<El>
    decreases WeightAll(els)
  {
    if els == [] then multiset{}
    else
      ChildrenAreLighter(els[0]);
      (if OptsOut(els[0]) then multiset{} else multiset{els[0]} + Reached(Children(els[0]))) + Reached(els[1..])
  }

  // The same for a whole statement, which is looked into whatever it asks for.
  ghost function ReachedFrom(statement: El): multiset<El> {
    multiset{statement} + Reached(Children(statement))
  }

  lemma {:induction false} ReachedSum(a: seq<El>, b: seq<El>)
    ensures Reached(a + b) == Reached(a) + Reached(b)
    decreases |a|
  {
    if a == [] {
      assert a + b == b;
    } else {
      assert (a + b)[1..] == a[1..] + b;
      ReachedSum(a[1..], b);
    }
  }

  // The mapped class an element is annotated with, named by its table.
  function ClassOf(el: El): Option<string> {
    match el
    case Leaf(k, e) => if e && !k.DerivedKey? then Some(k.table) else None
    case Column(k, _, e) => if e && !k.DerivedKey? then Some(k.table) else None
    case _ => None
  }

  predicate IsTable(el: El) { el.Leaf? && el.key.TableKey? }

  // What an order of visits leaves in the walk's three results.
  ghost function ClassesIn(met: seq<El>): set<string> {
    if met == [] then {}
    else
      var el := met[|met| - 1];
      ClassesIn(met[..|met| - 1]) + (if ClassOf(el).Some? then {ClassOf(el).value} else {})
  }

  ghost function TablesIn(met: seq<El>): set<string> {
    if met == [] then {}
    else
      var el := met[|met| - 1];
      TablesIn(met[..|met| - 1]) + (if IsTable(el) then {el.key.table} else {})
  }

  ghost function SelectsIn(met: seq<El>): seq<El> {
    if met == [] then []
    else
      var el := met[|met| - 1];
      SelectsIn(met[..|met| - 1]) + (if el.Select? then [el] else [])
  }

  // What is still on the stack completes what was met.
  ghost predicate WalkInvariant(statement: El, all: multiset<El>, size: nat, stack: seq<El>, met: seq<El>) {
    || (stack == [statement] && met == [])
    || (Completes(all, stack, met) && WeightAll(stack) <= size)
  }

  lemma PopWeight(rest: seq<El>, el: El)
    ensures WeightAll(rest + [el]) == WeightAll(rest) + 1 + Weight(el)
    ensures WeightAll(rest + Children(el)) <= WeightAll(rest) + Weight(el)
  {
    WeightOfSum(rest, [el]);
    WeightOfSum(rest, Children(el));
    ChildrenAreLighter(el);
    assert [el][1..] == [];
  }

  lemma PopReached(rest: seq<El>, el: El)
    ensures OptsOut(el) ==> Reached(rest + [el]) == Reached(rest)
    ensures !OptsOut(el) ==> Reached(rest + [el]) == Reached(rest + Children(el)) + multiset{el}
  {
    ReachedSum(rest, [el]);
    ReachedSum(rest, Children(el));
    assert [el][1..] == [];
  }

  ghost predicate Completes(all: multiset<El>, stack: seq<El>, met: seq<El>) {
    multiset(met) + Reached(stack) == all
  }

  lemma PopFirst(statement: El)
    ensures Completes(ReachedFrom(statement), Children(statement), [statement])
  {
  }

  lemma MeetMore(met: seq<El>, el: El)
    ensures multiset(met + [el]) == multiset(met) + multiset{el}
  {
  }

  lemma PopLater(all: multiset<El>, rest: seq<El>, el: El, met: seq<El>)
    requires Completes(all, rest + [el], met)
    ensures if OptsOut(el) then Completes(all, rest, met) else Completes(all, rest + Children(el), met + [el])
  {
    PopReached(rest, el);
    MeetMore(met, el);
  }

  lemma PopOne(statement: El, all: multiset<El>, size: nat, rest: seq<El>, el: El, met: seq<El>)
    requires all == ReachedFrom(statement) && size == Weight(statement)
    requires WalkInvariant(statement, all, size, rest + [el], met)
    ensures WeightAll(rest) < WeightAll(rest + [el])
    ensures WeightAll(rest + Children(el)) < WeightAll(rest + [el])
    ensures if el != statement && OptsOut(el) then WalkInvariant(statement, all, size, rest, met)
            else WalkInvariant(statement, all, size, rest + Children(el), met + [el])
  {
    PopWeight(rest, el);
    if rest + [el] == [statement] && met == [] {
      SumSlices(rest, [el]);
      assert rest == [] && el == statement;
      ChildrenAreLighter(el);
      SumOfEmpty(Children(el));
      SumOfEmpty([el]);
      PopFirst(statement);
    } else {
      PopLater(all, rest, el, met);
    }
  }

  lemma MeetOne(met: seq<El>, el: El)
    ensures ClassesIn(met + [el]) == ClassesIn(met) + (if ClassOf(el).Some? then {ClassOf(el).value} else {})
    ensures TablesIn(met + [el]) == TablesIn(met) + (if IsTable(el) then {el.key.table} else {})
    ensures SelectsIn(met + [el]) == SelectsIn(met) + (if el.Select? then [el] else [])
  {
    assert (met + [el])[..|met|] == met;
  }

  datatype Found = Found(classes: set<string>, tables: set<string>, selects: seq<El>)

  ghost function FoundIn(met: seq<El>): Found {
    Found(ClassesIn(met), TablesIn(met), SelectsIn(met))
  }

  // What the loop does with an element it does not prune.
  method Note(el: El, before: Found, ghost met: seq<El>) returns (found: Found)
    requires before == FoundIn(met)
    ensures found == FoundIn(met + [el])
  {
    MeetOne(met, el);
    found := before;
    if el.Select? {
      found := found.(selects := found.selects + [el]);
    } else if IsTable(el) {
      found := found.(tables := found.tables + {el.key.table});
    }
    if ClassOf(el).Some? {
      found := found.(classes := found.classes + {ClassOf(el).value});
    }
  }

  // What some walk found that met exactly what the reference walk reaches, as often.
  ghost predicate FoundByWalk(statement: El, found: Found) {
    exists met: seq<El> :: multiset(met) == ReachedFrom(statement) && found == FoundIn(met)
  }

  // `_walk_statement`.
  method WalkStatement(statement: El) returns (found: Found)
    ensures FoundByWalk(statement, found)
  {
    found := Found({}, {}, []);
    ghost var met: seq<El> := [];
    var stack := [statement];
    ghost var all, size := ReachedFrom(statement), Weight(statement);
    while stack != []
      invariant WalkInvariant(statement, all, size, stack, met)
      invariant found == FoundIn(met)
      decreases WeightAll(stack)
    {
      var el, rest := stack[|stack| - 1], stack[..|stack| - 1];
      SplitLast(stack);
      PopOne(statement, all, size, rest, el, met);
      stack := rest;
      if el.Select? && el != statement && el.includeDeleted {
        continue;
      }
      found := Note(el, found, met);
      met := met + [el];
      stack := stack + Children(el);
    }
    assert multiset(met) == ReachedFrom(statement);
  }

  // ---------- FROMs that nothing else filters ----------

  predicate IsSoft(k: Key, tables: set<string>) { !k.DerivedKey? && k.table in tables }

  // Entities a SELECT names: the ORM adds its own criterion for each.
  function CoveredByColumns(columns: seq<El>): set<Key> {
    set i | 0 <= i < |columns| && columns[i].Output? && columns[i].subject.Some?
            && columns[i].subject.value in FromKeys(columns[i]) :: columns[i].subject.value
  }

  function CoveredByFroms(froms: seq<El>): set<Key> {
    set i | 0 <= i < |froms| && froms[i].Leaf? && froms[i].entity :: froms[i].key
  }

  function Covered(q: El): set<Key>
    requires q.Select?
  {
    CoveredByColumns(q.columns) + CoveredByFroms(q.froms)
  }

  // Everything that stands inside a join.
  function JoinedFroms(froms: seq<El>): set<Key> {
    if froms == [] then {}
    else (if froms[0].Join? then KeysOf(froms[0]) else {}) + JoinedFroms(froms[1..])
  }

  function Joined(q: El): set<Key>
    requires q.Select?
  {
    JoinedFroms(q.froms) + KeysOfAll(q.joins)
  }

  function PlainFroms(froms: seq<El>): seq<Key> {
    if froms == [] then []
    else (if froms[0].Leaf? then [froms[0].key] else []) + PlainFroms(froms[1..])
  }

  function Candidates(q: El): seq<Key>
    requires q.Select?
  {
    FromKeysOf(q.columns) + FromKeysOf(q.criteria) + PlainFroms(q.froms)
  }

  // The first occurrence of every soft key outside `skip`.
  function SoftOnce(keys: seq<Key>, skip: set<Key>, tables: set<string>): seq<Key> {
    if keys == [] then []
    else if keys[0] in skip || !IsSoft(keys[0], tables) then SoftOnce(keys[1..], skip, tables)
    else [keys[0]] + SoftOnce(keys[1..], skip + {keys[0]}, tables)
  }

  function ImplicitKeys(q: El, tables: set<string>): seq<Key>
    requires q.Select?
  {
    SoftOnce(Candidates(q), Covered(q) + Joined(q), tables)
  }

  // Exactly the soft keys that are not skipped, each of them once.
  lemma {:induction false} SoftOnceMeaning(keys: seq<Key>, skip: set<Key>, tables: set<string>)
    ensures forall k :: k in SoftOnce(keys, skip, tables) <==> k in keys && k !in skip && IsSoft(k, tables)
    ensures forall i, j | 0 <= i < j < |SoftOnce(keys, skip, tables)| ::
              SoftOnce(keys, skip, tables)[i] != SoftOnce(keys, skip, tables)[j]
  {
    if keys != [] {
      assert keys == [keys[0]] + keys[1..];
      if keys[0] in skip || !IsSoft(keys[0], tables) {
        SoftOnceMeaning(keys[1..], skip, tables);
      } else {
        SoftOnceMeaning(keys[1..], skip + {keys[0]}, tables);
      }
    }
  }

  lemma {:induction false} SoftOnceSnoc(keys: seq<Key>, k: Key, skip: set<Key>, tables: set<string>)
    ensures var before := SoftOnce(keys, skip, tables);
            SoftOnce(keys + [k], skip, tables) ==
            if k in skip || k in before || !IsSoft(k, tables) then before else before + [k]
  {
    if keys == [] {
      assert keys + [k] == [k] && [k][1..] == [];
    } else {
      assert (keys + [k])[1..] == keys[1..] + [k];
      SoftOnceSnoc(keys[1..], k,
                   if keys[0] in skip || !IsSoft(keys[0], tables) then skip else skip + {keys[0]}, tables);
    }
  }

  // `_implicit_soft_delete_froms`.
  method ImplicitSoftDeleteFroms(q: El, tables: set<string>) returns (out: seq<Key>)
    requires q.Select?
    ensures out == ImplicitKeys(q, tables)
  {
    var covered: set<Key>, joined: set<Key> := {}, {};
    for i := 0 to |q.columns|
      invariant covered == CoveredByColumns(q.columns[..i])
    {
      var column := q.columns[i];
      TakeMore(q.columns, i);
      if column.Output? && column.subject.Some? && column.subject.value in FromKeys(column) {
        covered := covered + {column.subject.value};
      }
      CoveredSnoc(q.columns[..i], column);
    }
    TakeAll(q.columns);
    ghost var byColumns := covered;
    for i := 0 to |q.froms|
      invariant covered == byColumns + CoveredByFroms(q.froms[..i])
      invariant joined + JoinedFroms(q.froms[i..]) == JoinedFroms(q.froms)
    {
      var from := q.froms[i];
      CoveredFromSnoc(q.froms[..i], from);
      TakeMore(q.froms, i);
      if from.Join? {
        joined := joined + KeysOf(from);
      } else if from.Leaf? && from.entity {
        covered := covered + {from.key};
      }
    }
    TakeAll(q.froms);
    joined := joined + KeysOfAll(q.joins);

    out := [];
    var seen: set<Key> := {};
    var candidates := Candidates(q);
    for i := 0 to |candidates|
      invariant out == SoftOnce(candidates[..i], covered + joined, tables)
      invariant forall k :: k in seen <==> k in out
    {
      var key := candidates[i];
      TakeMore(candidates, i);
      SoftOnceSnoc(candidates[..i], key, covered + joined, tables);
      if !(key in seen || key in covered || key in joined || !IsSoft(key, tables)) {
        seen := seen + {key};
        out := out + [key];
      }
    }
    TakeAll(candidates);
  }

  lemma CoveredSnoc(columns: seq<El>, column: El)
    ensures CoveredByColumns(columns + [column]) == CoveredByColumns(columns) +
              (if column.Output? && column.subject.Some? && column.subject.value in FromKeys(column)
               then {column.subject.value} else {})
  {
    var more := columns + [column];
    assert more[|columns|] == column;
    assert forall i | 0 <= i < |columns| :: more[i] == columns[i];
  }

  lemma CoveredFromSnoc(froms: seq<El>, from: El)
    ensures CoveredByFroms(froms + [from]) ==
            CoveredByFroms(froms) + (if from.Leaf? && from.entity then {from.key} else {})
  {
    var more := froms + [from];
    assert more[|froms|] == from;
    assert forall i | 0 <= i < |froms| :: more[i] == froms[i];
  }
}
