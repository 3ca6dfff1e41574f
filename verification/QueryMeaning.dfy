// What a SELECT returns, told without its evaluator: the rows of the choices of one row
// a table that meet its criteria.
module QueryMeaning {
  import opened Query
  import opened Sequences

  // ---------- Choices of rows ----------

  // `chosen` is `env` with a row of `db` for each of `keys`.
  ghost predicate Chooses(env: Env, chosen: Env, keys: set<Key>, db: Database) {
    && chosen.Keys == env.Keys + keys
    && (forall k | k in keys :: chosen[k] in Table(k, db))
    && (forall k | k in env.Keys - keys :: chosen[k] == env[k])
  }

  lemma {:induction false} InBindAll(k: Key, rows: seq<Row>, env: Env, e: Env)
    ensures e in BindAll(k, rows, env) <==> exists row | row in rows :: e == env[k := row]
  {
    if rows != [] {
      InBindAll(k, rows[1..], env, e);
      FirstOrRest(rows);
      InSumOf([env[k := rows[0]]], BindAll(k, rows[1..], env), e);
      assert rows[0] in rows;
      if row :| row in rows[1..] && e == env[k := row] {
        assert row in rows;
      }
    }
  }

  lemma {:induction false} InScanEach(k: Key, envs: seq<Env>, db: Database, e: Env)
    ensures e in ScanEach(k, envs, db) <==>
              exists base, row | base in envs && row in Table(k, db) :: e == base[k := row]
  {
    if envs != [] {
      InScanEach(k, envs[1..], db, e);
      InBindAll(k, Table(k, db), envs[0], e);
      FirstOrRest(envs);
      InSumOf(BindAll(k, Table(k, db), envs[0]), ScanEach(k, envs[1..], db), e);
      assert envs[0] in envs;
      if base, row :| base in envs[1..] && row in Table(k, db) && e == base[k := row] {
        assert base in envs;
      }
    }
  }

  // One more table: a choice for the rest, from an environment with a row of that one.
  lemma ChooseFirst(env: Env, chosen: Env, k: Key, keys: set<Key>, db: Database)
    requires k !in keys
    ensures Chooses(env, chosen, {k} + keys, db) <==>
              exists row | row in Table(k, db) :: Chooses(env[k := row], chosen, keys, db)
  {
    if Chooses(env, chosen, {k} + keys, db) {
      assert Chooses(env[k := chosen[k]], chosen, keys, db);
    }
    if row :| row in Table(k, db) && Chooses(env[k := row], chosen, keys, db) {
      assert chosen[k] == row;
    }
  }

  lemma {:induction false} InScanAll(keys: seq<Key>, envs: seq<Env>, db: Database, e: Env)
    requires NoRepeats(keys)
    ensures e in ScanAll(keys, envs, db) <==> exists base | base in envs :: Chooses(base, e, Elements(keys), db)
    decreases |keys|
  {
    if keys == [] {
      forall base | base in envs
        ensures Chooses(base, e, {}, db) <==> base == e
      {
      }
    } else {
      var k, rest := keys[0], keys[1..];
      var others := Elements(rest);
      InScanAll(rest, ScanEach(k, envs, db), db, e);
      FirstOrRest(keys);
      assert Elements(keys) == {k} + others;
      FirstThenRest(k, others, envs, db, e);
    }
  }

  lemma FirstThenRest(k: Key, others: set<Key>, envs: seq<Env>, db: Database, e: Env)
    requires k !in others
    ensures (exists mid | mid in ScanEach(k, envs, db) :: Chooses(mid, e, others, db)) <==>
              exists base | base in envs :: Chooses(base, e, {k} + others, db)
  {
    if mid :| mid in ScanEach(k, envs, db) && Chooses(mid, e, others, db) {
      InScanEach(k, envs, db, mid);
      var base, row :| base in envs && row in Table(k, db) && mid == base[k := row];
      ChooseFirst(base, e, k, others, db);
      assert Chooses(base, e, {k} + others, db);
    }
    if base :| base in envs && Chooses(base, e, {k} + others, db) {
      ChooseFirst(base, e, k, others, db);
      var row :| row in Table(k, db) && Chooses(base[k := row], e, others, db);
      InScanEach(k, envs, db, base[k := row]);
    }
  }

  lemma {:induction false} SomeKept(criteria: seq<El>, envs: seq<Env>, shown: set<Key>, c: Context)
    ensures Keep(criteria, envs, shown, c) != [] <==> exists e | e in envs :: Holds(criteria, e, shown, c)
    decreases |envs|
  {
    if envs != [] {
      SomeKept(criteria, envs[1..], shown, c);
      FirstOrRest(envs);
      if e :| e in envs[1..] && Holds(criteria, e, shown, c) {
        assert e in envs;
      }
    }
  }

  lemma {:induction false} DistinctKeys(keys: seq<Key>, skip: set<Key>)
    ensures NoRepeats(Distinct(keys, skip))
    ensures forall k :: k in Distinct(keys, skip) <==> k in keys && k !in skip && !k.DerivedKey?
  {
    if keys != [] {
      FirstOrRest(keys);
      if keys[0] in skip || keys[0].DerivedKey? {
        DistinctKeys(keys[1..], skip);
      } else {
        var rest := Distinct(keys[1..], skip + {keys[0]});
        DistinctKeys(keys[1..], skip + {keys[0]});
        assert keys[0] !in rest;
      }
    }
  }

  lemma {:induction false} ProjectLength(columns: seq<El>, envs: seq<Env>, shown: set<Key>, c: Context)
    ensures |Project(columns, envs, shown, c)| == |envs|
    decreases |envs|
  {
    if envs != [] {
      ProjectLength(columns, envs[1..], shown, c);
    }
  }

  // ---------- A SELECT from tables ----------

  lemma {:induction false} InKeep(criteria: seq<El>, envs: seq<Env>, shown: set<Key>, c: Context, e: Env)
    ensures e in Keep(criteria, envs, shown, c) <==> e in envs && Holds(criteria, e, shown, c)
    decreases |envs|
  {
    if envs != [] {
      InKeep(criteria, envs[1..], shown, c, e);
      FirstOrRest(envs);
      InSumOf(if Holds(criteria, envs[0], shown, c) then [envs[0]] else [], Keep(criteria, envs[1..], shown, c), e);
    }
  }

  lemma {:induction false} InProject(columns: seq<El>, envs: seq<Env>, shown: set<Key>, c: Context, v: seq<Value>)
    ensures v in Project(columns, envs, shown, c) <==> exists e | e in envs :: v == EvalAll(columns, e, shown, c)
    decreases |envs|
  {
    if envs != [] {
      InProject(columns, envs[1..], shown, c, v);
      FirstOrRest(envs);
      InSumOf([EvalAll(columns, envs[0], shown, c)], Project(columns, envs[1..], shown, c), v);
      assert envs[0] in envs;
      if e :| e in envs[1..] && v == EvalAll(columns, e, shown, c) {
        assert e in envs;
      }
    }
  }

  // A FROM list of tables that the enclosing SELECT does not show.
  ghost predicate FromTables(froms: seq<El>, keys: seq<Key>, outer: set<Key>) {
    && |froms| == |keys| && NoRepeats(keys)
    && forall i | 0 <= i < |froms| :: froms[i].Leaf? && froms[i].key == keys[i] && keys[i] !in outer
  }

  lemma {:induction false} CrossIsScan(item: El, envs: seq<Env>, shown: set<Key>, c: Context)
    requires item.Leaf?
    ensures CrossEach(item, envs, shown, c) == ScanEach(item.key, envs, c.db)
    decreases |envs|
  {
    if envs != [] {
      CrossIsScan(item, envs[1..], shown, c);
    }
  }

  lemma {:induction false} ProductIsScan(froms: seq<El>, keys: seq<Key>, envs: seq<Env>, outer: set<Key>,
                                         shown: set<Key>, c: Context)
    requires FromTables(froms, keys, outer)
    ensures Product(froms, envs, outer, shown, c) == ScanAll(keys, envs, c.db)
    ensures KeysOfAll(froms) == Elements(keys) && ShownKeys(froms, outer) == Elements(keys)
    decreases |froms|
  {
    if froms != [] {
      CrossIsScan(froms[0], envs, shown, c);
      ProductIsScan(froms[1..], keys[1..], ScanEach(keys[0], envs, c.db), outer, shown, c);
      FirstOrRest(keys);
    }
  }

  lemma {:induction false} ScanAllSum(a: seq<Key>, b: seq<Key>, envs: seq<Env>, db: Database)
    ensures ScanAll(a + b, envs, db) == ScanAll(b, ScanAll(a, envs, db), db)
    decreases |a|
  {
    if a == [] {
      SumOfEmpty(b);
    } else {
      TailOfSum(a, b);
      ScanAllSum(a[1..], b, ScanEach(a[0], envs, db), db);
    }
  }

  // The tables a SELECT reads: its FROM list and what its columns and criteria bring in.
  ghost function TablesOf(q: El, keys: seq<Key>, outer: set<Key>): set<Key>
    requires q.Select?
  {
    Elements(keys) + set k | k in FromKeysOf(q.columns) + FromKeysOf(q.criteria) && k !in outer && !k.DerivedKey?
  }

  // What a SELECT reads its tables from.
  ghost function Reading(q: El, c: Context): Context
    requires q.Select?
  {
    if q.includeDeleted then c.(db := c.full) else c
  }

  lemma RootsAre(q: El, keys: seq<Key>, env: Env, outer: set<Key>, d: Context, e: Env)
    requires q.Select? && FromTables(q.froms, keys, outer) && q.joins == []
    ensures DisplayKeys(q, outer) == TablesOf(q, keys, outer)
    ensures e in ScanAll(InferredKeys(q, outer), Product(q.froms, [env], outer, DisplayKeys(q, outer), d), d.db) <==>
              Chooses(env, e, TablesOf(q, keys, outer), d.db)
  {
    var inferred := InferredKeys(q, outer);
    ProductIsScan(q.froms, keys, [env], outer, DisplayKeys(q, outer), d);
    DistinctKeys(FromKeysOf(q.columns) + FromKeysOf(q.criteria), KeysOfAll(q.froms) + KeysOfAll(q.joins) + outer);
    ScanAllSum(keys, inferred, [env], d.db);
    assert NoRepeats(keys + inferred) by {
      forall i, j | 0 <= i < j < |keys + inferred|
        ensures (keys + inferred)[i] != (keys + inferred)[j]
      {
        assert i < |keys| ==> keys[i] in keys;
        assert j >= |keys| ==> inferred[j - |keys|] in inferred;
      }
    }
    InScanAll(keys + inferred, [env], d.db, e);
    AllElements(keys, inferred, q, outer);
    assert [env][0] == env;
  }

  lemma AllElements(keys: seq<Key>, inferred: seq<Key>, q: El, outer: set<Key>)
    requires q.Select?
    requires forall k :: k in inferred <==> k in FromKeysOf(q.columns) + FromKeysOf(q.criteria) &&
                                            k !in Elements(keys) + outer && !k.DerivedKey?
    requires forall k | k in keys :: k !in outer
    ensures Elements(keys + inferred) == TablesOf(q, keys, outer)
    ensures Elements(keys) + (set k | k in inferred) == TablesOf(q, keys, outer)
  {
  }

  // A row comes out exactly when some choice of one row a table meets all criteria and
  // gives it.
  lemma SelectMeaning(q: El, keys: seq<Key>, env: Env, outer: set<Key>, c: Context, v: seq<Value>)
    requires q.Select? && FromTables(q.froms, keys, outer) && q.joins == [] && !q.counted
    ensures v in Rows(q, env, outer, c) <==>
              exists chosen :: Yields(q, keys, env, outer, Reading(q, c), chosen, v)
  {
    var d, shown := Reading(q, c), DisplayKeys(q, outer);
    var roots := ScanAll(InferredKeys(q, outer), Product(q.froms, [env], outer, shown, d), d.db);
    var kept := Keep(q.criteria, roots, shown, d);
    assert JoinAll(q.joins, roots, shown, d) == roots;
    assert Rows(q, env, outer, c) == Project(q.columns, kept, shown, d);
    InProject(q.columns, kept, shown, d, v);
    forall e
      ensures e in kept && v == EvalAll(q.columns, e, shown, d) <==> Yields(q, keys, env, outer, d, e, v)
    {
      InKeep(q.criteria, roots, shown, d, e);
      RootsAre(q, keys, env, outer, d, e);
    }
  }

  ghost predicate Yields(q: El, keys: seq<Key>, env: Env, outer: set<Key>, d: Context, chosen: Env, v: seq<Value>)
    requires q.Select?
  {
    var tables := TablesOf(q, keys, outer);
    && Chooses(env, chosen, tables, d.db) && Holds(q.criteria, chosen, tables, d)
    && v == EvalAll(q.columns, chosen, tables, d)
  }

  // ---------- A join with a table ----------

  // A row joined to `base`.
  ghost predicate Joins(j: El, k: Key, base: Env, e: Env, shown: set<Key>, c: Context)
    requires j.Join? || j.Target?
  {
    exists row | row in Table(k, c.db) :: e == base[k := row] && Holds(j.on, e, shown, c)
  }

  lemma NullExtendOne(base: Env, k: Key)
    ensures NullExtend(base, {k}) == base[k := map[]]
  {
  }

  // Every row that meets the ON clause; an outer join gives NULLs where there is none.
  lemma JoinMeaning(j: El, k: Key, base: Env, e: Env, shown: set<Key>, c: Context)
    requires (j.Join? || j.Target?) && Attached(j).Leaf? && Attached(j).key == k
    ensures e in Matches(j, base, shown, c) <==>
              Joins(j, k, base, e, shown, c) ||
              (j.isOuter && e == base[k := map[]] && forall x :: !Joins(j, k, base, x, shown, c))
  {
    var found := Keep(j.on, FromEnvs(Attached(j), base, shown, c), shown, c);
    forall x
      ensures x in found <==> Joins(j, k, base, x, shown, c)
    {
      InKeep(j.on, FromEnvs(Attached(j), base, shown, c), shown, c, x);
      InBindAll(k, Table(k, c.db), base, x);
    }
    NullExtendOne(base, k);
    if found != [] {
      assert found[0] in found;
    }
  }
}
