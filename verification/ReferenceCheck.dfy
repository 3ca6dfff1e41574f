// What `exists_including_deleted` (backend/app/db.py) answers: whether any rows, trashed
// or not, meet its criteria.
module ReferenceCheck {
  import opened Options
  import opened Query
  import opened Sequences
  import opened SoftDelete
  import opened SoftDeleteMeaning
  import opened SoftDeleteFilter
  import opened QueryMeaning

  // ---------- The answer ----------

  // The tables that criteria bring in, beyond those the enclosing SELECT shows.
  ghost function BroughtIn(criteria: seq<El>, shown: set<Key>): set<Key> {
    set k | k in FromKeysOf(criteria) && k !in shown && !k.DerivedKey?
  }

  // Some rows of those tables, trashed or not, meet all criteria.
  ghost predicate SomeRowsMeet(criteria: seq<El>, env: Env, shown: set<Key>, db: Database) {
    exists chosen :: Chooses(env, chosen, BroughtIn(criteria, shown), db) &&
                     Holds(criteria, chosen, BroughtIn(criteria, shown), Everything(db))
  }

  lemma CheckKeys(q: El, id: nat, criteria: seq<El>, shown: set<Key>)
    requires Exists(q) == ExistsIncludingDeleted(id, criteria)
    ensures InferredKeys(q, shown) == Distinct(FromKeysOf(criteria), shown)
    ensures DisplayKeys(q, shown) == BroughtIn(criteria, shown)
  {
    assert q.columns[1..] == [] && FromKeys(q.columns[0]) == [];
    SumOfEmpty(FromKeysOf(criteria));
    assert KeysOfAll(q.froms) + KeysOfAll(q.joins) + shown == shown;
    DistinctKeys(FromKeysOf(criteria), shown);
  }

  lemma CheckRows(q: El, id: nat, criteria: seq<El>, env: Env, shown: set<Key>, c: Context)
    requires Exists(q) == ExistsIncludingDeleted(id, criteria)
    ensures var all, inner := c.(db := c.full), BroughtIn(criteria, shown);
            Rows(q, env, shown, c) != [] <==>
              Keep(criteria, ScanAll(Distinct(FromKeysOf(criteria), shown), [env], c.full), inner, all) != []
  {
    var all := c.(db := c.full);
    CheckKeys(q, id, criteria, shown);
    assert Product(q.froms, [env], shown, DisplayKeys(q, shown), all) == [env];
    var roots := ScanAll(InferredKeys(q, shown), [env], c.full);
    assert JoinAll(q.joins, roots, DisplayKeys(q, shown), all) == roots;
    ProjectLength(q.columns, Keep(q.criteria, roots, DisplayKeys(q, shown), all), DisplayKeys(q, shown), all);
  }

  // The check is true when some rows meet its criteria, trashed ones included, and false
  // otherwise; no trashed row is hidden from it.
  lemma ReferenceCheckMeaning(id: nat, criteria: seq<El>, env: Env, shown: set<Key>, db: Database, soft: set<string>)
    ensures Eval(ExistsIncludingDeleted(id, criteria), env, shown, WithoutTrash(db, soft)) ==
            Bool(SomeRowsMeet(criteria, env, shown, db))
  {
    var check := ExistsIncludingDeleted(id, criteria);
    var keys, inner := Distinct(FromKeysOf(criteria), shown), BroughtIn(criteria, shown);
    var roots := ScanAll(keys, [env], db);
    CheckRows(check.query, id, criteria, env, shown, WithoutTrash(db, soft));
    DistinctKeys(FromKeysOf(criteria), shown);
    SomeKept(criteria, roots, inner, Everything(db));
    assert Elements(keys) == inner;
    forall e
      ensures e in roots <==> Chooses(env, e, inner, db)
    {
      InScanAll(keys, [env], db, e);
    }
  }

  // ---------- Is anything still pointing at this row? ----------

  // `child.field == parent.id`.
  function PointsAt(child: string, field: string, parent: Key): El {
    Op(Eq, [Column(TableKey(child), field, true), Column(parent, "id", true)])
  }

  // Asked at a row of `parent`: whether some row of `child` holds its id, be it trashed.
  lemma StillReferenced(id: nat, child: string, field: string, parent: Key, env: Env, shown: set<Key>, db: Database,
                        soft: set<string>)
    requires parent in shown && !parent.DerivedKey? && TableKey(child) !in shown && parent in env
    requires child in db && Field(env, parent, "id") != Null
    ensures Eval(ExistsIncludingDeleted(id, [PointsAt(child, field, parent)]), env, shown, WithoutTrash(db, soft)) ==
            Bool(exists row | row in db[child] :: field in row && row[field] == env[parent]["id"])
  {
    var criteria := [PointsAt(child, field, parent)];
    ReferenceCheckMeaning(id, criteria, env, shown, db, soft);
    PointingKeys(child, field, parent, shown);
    if SomeRowsMeet(criteria, env, shown, db) {
      var chosen :| Chooses(env, chosen, {TableKey(child)}, db) &&
                    Holds(criteria, chosen, {TableKey(child)}, Everything(db));
      PointsWhen(child, field, parent, chosen, {TableKey(child)}, Everything(db));
      assert chosen[TableKey(child)] in db[child];
    }
    if row :| row in db[child] && field in row && row[field] == env[parent]["id"] {
      var chosen := env[TableKey(child) := row];
      PointsWhen(child, field, parent, chosen, {TableKey(child)}, Everything(db));
      assert Chooses(env, chosen, {TableKey(child)}, db);
    }
  }

  lemma PointingKeys(child: string, field: string, parent: Key, shown: set<Key>)
    requires parent in shown && TableKey(child) !in shown
    ensures BroughtIn([PointsAt(child, field, parent)], shown) == {TableKey(child)}
  {
    var test := PointsAt(child, field, parent);
    KeysOfOne(test);
    KeysOfTwo(test.args[0], test.args[1]);
  }

  lemma KeysOfOne(el: El)
    ensures FromKeysOf([el]) == FromKeys(el)
  {
    assert [el][1..] == [];
    SumOfEmpty(FromKeys(el));
  }

  lemma KeysOfTwo(a: El, b: El)
    ensures FromKeysOf([a, b]) == FromKeys(a) + FromKeys(b)
  {
    assert [a, b][1..] == [b];
    KeysOfOne(b);
  }

  lemma PointsWhen(child: string, field: string, parent: Key, env: Env, shown: set<Key>, c: Context)
    ensures Holds([PointsAt(child, field, parent)], env, shown, c) <==>
              Field(env, TableKey(child), field) == Field(env, parent, "id") != Null
  {
    var test := PointsAt(child, field, parent);
    assert EvalAll(test.args, env, shown, c) ==
           [Eval(test.args[0], env, shown, c), Eval(test.args[1], env, shown, c)];
    assert [test][0] == test;
  }
}
