// What the filter means: the guarded statement, read over every row there is,
// returns what the statement itself returns when trashed rows do not exist.
module SoftDeleteMeaning {
  import opened Query
  import opened Sequences
  import opened SoftDelete
  import opened SoftDeleteRewrite

  // ---------- Live rows ----------

  predicate IsLive(row: Row) { DELETED_AT in row ==> row[DELETED_AT].Null? }

  function LiveRows(rows: seq<Row>): seq<Row> {
    if rows == [] then [] else (if IsLive(rows[0]) then [rows[0]] else []) + LiveRows(rows[1..])
  }

  // The database without its trash.
  function Live(db: Database, soft: set<string>): Database {
    map t | t in db :: if t in soft then LiveRows(db[t]) else db[t]
  }

  function Everything(db: Database): Context { Context(db, db) }

  // Ordinary SELECTs see live rows; one that asks for deleted rows sees them all.
  function WithoutTrash(db: Database, soft: set<string>): Context { Context(Live(db, soft), db) }

  // ---------- Environments that hold a trashed row ----------

  ghost function Unclean(env: Env, soft: set<string>): set<Key> {
    set k | k in env && IsSoft(k, soft) && !IsLive(env[k])
  }

  ghost function KeepClean(envs: seq<Env>, soft: set<string>): seq<Env> {
    if envs == [] then []
    else (if Unclean(envs[0], soft) == {} then [envs[0]] else []) + KeepClean(envs[1..], soft)
  }

  lemma {:induction false} KeepCleanSum(a: seq<Env>, b: seq<Env>, soft: set<string>)
    ensures KeepClean(a + b, soft) == KeepClean(a, soft) + KeepClean(b, soft)
  {
    if a == [] {
      SumOfEmpty(b);
      SumOfEmpty(KeepClean(b, soft));
    } else {
      TailOfSum(a, b);
      KeepCleanSum(a[1..], b, soft);
      SumAssoc(if Unclean(a[0], soft) == {} then [a[0]] else [], KeepClean(a[1..], soft), KeepClean(b, soft));
    }
  }

  // Trash in `envs` is confined to `keys`.
  ghost predicate Within(envs: seq<Env>, keys: set<Key>, soft: set<string>) {
    forall i | 0 <= i < |envs| :: Unclean(envs[i], soft) <= keys
  }

  lemma {:induction false} KeepCleanNone(envs: seq<Env>, soft: set<string>)
    requires forall i | 0 <= i < |envs| :: Unclean(envs[i], soft) != {}
    ensures KeepClean(envs, soft) == []
  {
    if envs != [] {
      KeepCleanNone(envs[1..], soft);
    }
  }

  lemma {:induction false} KeepCleanAll(envs: seq<Env>, soft: set<string>)
    requires Within(envs, {}, soft)
    ensures KeepClean(envs, soft) == envs
  {
    if envs != [] {
      KeepCleanAll(envs[1..], soft);
      SplitFirst(envs);
    }
  }

  // ---------- Binding one key ----------

  lemma UncleanBinding(env: Env, k: Key, row: Row, soft: set<string>)
    ensures Unclean(env[k := row], soft) ==
            (Unclean(env, soft) - {k}) + (if IsSoft(k, soft) && !IsLive(row) then {k} else {})
  {
  }

  lemma UncleanNulls(env: Env, keys: set<Key>, soft: set<string>)
    ensures Unclean(NullExtend(env, keys), soft) == Unclean(env, soft) - keys
  {
  }

  lemma {:induction false} BindWithin(k: Key, rows: seq<Row>, env: Env, soft: set<string>, i: nat)
    requires i < |BindAll(k, rows, env)|
    ensures Unclean(env, soft) - {k} <= Unclean(BindAll(k, rows, env)[i], soft) <= Unclean(env, soft) + {k}
    ensures !IsSoft(k, soft) ==> Unclean(BindAll(k, rows, env)[i], soft) == Unclean(env, soft) - {k}
  {
    UncleanBinding(env, k, rows[0], soft);
    if i > 0 {
      BindWithin(k, rows[1..], env, soft, i - 1);
    }
  }

  // Binding every row and dropping the trash is binding the live rows.
  lemma {:induction false} BindSame(k: Key, rows: seq<Row>, env: Env, soft: set<string>)
    requires Unclean(env, soft) == {}
    ensures KeepClean(BindAll(k, rows, env), soft) == BindAll(k, if IsSoft(k, soft) then LiveRows(rows) else rows, env)
  {
    if rows != [] {
      BindSame(k, rows[1..], env, soft);
      UncleanBinding(env, k, rows[0], soft);
      KeepCleanSum([env[k := rows[0]]], BindAll(k, rows[1..], env), soft);
      assert [env[k := rows[0]]][1..] == [];
      if IsLive(rows[0]) {
        TailOfSum([rows[0]], LiveRows(rows[1..]));
        SumOfEmpty(LiveRows(rows[1..]));
      } else {
        SumOfEmpty(LiveRows(rows[1..]));
        SumOfEmpty(KeepClean(BindAll(k, rows[1..], env), soft));
      }
      SplitFirst(rows);
    }
  }

  lemma TableSame(k: Key, db: Database, soft: set<string>)
    ensures Table(k, Live(db, soft)) == if IsSoft(k, soft) then LiveRows(Table(k, db)) else Table(k, db)
  {
  }

  lemma {:induction false} ScanWithin(k: Key, envs: seq<Env>, db: Database, soft: set<string>, keys: set<Key>)
    requires Within(envs, keys, soft)
    ensures Within(ScanEach(k, envs, db), keys + {k}, soft)
  {
    if envs != [] {
      ScanWithin(k, envs[1..], db, soft, keys);
      var bound := BindAll(k, Table(k, db), envs[0]);
      forall i | 0 <= i < |bound| {
        BindWithin(k, Table(k, db), envs[0], soft, i);
      }
    }
  }

  lemma {:induction false} ScanSame(k: Key, envs: seq<Env>, db: Database, soft: set<string>, keys: set<Key>)
    requires Within(envs, keys, soft) && k !in keys
    ensures KeepClean(ScanEach(k, envs, db), soft) == ScanEach(k, KeepClean(envs, soft), Live(db, soft))
  {
    if envs != [] {
      var bound := BindAll(k, Table(k, db), envs[0]);
      ScanSame(k, envs[1..], db, soft, keys);
      KeepCleanSum(bound, ScanEach(k, envs[1..], db), soft);
      TableSame(k, db, soft);
      if Unclean(envs[0], soft) == {} {
        BindSame(k, Table(k, db), envs[0], soft);
        TailOfSum([envs[0]], KeepClean(envs[1..], soft));
      } else {
        forall i | 0 <= i < |bound|
          ensures Unclean(bound[i], soft) != {}
        {
          BindWithin(k, Table(k, db), envs[0], soft, i);
        }
        KeepCleanNone(bound, soft);
        SumOfEmpty(KeepClean(ScanEach(k, envs[1..], db), soft));
        SumOfEmpty(KeepClean(envs[1..], soft));
      }
    }
  }

  lemma {:induction false} ScanAllSame(scan: seq<Key>, envs: seq<Env>, db: Database, soft: set<string>, keys: set<Key>)
    requires Within(envs, keys, soft) && NoRepeats(scan) && forall k | k in scan :: k !in keys
    ensures KeepClean(ScanAll(scan, envs, db), soft) == ScanAll(scan, KeepClean(envs, soft), Live(db, soft))
    ensures Within(ScanAll(scan, envs, db), keys + (set k | k in scan), soft)
    decreases |scan|
  {
    if scan != [] {
      ScanSame(scan[0], envs, db, soft, keys);
      ScanWithin(scan[0], envs, db, soft, keys);
      SplitFirst(scan);
      ScanAllSame(scan[1..], ScanEach(scan[0], envs, db), db, soft, keys + {scan[0]});
      assert keys + {scan[0]} + (set k | k in scan[1..]) == keys + (set k | k in scan);
    }
  }

  // ---------- Statements the filter covers ----------

  // No Core table is joined: every soft element of a join tree is a named entity
  // of a model the filter knows the statement to mention.
  ghost predicate JoinsEntities(item: El, models: set<string>, soft: set<string>) {
    match item
    case Leaf(k, entity) => IsSoft(k, soft) ==> entity && IsSoft(k, models)
    case Join(l, r, _, _) => JoinsEntities(l, models, soft) && JoinsEntities(r, models, soft)
    case _ => true
  }

  // No table or alias stands twice in one FROM list.
  ghost predicate NoOverlap(items: seq<El>) {
    items == [] || (KeysOf(items[0]) !! KeysOfAll(items[1..]) && NoOverlap(items[1..]))
  }

  // `el` is covered, `needs` lists for its SELECTs exactly what they need, and
  // opted-out SELECTs are left alone.
  ghost predicate Fit(el: El, needs: Needs, models: set<string>, soft: set<string>)
    decreases el
  {
    match el
    case Leaf(k, _) => IsSoft(k, soft) ==> IsSoft(k, models)
    case Derived(_, q) => Fit(q, needs, models, soft)
    case Join(l, r, on, _) =>
      && Fit(l, needs, models, soft) && Fit(r, needs, models, soft) && FitAll(on, needs, models, soft)
      && KeysOf(l) !! KeysOf(r) && JoinsEntities(r, models, soft)
    case Target(i, on, _) =>
      && Fit(i, needs, models, soft) && FitAll(on, needs, models, soft) && JoinsEntities(i, models, soft)
    case Select(_, opt, columns, froms, joins, criteria, _) =>
      if opt then Guarded(el, needs, models) == el
      else
        && NeededBy(el, needs) == ImplicitKeys(el, models)
        && FitAll(columns, needs, models, soft) && FitAll(froms, needs, models, soft)
        && FitAll(joins, needs, models, soft) && FitAll(criteria, needs, models, soft)
        && NoOverlap(froms) && NoOverlap(joins) && KeysOfAll(froms) !! KeysOfAll(joins)
        && (forall i | 0 <= i < |froms| && froms[i].Join? :: JoinsEntities(froms[i], models, soft))
        && (forall k | k in FromKeysOf(columns) + FromKeysOf(criteria) && IsSoft(k, soft) :: IsSoft(k, models))
    case Output(_, e, _) => Fit(e, needs, models, soft)
    case Column(_, _, _) => true
    case Literal(_) => true
    case Op(_, args) => FitAll(args, needs, models, soft)
    case Exists(q) => Fit(q, needs, models, soft)
    case InQuery(p, q) => Fit(p, needs, models, soft) && Fit(q, needs, models, soft)
    case Scalar(q) => Fit(q, needs, models, soft)
  }

  ghost predicate FitAll(els: seq<El>, needs: Needs, models: set<string>, soft: set<string>)
    decreases els
  {
    forall i | 0 <= i < |els| :: Fit(els[i], needs, models, soft)
  }

  // ---------- The added predicates ----------

  lemma TestMeaning(k: Key, env: Env, shown: set<Key>, c: Context, soft: set<string>)
    requires IsSoft(k, soft)
    ensures Eval(LiveTest(k), env, shown, c) == Bool(k !in Unclean(env, soft))
  {
    var test := LiveTest(k);
    assert EvalAll(test.args, env, shown, c) == [Eval(test.args[0], env, shown, c)];
  }

  // The tests hold exactly of the environments that keep `keys` clean.
  lemma TestsMeaning(keys: seq<Key>, env: Env, shown: set<Key>, c: Context, soft: set<string>)
    requires forall k | k in keys :: IsSoft(k, soft)
    ensures Holds(LiveTests(keys), env, shown, c) <==> forall k | k in keys :: k !in Unclean(env, soft)
  {
    forall i | 0 <= i < |keys| {
      TestMeaning(keys[i], env, shown, c, soft);
    }
    if Holds(LiveTests(keys), env, shown, c) {
      forall k | k in keys
        ensures k !in Unclean(env, soft)
      {
        var i :| 0 <= i < |keys| && keys[i] == k;
        assert Eval(LiveTests(keys)[i], env, shown, c) == Bool(true);
      }
    }
  }

  lemma HoldsSum(a: seq<El>, b: seq<El>, env: Env, shown: set<Key>, c: Context)
    ensures Holds(a + b, env, shown, c) <==> Holds(a, env, shown, c) && Holds(b, env, shown, c)
  {
    if Holds(a + b, env, shown, c) {
      forall i | 0 <= i < |a|
        ensures Eval(a[i], env, shown, c) == Bool(true)
      {
        assert (a + b)[i] == a[i];
      }
      forall i | 0 <= i < |b|
        ensures Eval(b[i], env, shown, c) == Bool(true)
      {
        assert (a + b)[|a| + i] == b[i];
      }
    }
  }

  lemma {:induction false} GuardKeysMeaning(item: El, models: set<string>, soft: set<string>)
    requires models <= soft && JoinsEntities(item, models, soft)
    ensures forall k :: k in GuardKeys(item, models) <==> k in Lead(item) && IsSoft(k, soft)
  {
    match item
    case Join(l, _, _, _) => GuardKeysMeaning(l, models, soft);
    case _ =>
  }

  lemma {:induction false} LeadIsKey(item: El)
    ensures Lead(item) <= KeysOf(item)
  {
    match item
    case Join(l, _, _, _) => LeadIsKey(l);
    case _ =>
  }

  // ---------- Keeping rows ----------

  // Dropping the rows that fail the guarded criteria is dropping the trash first.
  lemma {:induction false} KeepSame(guarded: seq<El>, plain: seq<El>, envs: seq<Env>, shown: set<Key>,
                                    c: Context, live: Context, soft: set<string>)
    requires forall i | 0 <= i < |envs| ::
               Holds(guarded, envs[i], shown, c) <==>
               Unclean(envs[i], soft) == {} && Holds(plain, envs[i], shown, live)
    ensures Keep(guarded, envs, shown, c) == Keep(plain, KeepClean(envs, soft), shown, live)
    decreases |envs|
  {
    if envs != [] {
      KeepSame(guarded, plain, envs[1..], shown, c, live, soft);
      if Unclean(envs[0], soft) == {} {
        TailOfSum([envs[0]], KeepClean(envs[1..], soft));
      } else {
        SumOfEmpty(KeepClean(envs[1..], soft));
        SumOfEmpty(Keep(plain, KeepClean(envs[1..], soft), shown, live));
      }
    }
  }

  lemma {:induction false} KeepMember(criteria: seq<El>, envs: seq<Env>, shown: set<Key>, c: Context, i: nat)
    requires i < |Keep(criteria, envs, shown, c)|
    ensures Holds(criteria, Keep(criteria, envs, shown, c)[i], shown, c)
    ensures Keep(criteria, envs, shown, c)[i] in envs
    decreases |envs|
  {
    if Holds(criteria, envs[0], shown, c) {
      if i > 0 {
        KeepMember(criteria, envs[1..], shown, c, i - 1);
      }
    } else {
      KeepMember(criteria, envs[1..], shown, c, i);
    }
  }

  // ---------- What a join does to trash ----------

  datatype Setting = Setting(needs: Needs, models: set<string>, soft: set<string>, db: Database)

  function G(el: El, s: Setting): El { Guarded(el, s.needs, s.models) }

  function All(s: Setting): Context { Everything(s.db) }

  function Alive(s: Setting): Context { WithoutTrash(s.db, s.soft) }

  ghost predicate Fits(el: El, s: Setting) { s.models <= s.soft && Fit(el, s.needs, s.models, s.soft) }

  // Extending `env` by `item` adds trash at most at the element no ON clause guards.
  lemma {:induction false} FromSpread(item: El, env: Env, shown: set<Key>, s: Setting, i: nat)
    requires Fits(item, s) && Unclean(env, s.soft) !! KeysOf(item)
    requires i < |FromEnvs(G(item, s), env, shown, All(s))|
    ensures Unclean(env, s.soft) <= Unclean(FromEnvs(G(item, s), env, shown, All(s))[i], s.soft)
    ensures Unclean(FromEnvs(G(item, s), env, shown, All(s))[i], s.soft) <= Unclean(env, s.soft) + Lead(item)
    decreases item, 1, 0
  {
    match item
    case Leaf(k, _) => BindWithin(k, Table(k, s.db), env, s.soft, i);
    case Derived(d, q) =>
      var rows := NamedRows(Names(G(q, s).columns), Rows(G(q, s), map[], {}, All(s)));
      BindWithin(DerivedKey(d), rows, env, s.soft, i);
    case Join(l, r, _, _) =>
      var left := FromEnvs(G(l, s), env, shown, All(s));
      LeadIsKey(l);
      forall n | 0 <= n < |left|
        ensures Unclean(env, s.soft) <= Unclean(left[n], s.soft) <= Unclean(env, s.soft) + Lead(l)
      {
        FromSpread(l, env, shown, s, n);
      }
      var n := JoinEachSpread(item, left, shown, s, i);
    case _ =>
  }

  lemma {:induction false} JoinEachSpread(j: El, envs: seq<Env>, shown: set<Key>, s: Setting, i: nat) returns (n: nat)
    requires (j.Join? || j.Target?) && Fits(j, s)
    requires forall m | 0 <= m < |envs| :: Unclean(envs[m], s.soft) !! KeysOf(Attached(j))
    requires i < |JoinEach(G(j, s), envs, shown, All(s))|
    ensures n < |envs|
    ensures Unclean(JoinEach(G(j, s), envs, shown, All(s))[i], s.soft) == Unclean(envs[n], s.soft)
    decreases j, 0, |envs|
  {
    var first := Matches(G(j, s), envs[0], shown, All(s));
    if i < |first| {
      MatchSpread(j, envs[0], shown, s, i);
      n := 0;
    } else {
      n := JoinEachSpread(j, envs[1..], shown, s, i - |first|);
      n := n + 1;
    }
  }

  // Where the ON clause of a guarded target holds, nothing of its first element is trash.
  lemma TestedIsClean(on: seq<El>, item: El, env: Env, shown: set<Key>, s: Setting)
    requires s.models <= s.soft && JoinsEntities(item, s.models, s.soft)
    requires Holds(on + LiveTests(GuardKeys(item, s.models)), env, shown, All(s))
    ensures Unclean(env, s.soft) !! Lead(item)
  {
    HoldsSum(on, LiveTests(GuardKeys(item, s.models)), env, shown, All(s));
    GuardKeysMeaning(item, s.models, s.soft);
    TestsMeaning(GuardKeys(item, s.models), env, shown, All(s), s.soft);
  }

  // A join, inner or outer, adds no trash: the ON clause guards what it attaches,
  // and the row an outer join makes up is not a trashed one.
  lemma {:induction false} MatchSpread(j: El, env: Env, shown: set<Key>, s: Setting, i: nat)
    requires (j.Join? || j.Target?) && Fits(j, s)
    requires Unclean(env, s.soft) !! KeysOf(Attached(j))
    requires i < |Matches(G(j, s), env, shown, All(s))|
    ensures Unclean(Matches(G(j, s), env, shown, All(s))[i], s.soft) == Unclean(env, s.soft)
    decreases j, 0, 0
  {
    var item, on := Attached(j), G(j, s).on;
    assert Attached(G(j, s)) == G(item, s);
    KeysSame(item, s.needs, s.models);
    UncleanNulls(env, KeysOf(item), s.soft);
    var envs := FromEnvs(G(item, s), env, shown, All(s));
    var found := Keep(on, envs, shown, All(s));
    if found != [] {
      KeepMember(on, envs, shown, All(s), i);
      var n :| 0 <= n < |envs| && envs[n] == found[i];
      FromSpread(item, env, shown, s, n);
      TestedIsClean(GuardedAll(j.on, s.needs, s.models), item, found[i], shown, s);
    }
  }
}
