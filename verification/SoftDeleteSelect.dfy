// The meaning of one guarded SELECT: its FROM list is the one it had, every
// unguarded element of it gets a predicate, and so do its subqueries.
module SoftDeleteSelect {
  import opened Options
  import opened Query
  import opened Sequences
  import opened SoftDelete
  import opened SoftDeleteRewrite
  import opened SoftDeleteMeaning

  // ---------- No SELECT gains a FROM ----------

  lemma {:induction false} DistinctAbsorbs(keys: seq<Key>, extra: seq<Key>, skip: set<Key>)
    requires forall k | k in extra :: k in keys || k in skip || k.DerivedKey?
    ensures Distinct(keys + extra, skip) == Distinct(keys, skip)
    decreases |keys| + |extra|
  {
    if keys == [] {
      SumOfEmpty(extra);
      if extra != [] {
        SplitFirst(extra);
        SumOfEmpty(extra[1..]);
        DistinctAbsorbs([], extra[1..], skip);
      }
    } else {
      TailOfSum(keys, extra);
      SplitFirst(keys);
      DistinctAbsorbs(keys[1..], extra, if keys[0] in skip || keys[0].DerivedKey? then skip else skip + {keys[0]});
    }
  }

  lemma {:induction false} DistinctMeaning(keys: seq<Key>, skip: set<Key>)
    ensures forall k :: k in Distinct(keys, skip) <==> k in keys && k !in skip && !k.DerivedKey?
    ensures NoRepeats(Distinct(keys, skip))
    decreases |keys|
  {
    if keys != [] {
      SplitFirst(keys);
      DistinctMeaning(keys[1..], if keys[0] in skip || keys[0].DerivedKey? then skip else skip + {keys[0]});
    }
  }

  lemma {:induction false} PlainFromsAreKeys(froms: seq<El>)
    ensures forall k | k in PlainFroms(froms) :: k in KeysOfAll(froms)
    ensures forall k | k in EntityKeys(froms) :: k in KeysOfAll(froms) && k in PlainFroms(froms)
    ensures JoinedFroms(froms) <= KeysOfAll(froms)
  {
    if froms != [] {
      PlainFromsAreKeys(froms[1..]);
    }
  }

  lemma {:induction false} JoinLeadsAreKeys(froms: seq<El>, models: set<string>)
    ensures forall k | k in JoinLeads(froms, models) :: k in KeysOfAll(froms) && IsSoft(k, models)
  {
    if froms != [] {
      JoinLeadsAreKeys(froms[1..], models);
      GuardKeyIsKey(froms[0], models);
    }
  }

  lemma {:induction false} GuardKeyIsKey(item: El, models: set<string>)
    ensures forall k | k in GuardKeys(item, models) :: k in KeysOf(item) && IsSoft(k, models)
  {
    match item
    case Join(l, _, _, _) => GuardKeyIsKey(l, models);
    case _ =>
  }

  lemma {:induction false} SubjectsAreKeys(columns: seq<El>)
    ensures forall k :: k in SubjectKeys(columns) <==> k in CoveredByColumns(columns)
    ensures forall k | k in SubjectKeys(columns) :: k in FromKeysOf(columns)
  {
    if columns != [] {
      SubjectsAreKeys(columns[1..]);
      SplitFirst(columns);
      CoveredCons(columns[0], columns[1..]);
    }
  }

  lemma CoveredCons(column: El, columns: seq<El>)
    ensures CoveredByColumns([column] + columns) == CoveredByColumns(columns) +
              (if column.Output? && column.subject.Some? && column.subject.value in FromKeys(column)
               then {column.subject.value} else {})
  {
    var more := [column] + columns;
    assert more[0] == column;
    assert forall i | 0 <= i < |columns| :: more[i + 1] == columns[i];
  }

  lemma {:induction false} EntitiesAreCovered(froms: seq<El>)
    ensures forall k | k in CoveredByFroms(froms) :: k in EntityKeys(froms)
  {
    if froms != [] {
      EntitiesAreCovered(froms[1..]);
      assert forall i | 1 <= i < |froms| :: froms[i] == froms[1..][i - 1];
    }
  }

  // The keys whose predicates a guarded SELECT gains, in the order it gains them.
  function AddedKeys(q: El, needs: Needs, models: set<string>): seq<Key>
    requires q.Select?
  {
    NeededBy(q, needs) + WhereKeys(q, models)
  }

  lemma AddedKeysAreKnown(q: El, needs: Needs, models: set<string>)
    requires q.Select? && NeededBy(q, needs) == ImplicitKeys(q, models)
    ensures forall k | k in AddedKeys(q, needs, models) ::
              && IsSoft(k, models)
              && (k in FromKeysOf(q.columns) + FromKeysOf(q.criteria) || k in KeysOfAll(q.froms))
  {
    SoftOnceMeaning(Candidates(q), Covered(q) + Joined(q), models);
    SoftOnceMeaning(SubjectKeys(q.columns) + EntityKeys(q.froms), Joined(q), models);
    PlainFromsAreKeys(q.froms);
    JoinLeadsAreKeys(q.froms, models);
    SubjectsAreKeys(q.columns);
  }

  lemma FromKeysOfTest(k: Key)
    ensures FromKeys(LiveTest(k)) == [k]
  {
    var column := Column(k, DELETED_AT, false);
    assert FromKeys(column) == [k];
    assert [column][1..] == [];
    assert FromKeysOf([column]) == [k];
  }

  lemma {:induction false} FromKeysOfTests(keys: seq<Key>)
    ensures FromKeysOf(LiveTests(keys)) == keys
  {
    if keys != [] {
      var tests := LiveTests(keys);
      assert tests[1..] == LiveTests(keys[1..]);
      FromKeysOfTests(keys[1..]);
      FromKeysOfTest(keys[0]);
      SplitFirst(keys);
    }
  }

  lemma TestsSum(a: seq<Key>, b: seq<Key>)
    ensures LiveTests(a) + LiveTests(b) == LiveTests(a + b)
  {
  }

  lemma GuardedCriteria(q: El, needs: Needs, models: set<string>)
    requires q.Select?
    ensures Guarded(q, needs, models).criteria ==
            GuardedAll(q.criteria, needs, models) + LiveTests(AddedKeys(q, needs, models))
  {
    TestsSum(NeededBy(q, needs), WhereKeys(q, models));
    SumAssoc(GuardedAll(q.criteria, needs, models), LiveTests(NeededBy(q, needs)), LiveTests(WhereKeys(q, models)));
  }

  // The guarded SELECT selects from exactly what the SELECT selected from.
  lemma NoNewFroms(q: El, needs: Needs, models: set<string>, outer: set<Key>)
    requires q.Select? && NeededBy(q, needs) == ImplicitKeys(q, models)
    ensures InferredKeys(Guarded(q, needs, models), outer) == InferredKeys(q, outer)
    ensures DisplayKeys(Guarded(q, needs, models), outer) == DisplayKeys(q, outer)
  {
    NoNewInferred(q, needs, models, outer);
    KeysOfAllSame(q.froms, needs, models);
    KeysOfAllSame(q.joins, needs, models);
  }

  lemma NoNewInferred(q: El, needs: Needs, models: set<string>, outer: set<Key>)
    requires q.Select? && NeededBy(q, needs) == ImplicitKeys(q, models)
    ensures InferredKeys(Guarded(q, needs, models), outer) == InferredKeys(q, outer)
  {
    var added := AddedKeys(q, needs, models);
    GuardedCriteria(q, needs, models);
    FromKeysOfSum(GuardedAll(q.criteria, needs, models), LiveTests(added));
    FromKeysOfTests(added);
    FromKeysOfSame(q.columns, needs, models);
    FromKeysOfSame(q.criteria, needs, models);
    KeysOfAllSame(q.froms, needs, models);
    KeysOfAllSame(q.joins, needs, models);
    AddedKeysAreKnown(q, needs, models);
    SumAssoc(FromKeysOf(q.columns), FromKeysOf(q.criteria), added);
    DistinctAbsorbs(FromKeysOf(q.columns) + FromKeysOf(q.criteria), added,
                    KeysOfAll(q.froms) + KeysOfAll(q.joins) + outer);
  }

  // ---------- Every unguarded FROM gets a predicate ----------

  // The elements of a FROM list that no ON clause guards.
  ghost function Unguarded(froms: seq<El>, outer: set<Key>): set<Key> {
    if froms == [] then {}
    else (if Correlated(froms[0], outer) then {} else Lead(froms[0])) + Unguarded(froms[1..], outer)
  }

  lemma {:induction false} UnguardedKinds(froms: seq<El>, outer: set<Key>,
                                          models: set<string>, soft: set<string>, k: Key)
    requires models <= soft && NoOverlap(froms)
    requires forall i | 0 <= i < |froms| && froms[i].Join? :: JoinsEntities(froms[i], models, soft)
    requires k in Unguarded(froms, outer) && IsSoft(k, soft)
    ensures k in JoinLeads(froms, models) || (k in PlainFroms(froms) && k !in JoinedFroms(froms))
    ensures k in KeysOfAll(froms)
  {
    var first := froms[0];
    LeadIsKey(first);
    PlainFromsAreKeys(froms[1..]);
    if k in Lead(first) && !Correlated(first, outer) {
      if first.Join? {
        GuardKeysMeaning(first, models, soft);
      }
    } else {
      UnguardedKinds(froms[1..], outer, models, soft, k);
    }
  }

  // Loader criteria and added predicates together miss nothing.
  lemma EveryFromIsTested(q: El, s: Setting, outer: set<Key>, k: Key)
    requires q.Select? && !q.includeDeleted && Fits(q, s)
    requires k in Unguarded(q.froms, outer) || k in InferredKeys(q, outer)
    requires IsSoft(k, s.soft)
    ensures k in AddedKeys(q, s.needs, s.models)
  {
    SoftOnceMeaning(Candidates(q), Covered(q) + Joined(q), s.models);
    SoftOnceMeaning(SubjectKeys(q.columns) + EntityKeys(q.froms), Joined(q), s.models);
    SubjectsAreKeys(q.columns);
    EntitiesAreCovered(q.froms);
    PlainFromsAreKeys(q.froms);
    DistinctMeaning(FromKeysOf(q.columns) + FromKeysOf(q.criteria), KeysOfAll(q.froms) + KeysOfAll(q.joins) + outer);
    if k in Unguarded(q.froms, outer) {
      UnguardedKinds(q.froms, outer, s.models, s.soft, k);
      if k !in JoinLeads(q.froms, s.models) {
        PlainFromsAreModels(q.froms, s, k);
      }
    }
  }

  lemma {:induction false} PlainFromsAreModels(froms: seq<El>, s: Setting, k: Key)
    requires FitAll(froms, s.needs, s.models, s.soft)
    requires k in PlainFroms(froms) && IsSoft(k, s.soft)
    ensures IsSoft(k, s.models)
  {
    if !(froms[0].Leaf? && froms[0].key == k) {
      PlainFromsAreModels(froms[1..], s, k);
    }
  }

  lemma NoRepeatsSum(a: seq<Key>, b: seq<Key>)
    requires NoRepeats(a) && NoRepeats(b) && forall k | k in a :: k !in b
    ensures NoRepeats(a + b)
  {
    forall i, j | 0 <= i < j < |a + b|
      ensures (a + b)[i] != (a + b)[j]
    {
      if i < |a| <= j {
        assert (a + b)[i] in a && (a + b)[j] == b[j - |a|];
      }
    }
  }

  lemma {:induction false} JoinLeadsOnce(froms: seq<El>, models: set<string>)
    requires NoOverlap(froms)
    ensures NoRepeats(JoinLeads(froms, models))
    ensures forall k | k in JoinLeads(froms, models) :: k in JoinedFroms(froms)
  {
    if froms != [] {
      JoinLeadsOnce(froms[1..], models);
      GuardKeyIsKey(froms[0], models);
      JoinLeadsAreKeys(froms[1..], models);
      GuardKeyIsOne(froms[0], models);
      NoRepeatsSum(if froms[0].Join? then GuardKeys(froms[0], models) else [], JoinLeads(froms[1..], models));
    }
  }

  lemma {:induction false} GuardKeyIsOne(item: El, models: set<string>)
    ensures |GuardKeys(item, models)| <= 1
  {
    match item
    case Join(l, _, _, _) => GuardKeyIsOne(l, models);
    case _ =>
  }

  lemma {:induction false} EntityKeysAreCovered(froms: seq<El>)
    ensures forall k | k in EntityKeys(froms) :: k in CoveredByFroms(froms)
  {
    if froms != [] {
      EntityKeysAreCovered(froms[1..]);
      assert forall i | 1 <= i < |froms| :: froms[i] == froms[1..][i - 1];
    }
  }

  // One predicate a FROM element: the rewrite never repeats what the ORM adds.
  lemma EachFromTestedOnce(q: El, s: Setting)
    requires q.Select? && !q.includeDeleted && Fits(q, s)
    ensures NoRepeats(AddedKeys(q, s.needs, s.models))
  {
    SoftOnceMeaning(Candidates(q), Covered(q) + Joined(q), s.models);
    SoftOnceMeaning(SubjectKeys(q.columns) + EntityKeys(q.froms), Joined(q), s.models);
    SubjectsAreKeys(q.columns);
    EntityKeysAreCovered(q.froms);
    JoinLeadsOnce(q.froms, s.models);
    var named := SoftOnce(SubjectKeys(q.columns) + EntityKeys(q.froms), Joined(q), s.models);
    NoRepeatsSum(named, JoinLeads(q.froms, s.models));
    NoRepeatsSum(NeededBy(q, s.needs), WhereKeys(q, s.models));
  }

  // ---------- FROM lists without trash ----------

  lemma {:induction false} CrossWithin(item: El, envs: seq<Env>, shown: set<Key>, s: Setting, keys: set<Key>)
    requires Fits(item, s) && Within(envs, keys, s.soft) && keys !! KeysOf(item)
    ensures Within(CrossEach(G(item, s), envs, shown, All(s)), keys + Lead(item), s.soft)
  {
    if envs != [] {
      CrossWithin(item, envs[1..], shown, s, keys);
      var first := FromEnvs(G(item, s), envs[0], shown, All(s));
      forall i | 0 <= i < |first| {
        FromSpread(item, envs[0], shown, s, i);
      }
    }
  }

  lemma {:induction false} JoinEachWithin(j: El, envs: seq<Env>, shown: set<Key>, s: Setting, keys: set<Key>)
    requires (j.Join? || j.Target?) && Fits(j, s) && Within(envs, keys, s.soft) && keys !! KeysOf(Attached(j))
    ensures Within(JoinEach(G(j, s), envs, shown, All(s)), keys, s.soft)
  {
    var joined := JoinEach(G(j, s), envs, shown, All(s));
    forall i | 0 <= i < |joined|
      ensures Unclean(joined[i], s.soft) <= keys
    {
      var n := JoinEachSpread(j, envs, shown, s, i);
    }
  }

  // ---------- Meaning is preserved ----------

  lemma {:induction false} EvalSame(el: El, env: Env, shown: set<Key>, s: Setting)
    requires Fits(el, s) && Unclean(env, s.soft) == {}
    ensures Eval(G(el, s), env, shown, All(s)) == Eval(el, env, shown, Alive(s))
    decreases el, 9, 0
  {
    match el
    case Output(_, e, _) => EvalSame(e, env, shown, s);
    case Op(_, args) => EvalAllSame(args, env, shown, s);
    case Exists(q) =>
      RowsSame(q, env, shown, s);
      SubqueryAlike(el, q, env, shown, s);
    case InQuery(p, q) =>
      EvalSame(p, env, shown, s);
      RowsSame(q, env, shown, s);
      SubqueryAlike(el, q, env, shown, s);
    case Scalar(q) =>
      RowsSame(q, env, shown, s);
      SubqueryAlike(el, q, env, shown, s);
    case _ =>
  }

  // An expression over a subquery sees nothing of it but its rows.
  lemma SubqueryAlike(el: El, q: El, env: Env, shown: set<Key>, s: Setting)
    requires (el.Exists? && el.query == q) || (el.Scalar? && el.query == q) || (el.InQuery? && el.query == q)
    requires Rows(G(q, s), env, shown, All(s)) == Rows(q, env, shown, Alive(s))
    requires el.InQuery? ==> Eval(G(el.probe, s), env, shown, All(s)) == Eval(el.probe, env, shown, Alive(s))
    ensures Eval(G(el, s), env, shown, All(s)) == Eval(el, env, shown, Alive(s))
  {
  }

  lemma {:induction false} EvalAllSame(els: seq<El>, env: Env, shown: set<Key>, s: Setting)
    requires s.models <= s.soft && FitAll(els, s.needs, s.models, s.soft) && Unclean(env, s.soft) == {}
    ensures EvalAll(GuardedAll(els, s.needs, s.models), env, shown, All(s)) == EvalAll(els, env, shown, Alive(s))
    ensures Holds(GuardedAll(els, s.needs, s.models), env, shown, All(s)) <==> Holds(els, env, shown, Alive(s))
    decreases els, 0, 0
  {
    var guarded := GuardedAll(els, s.needs, s.models);
    forall i | 0 <= i < |els|
      ensures Eval(guarded[i], env, shown, All(s)) == Eval(els[i], env, shown, Alive(s))
    {
      EvalSame(els[i], env, shown, s);
    }
    EvalPointwise(guarded, els, env, shown, All(s), Alive(s));
  }

  lemma EvalPointwise(a: seq<El>, b: seq<El>, env: Env, shown: set<Key>, c: Context, d: Context)
    requires |a| == |b| && forall i | 0 <= i < |a| :: Eval(a[i], env, shown, c) == Eval(b[i], env, shown, d)
    ensures EvalAll(a, env, shown, c) == EvalAll(b, env, shown, d)
    ensures Holds(a, env, shown, c) <==> Holds(b, env, shown, d)
  {
  }

  lemma {:induction false} FromSame(item: El, env: Env, shown: set<Key>, s: Setting)
    requires Fits(item, s) && Unclean(env, s.soft) == {}
    ensures KeepClean(FromEnvs(G(item, s), env, shown, All(s)), s.soft) == FromEnvs(item, env, shown, Alive(s))
    decreases item, 9, 0
  {
    match item
    case Leaf(k, _) =>
      BindSame(k, Table(k, s.db), env, s.soft);
      TableSame(k, s.db, s.soft);
    case Derived(d, q) =>
      RowsSame(q, map[], {}, s);
      if q.Select? {
        NamesSame(q.columns, s);
        DerivedNames(q, s);
        BindSame(DerivedKey(d), NamedRows(Names(q.columns), Rows(q, map[], {}, Alive(s))), env, s.soft);
      }
    case Join(l, r, _, _) =>
      var left := FromEnvs(G(l, s), env, shown, All(s));
      FromSame(l, env, shown, s);
      LeadIsKey(l);
      forall n | 0 <= n < |left|
        ensures Unclean(left[n], s.soft) !! KeysOf(r)
      {
        FromSpread(l, env, shown, s, n);
      }
      JoinEachSame(item, left, shown, s);
    case _ =>
  }

  lemma NamesSame(columns: seq<El>, s: Setting)
    ensures Names(GuardedAll(columns, s.needs, s.models)) == Names(columns)
  {
  }

  lemma DerivedNames(q: El, s: Setting)
    requires q.Select?
    ensures G(q, s).Select? && G(q, s).columns == GuardedAll(q.columns, s.needs, s.models)
  {
  }

  lemma {:induction false} JoinEachSame(j: El, envs: seq<Env>, shown: set<Key>, s: Setting)
    requires (j.Join? || j.Target?) && Fits(j, s)
    requires forall m | 0 <= m < |envs| :: Unclean(envs[m], s.soft) !! KeysOf(Attached(j))
    ensures KeepClean(JoinEach(G(j, s), envs, shown, All(s)), s.soft)
         == JoinEach(j, KeepClean(envs, s.soft), shown, Alive(s))
    decreases j, 7, |envs|
  {
    if envs != [] {
      var first, rest := Matches(G(j, s), envs[0], shown, All(s)), JoinEach(G(j, s), envs[1..], shown, All(s));
      JoinEachSame(j, envs[1..], shown, s);
      KeepCleanSum(first, rest, s.soft);
      forall i | 0 <= i < |first|
        ensures Unclean(first[i], s.soft) == Unclean(envs[0], s.soft)
      {
        MatchSpread(j, envs[0], shown, s, i);
      }
      if Unclean(envs[0], s.soft) == {} {
        MatchesSame(j, envs[0], shown, s);
        KeepCleanAll(first, s.soft);
        TailOfSum([envs[0]], KeepClean(envs[1..], s.soft));
        SumOfEmpty(KeepClean(envs[1..], s.soft));
      } else {
        KeepCleanNone(first, s.soft);
        SumOfEmpty(KeepClean(rest, s.soft));
        SumOfEmpty(KeepClean(envs[1..], s.soft));
      }
    }
  }

  // One row of the left side finds the same partners, and when it finds none an
  // outer join keeps it just the same.
  lemma {:induction false} MatchesSame(j: El, env: Env, shown: set<Key>, s: Setting)
    requires (j.Join? || j.Target?) && Fits(j, s) && Unclean(env, s.soft) == {}
    ensures Matches(G(j, s), env, shown, All(s)) == Matches(j, env, shown, Alive(s))
    decreases j, 6, 0
  {
    var item, on, tests := Attached(j), GuardedAll(j.on, s.needs, s.models),
                         LiveTests(GuardKeys(Attached(j), s.models));
    assert Attached(G(j, s)) == G(item, s) && G(j, s).on == on + tests;
    KeysSame(item, s.needs, s.models);
    FromSame(item, env, shown, s);
    GuardKeysMeaning(item, s.models, s.soft);
    var envs := FromEnvs(G(item, s), env, shown, All(s));
    forall i | 0 <= i < |envs|
      ensures Holds(on + tests, envs[i], shown, All(s)) <==>
              Unclean(envs[i], s.soft) == {} && Holds(j.on, envs[i], shown, Alive(s))
    {
      FromSpread(item, env, shown, s, i);
      HoldsSum(on, tests, envs[i], shown, All(s));
      TestsMeaning(GuardKeys(item, s.models), envs[i], shown, All(s), s.soft);
      CleanWhenTested(envs[i], Lead(item), GuardKeys(item, s.models), s.soft);
      if Unclean(envs[i], s.soft) == {} {
        EvalAllSame(j.on, envs[i], shown, s);
      }
    }
    KeepSame(on + tests, j.on, envs, shown, All(s), Alive(s), s.soft);
  }

  // Trash confined to tested keys is no trash once the tests hold.
  lemma CleanWhenTested(env: Env, keys: set<Key>, tested: seq<Key>, soft: set<string>)
    requires Unclean(env, soft) <= keys
    requires forall k | k in keys && IsSoft(k, soft) :: k in tested
    ensures Unclean(env, soft) == {} <==> forall k | k in tested :: k !in Unclean(env, soft)
  {
  }

  lemma {:induction false} CrossSame(item: El, envs: seq<Env>, shown: set<Key>, s: Setting, keys: set<Key>)
    requires Fits(item, s) && Within(envs, keys, s.soft) && keys !! KeysOf(item)
    ensures KeepClean(CrossEach(G(item, s), envs, shown, All(s)), s.soft)
         == CrossEach(item, KeepClean(envs, s.soft), shown, Alive(s))
    decreases item, 10, |envs|
  {
    if envs != [] {
      var first, rest := FromEnvs(G(item, s), envs[0], shown, All(s)), CrossEach(G(item, s), envs[1..], shown, All(s));
      CrossSame(item, envs[1..], shown, s, keys);
      KeepCleanSum(first, rest, s.soft);
      if Unclean(envs[0], s.soft) == {} {
        FromSame(item, envs[0], shown, s);
        TailOfSum([envs[0]], KeepClean(envs[1..], s.soft));
        SumOfEmpty(KeepClean(envs[1..], s.soft));
      } else {
        forall i | 0 <= i < |first|
          ensures Unclean(first[i], s.soft) != {}
        {
          FromSpread(item, envs[0], shown, s, i);
        }
        KeepCleanNone(first, s.soft);
        SumOfEmpty(KeepClean(rest, s.soft));
        SumOfEmpty(KeepClean(envs[1..], s.soft));
      }
    }
  }

  lemma {:induction false} ProductSame(froms: seq<El>, envs: seq<Env>, outer: set<Key>, shown: set<Key>,
                                       s: Setting, keys: set<Key>)
    requires s.models <= s.soft && FitAll(froms, s.needs, s.models, s.soft) && NoOverlap(froms)
    requires Within(envs, keys, s.soft) && keys !! KeysOfAll(froms)
    ensures KeepClean(Product(GuardedAll(froms, s.needs, s.models), envs, outer, shown, All(s)), s.soft)
         == Product(froms, KeepClean(envs, s.soft), outer, shown, Alive(s))
    ensures Within(Product(GuardedAll(froms, s.needs, s.models), envs, outer, shown, All(s)),
                   keys + Unguarded(froms, outer), s.soft)
    decreases froms, 3, 0
  {
    if froms != [] {
      GuardedTail(froms, s.needs, s.models);
      CorrelatedSame(froms[0], outer, s);
      if Correlated(froms[0], outer) {
        ProductSame(froms[1..], envs, outer, shown, s, keys);
      } else {
        LeadIsKey(froms[0]);
        CrossSame(froms[0], envs, shown, s, keys);
        CrossWithin(froms[0], envs, shown, s, keys);
        ProductSame(froms[1..], CrossEach(G(froms[0], s), envs, shown, All(s)), outer, shown, s, keys + Lead(froms[0]));
      }
    }
  }

  lemma CorrelatedSame(item: El, outer: set<Key>, s: Setting)
    ensures Correlated(G(item, s), outer) == Correlated(item, outer)
  {
  }

  lemma {:induction false} JoinAllSame(joins: seq<El>, envs: seq<Env>, shown: set<Key>, s: Setting, keys: set<Key>)
    requires s.models <= s.soft && FitAll(joins, s.needs, s.models, s.soft)
    requires Within(envs, keys, s.soft) && keys !! KeysOfAll(joins)
    ensures KeepClean(JoinAll(GuardedAll(joins, s.needs, s.models), envs, shown, All(s)), s.soft)
         == JoinAll(joins, KeepClean(envs, s.soft), shown, Alive(s))
    ensures Within(JoinAll(GuardedAll(joins, s.needs, s.models), envs, shown, All(s)), keys, s.soft)
    decreases joins, 3, 0
  {
    if joins != [] {
      GuardedTail(joins, s.needs, s.models);
      if joins[0].Target? {
        JoinEachSame(joins[0], envs, shown, s);
        JoinEachWithin(joins[0], envs, shown, s, keys);
        JoinAllSame(joins[1..], JoinEach(G(joins[0], s), envs, shown, All(s)), shown, s, keys);
      } else {
        NotATarget(joins[0], s);
        JoinAllSame(joins[1..], envs, shown, s, keys);
      }
    }
  }

  lemma NotATarget(el: El, s: Setting)
    ensures G(el, s).Target? <==> el.Target?
  {
  }

  lemma {:induction false} ProjectSame(columns: seq<El>, envs: seq<Env>, shown: set<Key>, s: Setting)
    requires s.models <= s.soft && FitAll(columns, s.needs, s.models, s.soft)
    requires Within(envs, {}, s.soft)
    ensures Project(GuardedAll(columns, s.needs, s.models), envs, shown, All(s)) ==
            Project(columns, envs, shown, Alive(s))
    decreases columns, 3, |envs|
  {
    if envs != [] {
      EvalAllSame(columns, envs[0], shown, s);
      ProjectSame(columns, envs[1..], shown, s);
    }
  }

  lemma {:induction false} RowsSame(q: El, env: Env, outer: set<Key>, s: Setting)
    requires Fits(q, s) && Unclean(env, s.soft) == {}
    ensures Rows(G(q, s), env, outer, All(s)) == Rows(q, env, outer, Alive(s))
    decreases q, 8, 0
  {
    if q.Select? && !q.includeDeleted {
      SelectSame(q, env, outer, s);
    } else if !q.Select? {
      NotASelect(q, s);
    }
  }

  lemma NotASelect(el: El, s: Setting)
    ensures G(el, s).Select? <==> el.Select?
  {
  }

  lemma {:induction false} SelectSame(q: El, env: Env, outer: set<Key>, s: Setting)
    requires q.Select? && !q.includeDeleted && Fits(q, s) && Unclean(env, s.soft) == {}
    ensures Rows(G(q, s), env, outer, All(s)) == Rows(q, env, outer, Alive(s))
    decreases q, 7, 0
  {
    var all, alive := All(s), Alive(s);
    var g := G(q, s);
    NoNewFroms(q, s.needs, s.models, outer);
    var shown, inferred := DisplayKeys(q, outer), InferredKeys(q, outer);
    var roots := Product(g.froms, [env], outer, shown, all);
    ProductSame(q.froms, [env], outer, shown, s, {});
    KeepCleanAll([env], s.soft);
    var unguarded := Unguarded(q.froms, outer);
    UnguardedAreKeys(q.froms, outer);
    DistinctMeaning(FromKeysOf(q.columns) + FromKeysOf(q.criteria), KeysOfAll(q.froms) + KeysOfAll(q.joins) + outer);
    ScanAllSame(inferred, roots, s.db, s.soft, unguarded);
    var scanned := ScanAll(inferred, roots, s.db);
    var keys := unguarded + (set k | k in inferred);
    assert Within(scanned, keys, s.soft);
    JoinAllSame(q.joins, scanned, shown, s, keys);
    var joined := JoinAll(g.joins, scanned, shown, all);
    CriteriaSame(q, joined, outer, shown, s, keys);
    var kept := Keep(g.criteria, joined, shown, all);
    KeptIsClean(q, joined, outer, shown, s, keys);
    ProjectSame(q.columns, kept, shown, s);
  }

  lemma {:induction false} UnguardedAreKeys(froms: seq<El>, outer: set<Key>)
    ensures Unguarded(froms, outer) <= KeysOfAll(froms)
  {
    if froms != [] {
      LeadIsKey(froms[0]);
      UnguardedAreKeys(froms[1..], outer);
    }
  }

  lemma {:induction false} CriterionSame(q: El, env: Env, outer: set<Key>, shown: set<Key>, s: Setting, keys: set<Key>)
    requires q.Select? && !q.includeDeleted && Fits(q, s)
    requires keys == Unguarded(q.froms, outer) + (set k | k in InferredKeys(q, outer))
    requires Unclean(env, s.soft) <= keys
    ensures Holds(G(q, s).criteria, env, shown, All(s)) <==>
            Unclean(env, s.soft) == {} && Holds(q.criteria, env, shown, Alive(s))
    decreases q, 5, 0
  {
    var added := AddedKeys(q, s.needs, s.models);
    GuardedCriteria(q, s.needs, s.models);
    HoldsSum(GuardedAll(q.criteria, s.needs, s.models), LiveTests(added), env, shown, All(s));
    AddedKeysAreKnown(q, s.needs, s.models);
    TestsMeaning(added, env, shown, All(s), s.soft);
    forall k | k in keys && IsSoft(k, s.soft)
      ensures k in added
    {
      EveryFromIsTested(q, s, outer, k);
    }
    CleanWhenTested(env, keys, added, s.soft);
    if Unclean(env, s.soft) == {} {
      EvalAllSame(q.criteria, env, shown, s);
    }
  }

  lemma {:induction false} CriteriaSame(q: El, envs: seq<Env>, outer: set<Key>, shown: set<Key>,
                                        s: Setting, keys: set<Key>)
    requires q.Select? && !q.includeDeleted && Fits(q, s)
    requires keys == Unguarded(q.froms, outer) + (set k | k in InferredKeys(q, outer))
    requires Within(envs, keys, s.soft)
    ensures Keep(G(q, s).criteria, envs, shown, All(s))
         == Keep(q.criteria, KeepClean(envs, s.soft), shown, Alive(s))
    decreases q, 6, 0
  {
    forall i | 0 <= i < |envs| {
      CriterionSame(q, envs[i], outer, shown, s, keys);
    }
    KeepSame(G(q, s).criteria, q.criteria, envs, shown, All(s), Alive(s), s.soft);
  }

  lemma {:induction false} KeptIsClean(q: El, envs: seq<Env>, outer: set<Key>, shown: set<Key>,
                                       s: Setting, keys: set<Key>)
    requires q.Select? && !q.includeDeleted && Fits(q, s)
    requires keys == Unguarded(q.froms, outer) + (set k | k in InferredKeys(q, outer))
    requires Within(envs, keys, s.soft)
    ensures Within(Keep(G(q, s).criteria, envs, shown, All(s)), {}, s.soft)
    decreases q, 6, 0
  {
    var kept := Keep(G(q, s).criteria, envs, shown, All(s));
    forall i | 0 <= i < |kept|
      ensures Unclean(kept[i], s.soft) <= {}
    {
      KeepMember(G(q, s).criteria, envs, shown, All(s), i);
      CriterionSame(q, kept[i], outer, shown, s, keys);
    }
  }
}
