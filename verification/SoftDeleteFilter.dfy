// The whole filter: which statements it covers, the hook that runs it, and the
// theorem that what it returns means the statement without the trash.
module SoftDeleteFilter {
  import opened Options
  import opened Query
  import opened Sequences
  import opened SoftDelete
  import opened SoftDeleteRewrite
  import opened SoftDeleteMeaning
  import opened SoftDeleteSelect

  // ---------- What the statement mentions ----------

  ghost predicate Mentions(statement: El, table: string) {
    exists e :: e in ReachedFrom(statement) && (ClassOf(e) == Some(table) || (IsTable(e) && e.key.table == table))
  }

  ghost function Referenced(statement: El, models: set<string>): set<string> {
    set m | m in models && Mentions(statement, m)
  }

  lemma {:induction false} FoundMeaning(met: seq<El>)
    ensures forall t :: t in ClassesIn(met) <==> exists e :: e in met && ClassOf(e) == Some(t)
    ensures forall t :: t in TablesIn(met) <==> exists e :: e in met && IsTable(e) && e.key.table == t
    ensures forall q :: q in SelectsIn(met) <==> q in met && q.Select?
  {
    if met != [] {
      var rest, el := met[..|met| - 1], met[|met| - 1];
      SplitLast(met);
      FoundMeaning(rest);
      assert forall e :: e in met <==> e in rest || e == el;
    }
  }

  ghost function SelectIds(statement: El): set<nat> {
    set q | q in ReachedFrom(statement) && q.Select? :: q.id
  }

  // `needs` lists for every SELECT the walk reaches exactly its own keys.
  ghost predicate NeedsMatch(needs: Needs, statement: El, models: set<string>) {
    && (forall q | q in ReachedFrom(statement) && q.Select? :: NeededBy(q, needs) == ImplicitKeys(q, models))
    && (forall id | id in needs :: needs[id] != [] && id in SelectIds(statement))
  }

  // ---------- What the filter leaves alone ----------

  // Nothing in `el` is named to the ORM, and no SELECT of it is one of `ids`.
  ghost predicate NamesNothing(el: El, ids: set<nat>, models: set<string>)
    decreases el
  {
    match el
    case Leaf(_, _) => true
    case Derived(_, q) => NamesNothing(q, ids, models)
    case Join(l, r, on, _) =>
      GuardKeys(r, models) == [] && NamesNothing(l, ids, models) &&
      NamesNothing(r, ids, models) && NoneNamed(on, ids, models)
    case Target(i, on, _) =>
      GuardKeys(i, models) == [] && NamesNothing(i, ids, models) && NoneNamed(on, ids, models)
    case Select(id, _, columns, froms, joins, criteria, _) =>
      && id !in ids && WhereKeys(el, models) == []
      && NoneNamed(columns, ids, models) && NoneNamed(froms, ids, models)
      && NoneNamed(joins, ids, models) && NoneNamed(criteria, ids, models)
    case Output(_, e, _) => NamesNothing(e, ids, models)
    case Column(_, _, _) => true
    case Literal(_) => true
    case Op(_, args) => NoneNamed(args, ids, models)
    case Exists(q) => NamesNothing(q, ids, models)
    case InQuery(p, q) => NamesNothing(p, ids, models) && NamesNothing(q, ids, models)
    case Scalar(q) => NamesNothing(q, ids, models)
  }

  ghost predicate NoneNamed(els: seq<El>, ids: set<nat>, models: set<string>)
    decreases els
  {
    forall i | 0 <= i < |els| :: NamesNothing(els[i], ids, models)
  }

  // The filter returns an element unchanged exactly when it names nothing.
  lemma {:induction false} LeftAloneIff(el: El, needs: Needs, models: set<string>)
    requires forall id | id in needs :: needs[id] != []
    ensures Guarded(el, needs, models) == el <==> NamesNothing(el, needs.Keys, models)
    decreases el
  {
    match el
    case Leaf(_, _) =>
    case Column(_, _, _) =>
    case Literal(_) =>
    case Derived(_, q) => LeftAloneIff(q, needs, models);
    case Join(_, _, _, _) => JoinLeftAloneIff(el, needs, models);
    case Target(_, _, _) => JoinLeftAloneIff(el, needs, models);
    case Select(_, _, _, _, _, _, _) => SelectLeftAloneIff(el, needs, models);
    case Output(_, e, _) => LeftAloneIff(e, needs, models);
    case Op(_, args) =>
      AllLeftAloneIff(args, needs, models, []);
      SumOfEmpty(GuardedAll(args, needs, models));
    case Exists(q) => LeftAloneIff(q, needs, models);
    case InQuery(p, q) =>
      LeftAloneIff(p, needs, models);
      LeftAloneIff(q, needs, models);
    case Scalar(q) => LeftAloneIff(q, needs, models);
  }

  lemma {:induction false} JoinLeftAloneIff(j: El, needs: Needs, models: set<string>)
    requires (j.Join? || j.Target?) && forall id | id in needs :: needs[id] != []
    ensures Guarded(j, needs, models) == j <==> NamesNothing(j, needs.Keys, models)
    decreases j, 0
  {
    LeftAloneIff(Attached(j), needs, models);
    AllLeftAloneIff(j.on, needs, models, GuardKeys(Attached(j), models));
    if j.Join? {
      LeftAloneIff(j.left, needs, models);
    }
  }

  lemma {:induction false} SelectLeftAloneIff(q: El, needs: Needs, models: set<string>)
    requires q.Select? && forall id | id in needs :: needs[id] != []
    ensures Guarded(q, needs, models) == q <==> NamesNothing(q, needs.Keys, models)
    decreases q, 0
  {
    AllLeftAloneIff(q.columns, needs, models, []);
    AllLeftAloneIff(q.froms, needs, models, []);
    AllLeftAloneIff(q.joins, needs, models, []);
    AllLeftAloneIff(q.criteria, needs, models, AddedKeys(q, needs, models));
    GuardedCriteria(q, needs, models);
    SumOfEmpty(GuardedAll(q.columns, needs, models));
    SumOfEmpty(GuardedAll(q.froms, needs, models));
    SumOfEmpty(GuardedAll(q.joins, needs, models));
  }

  lemma {:induction false} AllLeftAloneIff(els: seq<El>, needs: Needs, models: set<string>, added: seq<Key>)
    requires forall id | id in needs :: needs[id] != []
    ensures GuardedAll(els, needs, models) + LiveTests(added) == els <==>
            NoneNamed(els, needs.Keys, models) && added == []
    decreases els
  {
    forall i | 0 <= i < |els| {
      LeftAloneIff(els[i], needs, models);
    }
    var guarded := GuardedAll(els, needs, models);
    if guarded + LiveTests(added) == els {
      assert |guarded| + |added| == |els|;
      SumOfEmpty(guarded);
    } else if added == [] {
      SumOfEmpty(guarded);
      assert guarded != els;
    }
  }

  lemma {:induction false} NamesNothingLess(el: El, ids: set<nat>, fewer: set<nat>, models: set<string>)
    requires NamesNothing(el, ids, models) && fewer <= ids
    ensures NamesNothing(el, fewer, models)
    decreases el
  {
    match el
    case Leaf(_, _) =>
    case Column(_, _, _) =>
    case Literal(_) =>
    case Derived(_, q) => NamesNothingLess(q, ids, fewer, models);
    case Join(l, r, on, _) =>
      NamesNothingLess(l, ids, fewer, models);
      NamesNothingLess(r, ids, fewer, models);
      NoneNamedLess(on, ids, fewer, models);
    case Target(i, on, _) =>
      NamesNothingLess(i, ids, fewer, models);
      NoneNamedLess(on, ids, fewer, models);
    case Select(_, _, columns, froms, joins, criteria, _) =>
      NoneNamedLess(columns, ids, fewer, models);
      NoneNamedLess(froms, ids, fewer, models);
      NoneNamedLess(joins, ids, fewer, models);
      NoneNamedLess(criteria, ids, fewer, models);
    case Output(_, e, _) => NamesNothingLess(e, ids, fewer, models);
    case Op(_, args) => NoneNamedLess(args, ids, fewer, models);
    case Exists(q) => NamesNothingLess(q, ids, fewer, models);
    case InQuery(p, q) =>
      NamesNothingLess(p, ids, fewer, models);
      NamesNothingLess(q, ids, fewer, models);
    case Scalar(q) => NamesNothingLess(q, ids, fewer, models);
  }

  lemma {:induction false} NoneNamedLess(els: seq<El>, ids: set<nat>, fewer: set<nat>, models: set<string>)
    requires NoneNamed(els, ids, models) && fewer <= ids
    ensures NoneNamed(els, fewer, models)
    decreases els
  {
    forall i | 0 <= i < |els| {
      NamesNothingLess(els[i], ids, fewer, models);
    }
  }

  // ---------- Statements the filter covers ----------

  ghost predicate EntityJoins(item: El, soft: set<string>) {
    match item
    case Leaf(k, entity) => IsSoft(k, soft) ==> entity
    case Join(l, r, _, _) => EntityJoins(l, soft) && EntityJoins(r, soft)
    case _ => true
  }

  // Joined soft tables are named entities, FROM lists name nothing twice, and a
  // nested SELECT that asks for deleted rows names no entity the rest of the
  // statement mentions, nor shares a SELECT with it.
  ghost predicate Supported(el: El, soft: set<string>, models: set<string>, ids: set<nat>)
    decreases el, 1
  {
    if OptsOut(el) then NamesNothing(el, ids, models) else SupportedInside(el, soft, models, ids)
  }

  ghost predicate AllSupported(els: seq<El>, soft: set<string>, models: set<string>, ids: set<nat>)
    decreases els, 2
  {
    forall i | 0 <= i < |els| :: Supported(els[i], soft, models, ids)
  }

  ghost predicate SupportedInside(el: El, soft: set<string>, models: set<string>, ids: set<nat>)
    decreases el, 0
  {
    match el
    case Leaf(_, _) => true
    case Derived(_, q) => Supported(q, soft, models, ids)
    case Join(l, r, on, _) =>
      && Supported(l, soft, models, ids) && Supported(r, soft, models, ids) && AllSupported(on, soft, models, ids)
      && KeysOf(l) !! KeysOf(r) && EntityJoins(r, soft)
    case Target(i, on, _) =>
      Supported(i, soft, models, ids) && AllSupported(on, soft, models, ids) && EntityJoins(i, soft)
    case Select(_, _, columns, froms, joins, criteria, _) =>
      && AllSupported(columns, soft, models, ids) && AllSupported(froms, soft, models, ids)
      && AllSupported(joins, soft, models, ids) && AllSupported(criteria, soft, models, ids)
      && NoOverlap(froms) && NoOverlap(joins) && KeysOfAll(froms) !! KeysOfAll(joins)
      && (forall i | 0 <= i < |froms| && froms[i].Join? :: EntityJoins(froms[i], soft))
    case Output(_, e, _) => Supported(e, soft, models, ids)
    case Column(_, _, _) => true
    case Literal(_) => true
    case Op(_, args) => AllSupported(args, soft, models, ids)
    case Exists(q) => Supported(q, soft, models, ids)
    case InQuery(p, q) => Supported(p, soft, models, ids) && Supported(q, soft, models, ids)
    case Scalar(q) => Supported(q, soft, models, ids)
  }

  // What the walk guarantees about everything it reached.
  ghost predicate WalkKnows(all: multiset<El>, s: Setting, ids: set<nat>) {
    && s.models <= s.soft
    && (forall e | e in all && IsTable(e) && e.key.table in s.soft :: e.key.table in s.models)
    && (forall q | q in all && q.Select? :: NeededBy(q, s.needs) == ImplicitKeys(q, s.models))
    && (forall id | id in s.needs :: s.needs[id] != [] && id in ids)
  }

  lemma ReachedParts(a: seq<El>, b: seq<El>, all: multiset<El>)
    requires Reached(a + b) <= all
    ensures Reached(a) <= all && Reached(b) <= all
  {
    ReachedSum(a, b);
  }

  lemma {:induction false} ReachedOne(els: seq<El>, i: nat, all: multiset<El>)
    requires i < |els| && Reached(els) <= all
    ensures Reached([els[i]]) <= all
  {
    SplitFirst(els);
    ReachedParts([els[0]], els[1..], all);
    if i > 0 {
      ReachedOne(els[1..], i - 1, all);
    }
  }

  lemma ReachedPair(a: El, b: El, all: multiset<El>)
    requires Reached([a, b]) <= all
    ensures Reached([a]) <= all && Reached([b]) <= all
  {
    assert [a, b] == [a] + [b];
    ReachedParts([a], [b], all);
  }

  // An element that is looked into is reached, and so is all it hands out.
  lemma LookedInto(el: El, all: multiset<El>)
    requires Reached([el]) <= all && !OptsOut(el)
    ensures el in all && Reached(Children(el)) <= all
  {
    assert [el][1..] == [];
    assert Reached([el]) == multiset{el} + Reached(Children(el)) + multiset{};
    assert multiset{el} <= all;
  }

  lemma ReachedTable(k: Key, entity: bool, s: Setting, ids: set<nat>, all: multiset<El>)
    requires WalkKnows(all, s, ids) && Reached([Leaf(k, entity)]) <= all
    ensures IsSoft(k, s.soft) ==> IsSoft(k, s.models)
  {
    var leaf := Leaf(k, entity);
    LookedInto(leaf, all);
    if k.AliasKey? {
      LookedInto(Leaf(TableKey(k.table), false), all);
    }
  }

  lemma JoinsModels(item: El, s: Setting)
    requires EntityJoins(item, s.soft) && Fit(item, s.needs, s.models, s.soft)
    ensures JoinsEntities(item, s.models, s.soft)
  {
    match item
    case Join(l, r, _, _) =>
      JoinsModels(l, s);
      JoinsModels(r, s);
    case _ =>
  }

  // A covered statement is one the meaning of the filter was worked out for.
  lemma {:induction false} SupportedFits(el: El, s: Setting, ids: set<nat>, all: multiset<El>)
    requires WalkKnows(all, s, ids) && Reached([el]) <= all && Supported(el, s.soft, s.models, ids)
    ensures Fit(el, s.needs, s.models, s.soft)
    decreases el, 2
  {
    if OptsOut(el) {
      NamesNothingLess(el, ids, s.needs.Keys, s.models);
      LeftAloneIff(el, s.needs, s.models);
    } else {
      LookedInto(el, all);
      InsideFits(el, s, ids, all);
    }
  }

  lemma {:induction false} AllSupportedFit(els: seq<El>, s: Setting, ids: set<nat>, all: multiset<El>)
    requires WalkKnows(all, s, ids) && Reached(els) <= all && AllSupported(els, s.soft, s.models, ids)
    ensures FitAll(els, s.needs, s.models, s.soft)
    decreases els, 2
  {
    forall i | 0 <= i < |els|
      ensures Fit(els[i], s.needs, s.models, s.soft)
    {
      ReachedOne(els, i, all);
      SupportedFits(els[i], s, ids, all);
    }
  }

  lemma {:induction false} InsideFits(el: El, s: Setting, ids: set<nat>, all: multiset<El>)
    requires WalkKnows(all, s, ids) && el in all && Reached(Children(el)) <= all && !OptsOut(el)
    requires SupportedInside(el, s.soft, s.models, ids)
    ensures Fit(el, s.needs, s.models, s.soft)
    decreases el, 1
  {
    match el
    case Leaf(k, entity) =>
      if k.AliasKey? {
        ReachedTable(TableKey(k.table), false, s, ids, all);
      }
    case Join(l, r, on, _) =>
      ReachedParts([l, r], on, all);
      ReachedPair(l, r, all);
      SupportedFits(l, s, ids, all);
      AttachedFits(el, s, ids, all);
    case Target(i, on, _) =>
      ReachedParts([i], on, all);
      AttachedFits(el, s, ids, all);
    case Select(_, _, _, _, _, _, _) => SelectFits(el, s, ids, all);
    case _ => PartsFit(el, s, ids, all);
  }

  lemma {:induction false} PartsFit(el: El, s: Setting, ids: set<nat>, all: multiset<El>)
    requires WalkKnows(all, s, ids) && Reached(Children(el)) <= all
    requires !el.Leaf? && !el.Join? && !el.Target? && !el.Select?
    requires SupportedInside(el, s.soft, s.models, ids)
    ensures Fit(el, s.needs, s.models, s.soft)
    decreases el, 0
  {
    match el
    case Derived(_, q) => SupportedFits(q, s, ids, all);
    case Output(_, e, _) => SupportedFits(e, s, ids, all);
    case Op(_, args) => AllSupportedFit(args, s, ids, all);
    case Exists(q) => SupportedFits(q, s, ids, all);
    case InQuery(p, q) =>
      ReachedPair(p, q, all);
      SupportedFits(p, s, ids, all);
      SupportedFits(q, s, ids, all);
    case Scalar(q) => SupportedFits(q, s, ids, all);
    case _ =>
  }

  lemma {:induction false} AttachedFits(j: El, s: Setting, ids: set<nat>, all: multiset<El>)
    requires j.Join? || j.Target?
    requires WalkKnows(all, s, ids) && Reached([Attached(j)]) <= all && Reached(j.on) <= all
    requires Supported(Attached(j), s.soft, s.models, ids) && AllSupported(j.on, s.soft, s.models, ids)
    requires EntityJoins(Attached(j), s.soft)
    ensures Fit(Attached(j), s.needs, s.models, s.soft) && FitAll(j.on, s.needs, s.models, s.soft)
    ensures JoinsEntities(Attached(j), s.models, s.soft)
    decreases j, 0
  {
    SupportedFits(Attached(j), s, ids, all);
    AllSupportedFit(j.on, s, ids, all);
    JoinsModels(Attached(j), s);
  }

  lemma SelectParts(q: El, all: multiset<El>)
    requires q.Select? && Reached(Children(q)) <= all
    ensures Reached(q.columns) <= all && Reached(q.froms) <= all &&
            Reached(q.joins) <= all && Reached(q.criteria) <= all
    ensures Reached(Leaves(FromKeysOf(q.columns) + FromKeysOf(q.criteria))) <= all
  {
    ReachedParts(q.columns + q.froms + q.joins + q.criteria,
                   Leaves(FromKeysOf(q.columns) + FromKeysOf(q.criteria)), all);
    ReachedParts(q.columns + q.froms + q.joins, q.criteria, all);
    ReachedParts(q.columns + q.froms, q.joins, all);
    ReachedParts(q.columns, q.froms, all);
  }

  lemma InferredAreModels(keys: seq<Key>, s: Setting, ids: set<nat>, all: multiset<El>)
    requires WalkKnows(all, s, ids) && Reached(Leaves(keys)) <= all
    ensures forall k | k in keys && IsSoft(k, s.soft) :: IsSoft(k, s.models)
  {
    forall k | k in keys && IsSoft(k, s.soft)
      ensures IsSoft(k, s.models)
    {
      var i :| 0 <= i < |keys| && keys[i] == k;
      ReachedOne(Leaves(keys), i, all);
      ReachedTable(k, false, s, ids, all);
    }
  }

  lemma {:induction false} SelectFits(q: El, s: Setting, ids: set<nat>, all: multiset<El>)
    requires q.Select? && !q.includeDeleted
    requires WalkKnows(all, s, ids) && q in all && Reached(Children(q)) <= all
    requires SupportedInside(q, s.soft, s.models, ids)
    ensures Fit(q, s.needs, s.models, s.soft)
    decreases q, 0
  {
    SelectParts(q, all);
    AllSupportedFit(q.columns, s, ids, all);
    AllSupportedFit(q.froms, s, ids, all);
    AllSupportedFit(q.joins, s, ids, all);
    AllSupportedFit(q.criteria, s, ids, all);
    forall i | 0 <= i < |q.froms| && q.froms[i].Join?
      ensures JoinsEntities(q.froms[i], s.models, s.soft)
    {
      JoinsModels(q.froms[i], s);
    }
    InferredAreModels(FromKeysOf(q.columns) + FromKeysOf(q.criteria), s, ids, all);
  }

  // ---------- The theorem ----------

  // The filtered statement on all rows means the original on live ones, for any models
  // to guard that are soft-deletable and include those the statement references.
  lemma {:induction false} MeaningPreserved(statement: El, soft: set<string>, models: set<string>,
                                            needs: Needs, db: Database)
    requires statement.Select? && !statement.includeDeleted
    requires Referenced(statement, soft) <= models <= soft
    requires NeedsMatch(needs, statement, models)
    requires Supported(statement, soft, models, SelectIds(statement))
    ensures Rows(Guarded(statement, needs, models), map[], {}, Everything(db))
         == Rows(statement, map[], {}, WithoutTrash(db, soft))
  {
    var s := Setting(needs, models, soft, db);
    var all := ReachedFrom(statement);
    assert statement in all;
    assert forall e | e in all && IsTable(e) && e.key.table in soft :: Mentions(statement, e.key.table);
    InsideFits(statement, s, SelectIds(statement), all);
    RowsSame(statement, map[], {}, s);
  }

  // The predicate added for an outer FROM that a subquery is correlated to is
  // redundant: at a row without trash the criteria hold as they did.
  lemma CorrelatedTestsChangeNothing(criteria: seq<El>, keys: seq<Key>, env: Env, shown: set<Key>, c: Context,
                                     soft: set<string>)
    requires Unclean(env, soft) == {} && forall k | k in keys :: IsSoft(k, soft)
    ensures Holds(criteria + LiveTests(keys), env, shown, c) <==> Holds(criteria, env, shown, c)
  {
    HoldsSum(criteria, LiveTests(keys), env, shown, c);
    TestsMeaning(keys, env, shown, c, soft);
  }

  // A guarded outer join still returns a row that has only trashed partners, with NULLs.
  lemma OuterJoinKeepsRow(j: El, env: Env, shown: set<Key>, s: Setting)
    requires (j.Join? || j.Target?) && j.isOuter && Fits(j, s) && Unclean(env, s.soft) == {}
    requires forall e | e in FromEnvs(G(Attached(j), s), env, shown, All(s)) :: Unclean(e, s.soft) != {}
    ensures Matches(G(j, s), env, shown, All(s)) == [NullExtend(env, KeysOf(Attached(j)))]
  {
    var matches := Matches(G(j, s), env, shown, All(s));
    KeysSame(Attached(j), s.needs, s.models);
    var found := Keep(G(j, s).on, FromEnvs(Attached(G(j, s)), env, shown, All(s)), shown, All(s));
    if found != [] {
      KeepMember(G(j, s).on, FromEnvs(Attached(G(j, s)), env, shown, All(s)), shown, All(s), 0);
      MatchSpread(j, env, shown, s, 0);
      assert false;
    }
  }

  // ---------- Opting out ----------

  // `exists_including_deleted`: a SELECT that names nothing and asks for deleted rows.
  function ExistsIncludingDeleted(id: nat, criteria: seq<El>): El {
    Exists(Select(id, true, [Output("1", Literal(Int(1)), None)], [], [], criteria, false))
  }

  // The reference check comes through the filter as it was written exactly when its
  // criteria do, whatever else the statement mentions; and it counts trashed rows.
  lemma OptOutSeesTrash(id: nat, criteria: seq<El>, needs: Needs, models: set<string>, soft: set<string>,
                        env: Env, shown: set<Key>, db: Database)
    requires forall n | n in needs :: needs[n] != []
    ensures Guarded(ExistsIncludingDeleted(id, criteria), needs, models) == ExistsIncludingDeleted(id, criteria) <==>
              id !in needs && NoneNamed(criteria, needs.Keys, models)
    ensures Eval(ExistsIncludingDeleted(id, criteria), env, shown, WithoutTrash(db, soft)) ==
            Eval(ExistsIncludingDeleted(id, criteria), env, shown, Everything(db))
  {
    var check := ExistsIncludingDeleted(id, criteria);
    var q := check.query;
    assert SubjectKeys(q.columns) == [] by {
      assert q.columns[1..] == [];
    }
    assert NamesNothing(q.columns[0], needs.Keys, models);
    assert WhereKeys(q, models) == [];
    assert NoneNamed(q.froms, needs.Keys, models) && NoneNamed(q.joins, needs.Keys, models);
    assert NamesNothing(q, needs.Keys, models) <==> id !in needs && NoneNamed(criteria, needs.Keys, models);
    LeftAloneIff(check, needs, models);
  }

  // ---------- The hook ----------

  lemma {:induction false} ReachedObjects(els: seq<El>, objects: Objects)
    requires AllSameObjects(els, objects)
    ensures forall e | e in Reached(els) :: SameObjects(e, objects)
    decreases WeightAll(els)
  {
    if els != [] {
      ChildrenAreLighter(els[0]);
      ChildObjects(els[0], objects);
      if !OptsOut(els[0]) {
        ReachedObjects(Children(els[0]), objects);
      }
      ReachedObjects(els[1..], objects);
    }
  }

  lemma ChildObjects(el: El, objects: Objects)
    requires SameObjects(el, objects)
    ensures AllSameObjects(Children(el), objects)
  {
  }

  // Which predicates every SELECT lacks; a SELECT that lacks none is not listed.
  method CollectNeeds(statement: El, selects: seq<El>, tables: set<string>, ghost objects: Objects)
    returns (needs: Needs)
    requires forall q | q in selects :: q.Select? && SameObjects(q, objects)
    ensures forall q | q in selects :: NeededBy(q, needs) == ImplicitKeys(q, tables)
    ensures forall id | id in needs :: needs[id] != [] && exists q :: q in selects && q.id == id
  {
    needs := map[];
    for i := 0 to |selects|
      invariant forall j | 0 <= j < i :: NeededBy(selects[j], needs) == ImplicitKeys(selects[j], tables)
      invariant forall id | id in needs ::
                  needs[id] != [] && exists j :: 0 <= j < i && selects[j].id == id
    {
      var q := selects[i];
      assert q in selects && objects[q.id] == q;
      var froms := ImplicitSoftDeleteFroms(q, tables);
      forall j | 0 <= j < i && selects[j].id == q.id
        ensures selects[j] == q
      {
        assert selects[j] in selects;
      }
      if froms != [] {
        needs := needs[q.id := froms];
      }
    }
  }

  lemma MetMeaning(statement: El, met: seq<El>, models: set<string>)
    requires multiset(met) == ReachedFrom(statement)
    ensures (set m | m in models && (m in ClassesIn(met) || m in TablesIn(met))) == Referenced(statement, models)
    ensures forall q :: q in SelectsIn(met) <==> q in ReachedFrom(statement) && q.Select?
  {
    FoundMeaning(met);
    assert forall e :: e in met <==> e in multiset(met);
    forall m | m in models
      ensures m in ClassesIn(met) || m in TablesIn(met) <==> Mentions(statement, m)
    {
    }
  }

  // What raises on the way; the filter catches it.
  datatype Failures = Failures(walk: bool, rewriting: bool)

  // `_scan_statement`: the models mentioned, and every SELECT reached; every model and
  // no SELECT when the walk raises.
  method ScanStatement(statement: El, models: set<string>, fails: Failures)
    returns (referenced: set<string>, selects: seq<El>)
    ensures fails.walk ==> referenced == models && selects == []
    ensures !fails.walk ==> referenced == Referenced(statement, models)
    ensures !fails.walk ==> forall q :: q in selects <==> q in ReachedFrom(statement) && q.Select?
  {
    if fails.walk {
      return models, [];
    }
    var found := WalkStatement(statement);
    ghost var met: seq<El> :| multiset(met) == ReachedFrom(statement) && found == FoundIn(met);
    MetMeaning(statement, met, models);
    referenced := set m | m in models && (m in found.classes || m in found.tables);
    selects := found.selects;
  }

  lemma ReachedAreObjects(statement: El, objects: Objects)
    requires SameObjects(statement, objects)
    ensures forall q | q in ReachedFrom(statement) :: SameObjects(q, objects)
  {
    ChildObjects(statement, objects);
    ReachedObjects(Children(statement), objects);
  }

  // `_filter_implicit_froms`: the statement itself when no SELECT lacks anything.
  method FilterImplicitFroms(statement: El, selects: seq<El>, tables: set<string>, ghost objects: Objects)
    returns (r: El)
    requires statement.Select? && SameObjects(statement, objects)
    requires forall q :: q in selects <==> q in ReachedFrom(statement) && q.Select?
    ensures exists needs :: NeedsMatch(needs, statement, tables) && r == Rewritten(statement, needs)
  {
    ReachedAreObjects(statement, objects);
    var needs := CollectNeeds(statement, selects, tables, objects);
    assert NeedsMatch(needs, statement, tables);
    if needs == map[] {
      LeavesAlone(statement);
      return statement;
    }
    var memo;
    r, memo := Rewrite(statement, needs, map[], objects);
  }

  // What is guarded: the models referenced, or all of them when the walk raises.
  ghost function GuardedModels(statement: El, models: set<string>, fails: Failures): set<string> {
    if fails.walk then models else Referenced(statement, models)
  }

  // What is rewritten for: every need, or none when the walk or the rewriting raises.
  ghost predicate NeedsApply(needs: Needs, statement: El, models: set<string>, fails: Failures) {
    if fails.walk || fails.rewriting then needs == map[]
    else NeedsMatch(needs, statement, Referenced(statement, models))
  }

  ghost predicate IsFiltered(r: El, statement: El, models: set<string>, fails: Failures) {
    exists needs :: NeedsApply(needs, statement, models, fails) &&
                    r == Guarded(statement, needs, GuardedModels(statement, models, fails))
  }

  // `_apply_soft_delete_filter`.
  method ApplySoftDeleteFilter(statement: El, models: set<string>, fails: Failures, ghost objects: Objects)
    returns (r: El)
    requires statement.Select? && SameObjects(statement, objects)
    ensures IsFiltered(r, statement, models, fails)
  {
    var referenced, selects := ScanStatement(statement, models, fails);
    ghost var needs: Needs := map[];
    if referenced == {} {
      NothingNeeded(statement);
      LeavesAlone(statement);
      assert NeedsApply(map[], statement, models, fails);
      return statement;
    }
    r := statement;
    assert statement in ReachedFrom(statement);
    if selects != [] && !fails.rewriting {
      r := FilterImplicitFroms(statement, selects, referenced, objects);
      needs :| NeedsMatch(needs, statement, referenced) && r == Rewritten(statement, needs);
      GuardedTwice(statement, needs, referenced);
    }
    r := WithLoaderCriteria(r, referenced);
    assert NeedsApply(needs, statement, models, fails);
  }

  lemma NothingNeeded(statement: El)
    ensures NeedsMatch(map[], statement, {})
  {
    forall q | q in ReachedFrom(statement) && q.Select?
      ensures ImplicitKeys(q, {}) == []
    {
      NothingIsSoft(Candidates(q), Covered(q) + Joined(q));
    }
  }

  lemma LeavesAlone(el: El)
    ensures Guarded(el, map[], {}) == el
  {
    var none: Needs := map[];
    assert none.Keys == {};
    WhollyUnnamed(el);
    LeftAloneIff(el, none, {});
  }

  lemma {:induction false} WhollyUnnamed(el: El)
    ensures NamesNothing(el, {}, {})
    decreases el
  {
    match el
    case Leaf(_, _) =>
    case Column(_, _, _) =>
    case Literal(_) =>
    case Derived(_, q) => WhollyUnnamed(q);
    case Join(l, r, on, _) =>
      NoGuardKeys(r);
      WhollyUnnamed(l);
      WhollyUnnamed(r);
      AllWhollyUnnamed(on);
    case Target(i, on, _) =>
      NoGuardKeys(i);
      WhollyUnnamed(i);
      AllWhollyUnnamed(on);
    case Select(_, _, columns, froms, joins, criteria, _) =>
      NoModelsNoKeys(el);
      AllWhollyUnnamed(columns);
      AllWhollyUnnamed(froms);
      AllWhollyUnnamed(joins);
      AllWhollyUnnamed(criteria);
    case Output(_, e, _) => WhollyUnnamed(e);
    case Op(_, args) => AllWhollyUnnamed(args);
    case Exists(q) => WhollyUnnamed(q);
    case InQuery(p, q) =>
      WhollyUnnamed(p);
      WhollyUnnamed(q);
    case Scalar(q) => WhollyUnnamed(q);
  }

  lemma {:induction false} AllWhollyUnnamed(els: seq<El>)
    ensures NoneNamed(els, {}, {})
    decreases els
  {
    forall i | 0 <= i < |els|
      ensures NamesNothing(els[i], {}, {})
    {
      WhollyUnnamed(els[i]);
    }
  }

  // What the filter promises for: supported statements, and nothing to rewrite when the
  // walk or the rewriting raises.
  ghost predicate Preserves(statement: El, models: set<string>, fails: Failures) {
    var guarded := GuardedModels(statement, models, fails);
    && (fails.walk || fails.rewriting ==> NeedsMatch(map[], statement, guarded))
    && Supported(statement, models, guarded, SelectIds(statement))
  }

  lemma FilteredMeansLive(r: El, statement: El, models: set<string>, fails: Failures, db: Database)
    requires statement.Select? && !statement.includeDeleted
    requires IsFiltered(r, statement, models, fails) && Preserves(statement, models, fails)
    ensures Rows(r, map[], {}, Everything(db)) == Rows(statement, map[], {}, WithoutTrash(db, models))
  {
    var guarded := GuardedModels(statement, models, fails);
    var needs :| NeedsApply(needs, statement, models, fails) && r == Guarded(statement, needs, guarded);
    MeaningPreserved(statement, models, guarded, needs, db);
  }

  // The hook. A SELECT returns what it would if the trash were gone; one that asks for
  // deleted rows is left alone.
  method FilterSoftDeleted(statement: El, isSelect: bool, models: set<string>, fails: Failures, ghost objects: Objects)
    returns (r: El)
    requires isSelect ==> statement.Select? && SameObjects(statement, objects)
    ensures !isSelect || statement.includeDeleted ==> r == statement
    ensures isSelect && !statement.includeDeleted ==> IsFiltered(r, statement, models, fails)
    ensures isSelect && (statement.includeDeleted || Preserves(statement, models, fails)) ==>
              forall db: Database :: Rows(r, map[], {}, Everything(db))
                                  == Rows(statement, map[], {}, WithoutTrash(db, models))
  {
    if !isSelect || statement.includeDeleted {
      return statement;
    }
    r := ApplySoftDeleteFilter(statement, models, fails, objects);
    if Preserves(statement, models, fails) {
      forall db: Database
        ensures Rows(r, map[], {}, Everything(db)) == Rows(statement, map[], {}, WithoutTrash(db, models))
      {
        FilteredMeansLive(r, statement, models, fails, db);
      }
    }
  }
}
