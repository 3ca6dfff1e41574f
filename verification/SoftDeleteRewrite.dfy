// The rewrite of backend/app/db.py: `deleted_at IS NULL` added to the WHERE of
// every SELECT that needs it, and the loader criteria the ORM adds on top.
module SoftDeleteRewrite {
  import opened Options
  import opened Query
  import opened Sequences
  import opened SoftDelete

  // ---------- What is added ----------

  function LiveTest(k: Key): El { Op(IsNull, [Column(k, DELETED_AT, false)]) }

  function LiveTests(keys: seq<Key>): seq<El> {
    seq(|keys|, i requires 0 <= i < |keys| => LiveTest(keys[i]))
  }

  // A join target is guarded in the ON clause that attaches it: the criterion of
  // a joined tree is that of its first element, the others have ON clauses inside.
  function GuardKeys(item: El, models: set<string>): seq<Key> {
    match item
    case Leaf(k, entity) => if entity && IsSoft(k, models) then [k] else []
    case Join(l, _, _, _) => GuardKeys(l, models)
    case _ => []
  }

  function SubjectKeys(columns: seq<El>): seq<Key> {
    if columns == [] then []
    else
      var c := columns[0];
      (if c.Output? && c.subject.Some? && c.subject.value in FromKeys(c) then [c.subject.value] else [])
      + SubjectKeys(columns[1..])
  }

  function EntityKeys(froms: seq<El>): seq<Key> {
    if froms == [] then []
    else (if froms[0].Leaf? && froms[0].entity then [froms[0].key] else []) + EntityKeys(froms[1..])
  }

  function JoinLeads(froms: seq<El>, models: set<string>): seq<Key> {
    if froms == [] then []
    else (if froms[0].Join? then GuardKeys(froms[0], models) else []) + JoinLeads(froms[1..], models)
  }

  // The loader criteria of a SELECT's WHERE: its named entities, and the first
  // element of every join tree it selects from.
  function WhereKeys(q: El, models: set<string>): seq<Key>
    requires q.Select?
  {
    SoftOnce(SubjectKeys(q.columns) + EntityKeys(q.froms), Joined(q), models) + JoinLeads(q.froms, models)
  }

  // ---------- The guarded statement ----------

  type Needs = map<nat, seq<Key>>

  // `el` with the predicates of `needs` in the SELECTs it lists, by identity, and
  // with the loader criteria of `models`.
  function Guarded(el: El, needs: Needs, models: set<string>): El
    decreases el
  {
    match el
    case Leaf(_, _) => el
    case Derived(i, q) => Derived(i, Guarded(q, needs, models))
    case Join(l, r, on, isOuter) =>
      Join(Guarded(l, needs, models), Guarded(r, needs, models),
           GuardedAll(on, needs, models) + LiveTests(GuardKeys(r, models)), isOuter)
    case Target(i, on, isOuter) =>
      Target(Guarded(i, needs, models), GuardedAll(on, needs, models) + LiveTests(GuardKeys(i, models)), isOuter)
    case Select(id, opt, columns, froms, joins, criteria, counted) =>
      Select(id, opt, GuardedAll(columns, needs, models), GuardedAll(froms, needs, models),
             GuardedAll(joins, needs, models),
             GuardedAll(criteria, needs, models) + LiveTests(NeededBy(el, needs)) + LiveTests(WhereKeys(el, models)),
             counted)
    case Output(n, e, s) => Output(n, Guarded(e, needs, models), s)
    case Column(_, _, _) => el
    case Literal(_) => el
    case Op(op, args) => Op(op, GuardedAll(args, needs, models))
    case Exists(q) => Exists(Guarded(q, needs, models))
    case InQuery(p, q) => InQuery(Guarded(p, needs, models), Guarded(q, needs, models))
    case Scalar(q) => Scalar(Guarded(q, needs, models))
  }

  function GuardedAll(els: seq<El>, needs: Needs, models: set<string>): seq<El>
    decreases els
  {
    seq(|els|, i requires 0 <= i < |els| => Guarded(els[i], needs, models))
  }

  function NeededBy(q: El, needs: Needs): seq<Key>
    requires q.Select?
  {
    if q.id in needs then needs[q.id] else []
  }

  // The two halves: what `_filter_implicit_froms` does, and what the ORM does.
  function Rewritten(el: El, needs: Needs): El { Guarded(el, needs, {}) }

  function WithLoaderCriteria(el: El, models: set<string>): El { Guarded(el, map[], models) }

  // ---------- Nothing a SELECT selects from changes ----------

  lemma {:induction false} FromKeysOfSum(a: seq<El>, b: seq<El>)
    ensures FromKeysOf(a + b) == FromKeysOf(a) + FromKeysOf(b)
  {
    if a == [] {
      SumOfEmpty(b);
    } else {
      TailOfSum(a, b);
      FromKeysOfSum(a[1..], b);
    }
  }

  lemma {:induction false} GuardedTail(els: seq<El>, needs: Needs, models: set<string>)
    requires els != []
    ensures GuardedAll(els, needs, models)[1..] == GuardedAll(els[1..], needs, models)
  {
  }

  lemma {:induction false} FromKeysSame(el: El, needs: Needs, models: set<string>)
    ensures FromKeys(Guarded(el, needs, models)) == FromKeys(el)
    decreases el
  {
    match el
    case Output(_, e, _) => FromKeysSame(e, needs, models);
    case Op(_, args) => FromKeysOfSame(args, needs, models);
    case InQuery(p, _) => FromKeysSame(p, needs, models);
    case _ =>
  }

  lemma {:induction false} FromKeysOfSame(els: seq<El>, needs: Needs, models: set<string>)
    ensures FromKeysOf(GuardedAll(els, needs, models)) == FromKeysOf(els)
    decreases els
  {
    if els != [] {
      FromKeysSame(els[0], needs, models);
      GuardedTail(els, needs, models);
      FromKeysOfSame(els[1..], needs, models);
    }
  }

  lemma {:induction false} KeysSame(item: El, needs: Needs, models: set<string>)
    ensures KeysOf(Guarded(item, needs, models)) == KeysOf(item)
    ensures Lead(Guarded(item, needs, models)) == Lead(item)
    ensures forall tables :: GuardKeys(Guarded(item, needs, models), tables) == GuardKeys(item, tables)
  {
    match item
    case Join(l, r, _, _) =>
      KeysSame(l, needs, models);
      KeysSame(r, needs, models);
    case Target(i, _, _) => KeysSame(i, needs, models);
    case _ =>
  }

  lemma {:induction false} KeysOfAllSame(items: seq<El>, needs: Needs, models: set<string>)
    ensures KeysOfAll(GuardedAll(items, needs, models)) == KeysOfAll(items)
    ensures JoinedFroms(GuardedAll(items, needs, models)) == JoinedFroms(items)
    ensures EntityKeys(GuardedAll(items, needs, models)) == EntityKeys(items)
    ensures PlainFroms(GuardedAll(items, needs, models)) == PlainFroms(items)
    ensures forall tables :: JoinLeads(GuardedAll(items, needs, models), tables) == JoinLeads(items, tables)
    ensures forall outer :: ShownKeys(GuardedAll(items, needs, models), outer) == ShownKeys(items, outer)
  {
    if items != [] {
      KeysSame(items[0], needs, models);
      GuardedTail(items, needs, models);
      KeysOfAllSame(items[1..], needs, models);
    }
  }

  lemma {:induction false} SubjectKeysSame(columns: seq<El>, needs: Needs, models: set<string>)
    ensures SubjectKeys(GuardedAll(columns, needs, models)) == SubjectKeys(columns)
  {
    if columns != [] {
      FromKeysSame(columns[0], needs, models);
      GuardedTail(columns, needs, models);
      SubjectKeysSame(columns[1..], needs, models);
    }
  }

  lemma WhereKeysSame(q: El, needs: Needs, models: set<string>, tables: set<string>)
    requires q.Select?
    ensures WhereKeys(Guarded(q, needs, models), tables) == WhereKeys(q, tables)
    ensures Joined(Guarded(q, needs, models)) == Joined(q)
  {
    SubjectKeysSame(q.columns, needs, models);
    KeysOfAllSame(q.froms, needs, models);
    KeysOfAllSame(q.joins, needs, models);
  }

  // ---------- The two halves compose ----------

  lemma {:induction false} NothingIsSoft(keys: seq<Key>, skip: set<Key>)
    ensures SoftOnce(keys, skip, {}) == []
  {
    if keys != [] {
      NothingIsSoft(keys[1..], skip);
    }
  }

  lemma NoModelsNoKeys(q: El)
    requires q.Select?
    ensures WhereKeys(q, {}) == []
  {
    NothingIsSoft(SubjectKeys(q.columns) + EntityKeys(q.froms), Joined(q));
    NoJoinLeads(q.froms);
  }

  lemma NoGuardKeys(item: El)
    ensures GuardKeys(item, {}) == []
  {
  }

  lemma {:induction false} NoJoinLeads(froms: seq<El>)
    ensures JoinLeads(froms, {}) == []
  {
    if froms != [] {
      NoGuardKeys(froms[0]);
      NoJoinLeads(froms[1..]);
    }
  }

  lemma GuardedSum(a: seq<El>, b: seq<El>, needs: Needs, models: set<string>)
    ensures GuardedAll(a + b, needs, models) == GuardedAll(a, needs, models) + GuardedAll(b, needs, models)
  {
  }

  lemma GuardedTests(keys: seq<Key>, needs: Needs, models: set<string>)
    ensures GuardedAll(LiveTests(keys), needs, models) == LiveTests(keys)
  {
    forall i | 0 <= i < |keys|
      ensures Guarded(LiveTest(keys[i]), needs, models) == LiveTest(keys[i])
    {
      var test := LiveTest(keys[i]);
      assert GuardedAll(test.args, needs, models) == test.args;
    }
  }

  lemma OnTwice(on: seq<El>, item: El, needs: Needs, models: set<string>)
    requires GuardedAll(GuardedAll(on, needs, {}), map[], models) == GuardedAll(on, needs, models)
    ensures GuardedAll(GuardedAll(on, needs, {}) + LiveTests(GuardKeys(item, {})), map[], models) +
            LiveTests(GuardKeys(Guarded(item, needs, {}), models)) ==
            GuardedAll(on, needs, models) + LiveTests(GuardKeys(item, models))
  {
    NoGuardKeys(item);
    KeysSame(item, needs, {});
    assert LiveTests(GuardKeys(item, {})) == [];
    SumOfEmpty(GuardedAll(on, needs, {}));
  }

  // Adding the WHERE-only predicates first and the loader criteria second adds both,
  // once each: neither pass takes the other's predicates for something to guard.
  lemma {:induction false} GuardedTwice(el: El, needs: Needs, models: set<string>)
    ensures WithLoaderCriteria(Rewritten(el, needs), models) == Guarded(el, needs, models)
    decreases el
  {
    match el
    case Leaf(_, _) =>
    case Column(_, _, _) =>
    case Literal(_) =>
    case Derived(_, q) => GuardedTwice(q, needs, models);
    case Join(l, r, on, _) =>
      GuardedTwice(l, needs, models);
      GuardedTwice(r, needs, models);
      GuardedAllTwice(on, needs, models);
      OnTwice(on, r, needs, models);
    case Target(i, on, _) =>
      GuardedTwice(i, needs, models);
      GuardedAllTwice(on, needs, models);
      OnTwice(on, i, needs, models);
    case Select(_, _, _, _, _, _, _) => GuardedSelectTwice(el, needs, models);
    case Output(_, e, _) => GuardedTwice(e, needs, models);
    case Op(_, args) => GuardedAllTwice(args, needs, models);
    case Exists(q) => GuardedTwice(q, needs, models);
    case InQuery(p, q) =>
      GuardedTwice(p, needs, models);
      GuardedTwice(q, needs, models);
    case Scalar(q) => GuardedTwice(q, needs, models);
  }

  lemma {:induction false} GuardedAllTwice(els: seq<El>, needs: Needs, models: set<string>)
    ensures GuardedAll(GuardedAll(els, needs, {}), map[], models) == GuardedAll(els, needs, models)
    decreases els
  {
    forall i | 0 <= i < |els| {
      GuardedTwice(els[i], needs, models);
    }
  }

  lemma {:induction false} GuardedSelectTwice(q: El, needs: Needs, models: set<string>)
    requires q.Select?
    ensures WithLoaderCriteria(Rewritten(q, needs), models) == Guarded(q, needs, models)
    decreases q, 0
  {
    GuardedAllTwice(q.columns, needs, models);
    GuardedAllTwice(q.froms, needs, models);
    GuardedAllTwice(q.joins, needs, models);
    GuardedAllTwice(q.criteria, needs, models);
    NoModelsNoKeys(q);
    var kept, added := GuardedAll(q.criteria, needs, {}), LiveTests(NeededBy(q, needs));
    assert Rewritten(q, needs).criteria == kept + added;
    GuardedSum(kept, added, map[], models);
    GuardedTests(NeededBy(q, needs), map[], models);
    WhereKeysSame(q, needs, {}, models);
    var once := GuardedAll(q.criteria, needs, models) + added;
    SumOfEmpty(once);
  }

  // ---------- Objects ----------

  // The SELECTs of a statement are objects: one identity, one SELECT, however
  // often the statement mentions it.
  type Objects = map<nat, El>

  ghost predicate SameObjects(el: El, objects: Objects)
    decreases el
  {
    match el
    case Leaf(_, _) => true
    case Derived(_, q) => SameObjects(q, objects)
    case Join(l, r, on, _) => SameObjects(l, objects) && SameObjects(r, objects) && AllSameObjects(on, objects)
    case Target(i, on, _) => SameObjects(i, objects) && AllSameObjects(on, objects)
    case Select(id, _, columns, froms, joins, criteria, _) =>
      && id in objects && objects[id] == el
      && AllSameObjects(columns, objects) && AllSameObjects(froms, objects)
      && AllSameObjects(joins, objects) && AllSameObjects(criteria, objects)
    case Output(_, e, _) => SameObjects(e, objects)
    case Column(_, _, _) => true
    case Literal(_) => true
    case Op(_, args) => AllSameObjects(args, objects)
    case Exists(q) => SameObjects(q, objects)
    case InQuery(p, q) => SameObjects(p, objects) && SameObjects(q, objects)
    case Scalar(q) => SameObjects(q, objects)
  }

  ghost predicate AllSameObjects(els: seq<El>, objects: Objects)
    decreases els
  {
    forall i | 0 <= i < |els| :: SameObjects(els[i], objects)
  }

  // ---------- `_filter_implicit_froms` ----------

  // `done` holds finished rewrites by identity.
  ghost predicate Memo(done: map<nat, El>, needs: Needs, objects: Objects) {
    forall id | id in done :: id in objects && done[id] == Rewritten(objects[id], needs)
  }

  // A copy of `el` in which everything below it is rewritten, and `el` itself is not.
  function CopyOf(el: El, needs: Needs): El {
    if el.Select? then
      Select(el.id, el.includeDeleted, GuardedAll(el.columns, needs, {}), GuardedAll(el.froms, needs, {}),
             GuardedAll(el.joins, needs, {}), GuardedAll(el.criteria, needs, {}), el.counted)
    else Rewritten(el, needs)
  }

  lemma CopyThenTests(q: El, needs: Needs)
    requires q.Select?
    ensures Rewritten(q, needs) ==
            var copy := CopyOf(q, needs); copy.(criteria := copy.criteria + LiveTests(NeededBy(q, needs)))
    ensures q.id !in needs ==> Rewritten(q, needs) == CopyOf(q, needs)
  {
    NoModelsNoKeys(q);
    SumOfEmpty(CopyOf(q, needs).criteria);
    SumOfEmpty(CopyOf(q, needs).criteria + LiveTests(NeededBy(q, needs)));
  }

  // `rewrite`: one rewrite an object, innermost SELECTs first.
  method Rewrite(q: El, needs: Needs, done: map<nat, El>, ghost objects: Objects)
    returns (r: El, done': map<nat, El>)
    requires q.Select? && SameObjects(q, objects) && Memo(done, needs, objects)
    ensures r == Rewritten(q, needs) && Memo(done', needs, objects)
    decreases q, 2
  {
    if q.id in done {
      return done[q.id], done;
    }
    r, done' := Copy(q, needs, done, objects);
    CopyThenTests(q, needs);
    if q.id in needs {
      r := r.(criteria := r.criteria + LiveTests(needs[q.id]));
    }
    done' := done'[q.id := r];
  }

  // `replacement_traverse`: a child that needs predicates is replaced by its own
  // rewrite and not descended into again.
  method Replace(el: El, needs: Needs, done: map<nat, El>, ghost objects: Objects)
    returns (r: El, done': map<nat, El>)
    requires SameObjects(el, objects) && Memo(done, needs, objects)
    ensures r == Rewritten(el, needs) && Memo(done', needs, objects)
    decreases el, 3
  {
    if el.Select? && el.id in needs {
      r, done' := Rewrite(el, needs, done, objects);
    } else {
      r, done' := Copy(el, needs, done, objects);
      if el.Select? {
        CopyThenTests(el, needs);
      }
    }
  }

  method ReplaceAll(els: seq<El>, needs: Needs, done: map<nat, El>, ghost objects: Objects)
    returns (rs: seq<El>, done': map<nat, El>)
    requires AllSameObjects(els, objects) && Memo(done, needs, objects)
    ensures rs == GuardedAll(els, needs, {}) && Memo(done', needs, objects)
    decreases els
  {
    rs, done' := [], done;
    for i := 0 to |els|
      invariant |rs| == i && forall j | 0 <= j < i :: rs[j] == Rewritten(els[j], needs)
      invariant Memo(done', needs, objects)
    {
      var r: El;
      r, done' := Replace(els[i], needs, done', objects);
      rs := rs + [r];
    }
  }

  method Copy(el: El, needs: Needs, done: map<nat, El>, ghost objects: Objects)
    returns (r: El, done': map<nat, El>)
    requires SameObjects(el, objects) && Memo(done, needs, objects)
    ensures r == CopyOf(el, needs) && Memo(done', needs, objects)
    decreases el, 1
  {
    done' := done;
    match el {
      case Leaf(_, _) => r := el;
      case Column(_, _, _) => r := el;
      case Literal(_) => r := el;
      case Derived(i, q) =>
        var q';
        q', done' := Replace(q, needs, done', objects);
        r := Derived(i, q');
      case Join(l, right, on, isOuter) =>
        var l', right', on';
        l', done' := Replace(l, needs, done', objects);
        right', done' := Replace(right, needs, done', objects);
        on', done' := ReplaceAll(on, needs, done', objects);
        NoGuardKeys(right);
        SumOfEmpty(on');
        r := Join(l', right', on', isOuter);
      case Target(i, on, isOuter) =>
        var i', on';
        i', done' := Replace(i, needs, done', objects);
        on', done' := ReplaceAll(on, needs, done', objects);
        NoGuardKeys(i);
        SumOfEmpty(on');
        r := Target(i', on', isOuter);
      case Select(id, opt, columns, froms, joins, criteria, counted) =>
        var columns', froms', joins', criteria';
        columns', done' := ReplaceAll(columns, needs, done', objects);
        froms', done' := ReplaceAll(froms, needs, done', objects);
        joins', done' := ReplaceAll(joins, needs, done', objects);
        criteria', done' := ReplaceAll(criteria, needs, done', objects);
        r := Select(id, opt, columns', froms', joins', criteria', counted);
      case Output(n, e, s) =>
        var e';
        e', done' := Replace(e, needs, done', objects);
        r := Output(n, e', s);
      case Op(op, args) =>
        var args';
        args', done' := ReplaceAll(args, needs, done', objects);
        r := Op(op, args');
      case Exists(q) =>
        var q';
        q', done' := Replace(q, needs, done', objects);
        r := Exists(q');
      case InQuery(p, q) =>
        var p', q';
        p', done' := Replace(p, needs, done', objects);
        q', done' := Replace(q, needs, done', objects);
        r := InQuery(p', q');
      case Scalar(q) =>
        var q';
        q', done' := Replace(q, needs, done', objects);
        r := Scalar(q');
    }
  }
}
