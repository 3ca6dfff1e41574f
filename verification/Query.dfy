// A SELECT statement as the tree of elements the ORM keeps it in, and what it
// means: a list of rows, computed from the rows of the tables.
module Query {
  import opened Options

  // SQL values; a truth value is a Bool, and Null when it is unknown.
  datatype Value = Null | Bool(b: bool) | Int(n: int)

  type Row = map<string, Value>
  type Database = map<string, seq<Row>>

  const DELETED_AT := "deleted_at"

  // What makes two FROM elements the same one: a table is its name, an alias
  // and a derived table are objects of their own.
  datatype Key = TableKey(table: string) | AliasKey(id: nat, table: string) | DerivedKey(id: nat)

  datatype Operator = Eq | Less | Plus | And | Or | Not | IsNull

  datatype El =
    // FROM elements. `entity` says that the element names a mapped class.
    | Leaf(key: Key, entity: bool)
    | Derived(derivedId: nat, query: El)
    | Join(left: El, right: El, on: seq<El>, isOuter: bool)
    // One `.join()` step: it attaches `item` to everything before it.
    | Target(item: El, on: seq<El>, isOuter: bool)
    // A SELECT. `id` is the object's identity, `counted` is SELECT count(*).
    | Select(id: nat, includeDeleted: bool, columns: seq<El>, froms: seq<El>, joins: seq<El>,
             criteria: seq<El>, counted: bool)
    // Expressions. `subject` is the one entity a selected column belongs to.
    | Output(name: string, expr: El, subject: Option<Key>)
    | Column(key: Key, name: string, entity: bool)
    | Literal(value: Value)
    | Op(op: Operator, args: seq<El>)
    | Exists(query: El)
    | InQuery(probe: El, query: El)
    | Scalar(query: El)

  // ---------- FROM inference ----------

  // The FROM elements an expression brings with it. A subquery brings none.
  function FromKeys(el: El): seq<Key>
    decreases el, 1
  {
    match el
    case Column(k, _, _) => [k]
    case Output(_, e, _) => FromKeys(e)
    case Op(_, args) => FromKeysOf(args)
    case InQuery(p, _) => FromKeys(p)
    case _ => []
  }

  function FromKeysOf(els: seq<El>): seq<Key>
    decreases els, 0
  {
    if els == [] then [] else FromKeys(els[0]) + FromKeysOf(els[1..])
  }

  // Every key an explicit FROM element or join target binds.
  function KeysOf(item: El): set<Key> {
    match item
    case Leaf(k, _) => {k}
    case Derived(i, _) => {DerivedKey(i)}
    case Join(l, r, _, _) => KeysOf(l) + KeysOf(r)
    case Target(i, _, _) => KeysOf(i)
    case _ => {}
  }

  function KeysOfAll(items: seq<El>): set<Key> {
    if items == [] then {} else KeysOf(items[0]) + KeysOfAll(items[1..])
  }

  // The first element of a join tree: the one no ON clause of the tree guards.
  function Lead(item: El): set<Key> {
    match item
    case Leaf(k, _) => {k}
    case Derived(i, _) => {DerivedKey(i)}
    case Join(l, _, _, _) => Lead(l)
    case _ => {}
  }

  // An explicit FROM is left to the enclosing SELECT when that one shows it.
  predicate Correlated(item: El, outer: set<Key>) {
    match item
    case Leaf(k, _) => k in outer
    case Derived(i, _) => DerivedKey(i) in outer
    case _ => false
  }

  // The first occurrence of every key that is not in `skip` and is no derived table.
  function Distinct(keys: seq<Key>, skip: set<Key>): seq<Key> {
    if keys == [] then []
    else if keys[0] in skip || keys[0].DerivedKey? then Distinct(keys[1..], skip)
    else [keys[0]] + Distinct(keys[1..], skip + {keys[0]})
  }

  ghost predicate NoRepeats(keys: seq<Key>) {
    forall i, j | 0 <= i < j < |keys| :: keys[i] != keys[j]
  }

  // Tables a SELECT reaches through its columns and criteria alone.
  function InferredKeys(q: El, outer: set<Key>): seq<Key>
    requires q.Select?
  {
    Distinct(FromKeysOf(q.columns) + FromKeysOf(q.criteria),
             KeysOfAll(q.froms) + KeysOfAll(q.joins) + outer)
  }

  function ShownKeys(items: seq<El>, outer: set<Key>): set<Key> {
    if items == [] then {}
    else (if Correlated(items[0], outer) then {} else KeysOf(items[0])) + ShownKeys(items[1..], outer)
  }

  // The FROM list of a SELECT nested in one that shows `outer`.
  function DisplayKeys(q: El, outer: set<Key>): set<Key>
    requires q.Select?
  {
    ShownKeys(q.froms, outer) + KeysOfAll(q.joins) + (set k | k in InferredKeys(q, outer))
  }

  // ---------- Values ----------

  type Env = map<Key, Row>

  // `db` is what an ordinary SELECT reads; `full` is every row there is.
  datatype Context = Context(db: Database, full: Database)

  function Field(env: Env, k: Key, name: string): Value {
    if k in env && name in env[k] then env[k][name] else Null
  }

  function Arg(vs: seq<Value>, i: nat): Value { if i < |vs| then vs[i] else Null }

  function Apply(op: Operator, vs: seq<Value>): Value {
    var x, y := Arg(vs, 0), Arg(vs, 1);
    match op
    case IsNull => Bool(x.Null?)
    case Not => if x.Bool? then Bool(!x.b) else Null
    case And =>
      if x == Bool(false) || y == Bool(false) then Bool(false)
      else if x.Bool? && y.Bool? then Bool(true) else Null
    case Or =>
      if x == Bool(true) || y == Bool(true) then Bool(true)
      else if x.Bool? && y.Bool? then Bool(false) else Null
    case Eq => if x.Null? || y.Null? then Null else Bool(x == y)
    case Less => if x.Int? && y.Int? then Bool(x.n < y.n) else Null
    case Plus => if x.Int? && y.Int? then Int(x.n + y.n) else Null
  }

  function First(rows: seq<seq<Value>>): Value {
    if rows == [] then Null else Arg(rows[0], 0)
  }

  // `x IN (rows)`, unknown when only a NULL stands in the way.
  function Member(x: Value, rows: seq<seq<Value>>): Value {
    if rows == [] then Bool(false)
    else if x.Null? then Null
    else if exists i | 0 <= i < |rows| :: Arg(rows[i], 0) == x then Bool(true)
    else if exists i | 0 <= i < |rows| :: Arg(rows[i], 0).Null? then Null
    else Bool(false)
  }

  // ---------- Rows ----------

  function Table(k: Key, db: Database): seq<Row> {
    if k.DerivedKey? || k.table !in db then [] else db[k.table]
  }

  function BindAll(k: Key, rows: seq<Row>, env: Env): seq<Env> {
    if rows == [] then [] else [env[k := rows[0]]] + BindAll(k, rows[1..], env)
  }

  function ScanEach(k: Key, envs: seq<Env>, db: Database): seq<Env> {
    if envs == [] then [] else BindAll(k, Table(k, db), envs[0]) + ScanEach(k, envs[1..], db)
  }

  function ScanAll(keys: seq<Key>, envs: seq<Env>, db: Database): seq<Env> {
    if keys == [] then envs else ScanAll(keys[1..], ScanEach(keys[0], envs, db), db)
  }

  function Names(columns: seq<El>): seq<string> {
    seq(|columns|, i requires 0 <= i < |columns| => if columns[i].Output? then columns[i].name else "")
  }

  function NamedRow(names: seq<string>, vs: seq<Value>): Row {
    map n | n in names :: NamedValue(names, vs, n)
  }

  function NamedValue(names: seq<string>, vs: seq<Value>, n: string): Value {
    if names == [] || vs == [] then Null
    else if names[0] == n then vs[0] else NamedValue(names[1..], vs[1..], n)
  }

  function NamedRows(names: seq<string>, rows: seq<seq<Value>>): seq<Row> {
    seq(|rows|, i requires 0 <= i < |rows| => NamedRow(names, rows[i]))
  }

  // The row an outer join makes up when nothing matches: every column is NULL.
  function NullExtend(env: Env, keys: set<Key>): Env {
    env + map k | k in keys :: map[]
  }

  function Attached(j: El): El
    requires j.Join? || j.Target?
  {
    if j.Join? then j.right else j.item
  }

  function Eval(el: El, env: Env, shown: set<Key>, c: Context): Value
    decreases el, 3, 0
  {
    match el
    case Column(k, n, _) => Field(env, k, n)
    case Literal(v) => v
    case Output(_, e, _) => Eval(e, env, shown, c)
    case Op(op, args) => Apply(op, EvalAll(args, env, shown, c))
    case Exists(q) => Bool(Rows(q, env, shown, c) != [])
    case InQuery(p, q) => Member(Eval(p, env, shown, c), Rows(q, env, shown, c))
    case Scalar(q) => First(Rows(q, env, shown, c))
    case _ => Null
  }

  function EvalAll(els: seq<El>, env: Env, shown: set<Key>, c: Context): seq<Value>
    decreases els, 0, 0
  {
    seq(|els|, i requires 0 <= i < |els| => Eval(els[i], env, shown, c))
  }

  predicate Holds(els: seq<El>, env: Env, shown: set<Key>, c: Context)
    decreases els, 0, 0
  {
    forall i | 0 <= i < |els| :: Eval(els[i], env, shown, c) == Bool(true)
  }

  function Keep(els: seq<El>, envs: seq<Env>, shown: set<Key>, c: Context): seq<Env>
    decreases els, 1, |envs|
  {
    if envs == [] then []
    else (if Holds(els, envs[0], shown, c) then [envs[0]] else []) + Keep(els, envs[1..], shown, c)
  }

  function Project(columns: seq<El>, envs: seq<Env>, shown: set<Key>, c: Context): seq<seq<Value>>
    decreases columns, 1, |envs|
  {
    if envs == [] then []
    else [EvalAll(columns, envs[0], shown, c)] + Project(columns, envs[1..], shown, c)
  }

  // All the ways to extend `env` with one row of every element of `item`.
  function FromEnvs(item: El, env: Env, shown: set<Key>, c: Context): seq<Env>
    decreases item, 3, 0
  {
    match item
    case Leaf(k, _) => BindAll(k, Table(k, c.db), env)
    case Derived(i, q) =>
      if q.Select? then BindAll(DerivedKey(i), NamedRows(Names(q.columns), Rows(q, map[], {}, c)), env) else []
    case Join(l, _, _, _) => JoinEach(item, FromEnvs(l, env, shown, c), shown, c)
    case _ => []
  }

  function Matches(j: El, env: Env, shown: set<Key>, c: Context): seq<Env>
    requires j.Join? || j.Target?
    decreases j, 0, 0
  {
    var found := Keep(j.on, FromEnvs(Attached(j), env, shown, c), shown, c);
    if found == [] && j.isOuter then [NullExtend(env, KeysOf(Attached(j)))] else found
  }

  function JoinEach(j: El, envs: seq<Env>, shown: set<Key>, c: Context): seq<Env>
    requires j.Join? || j.Target?
    decreases j, 1, |envs|
  {
    if envs == [] then [] else Matches(j, envs[0], shown, c) + JoinEach(j, envs[1..], shown, c)
  }

  function JoinAll(joins: seq<El>, envs: seq<Env>, shown: set<Key>, c: Context): seq<Env>
    decreases joins, 2, 0
  {
    if joins == [] then envs
    else JoinAll(joins[1..], if joins[0].Target? then JoinEach(joins[0], envs, shown, c) else envs, shown, c)
  }

  function CrossEach(item: El, envs: seq<Env>, shown: set<Key>, c: Context): seq<Env>
    decreases item, 4, |envs|
  {
    if envs == [] then [] else FromEnvs(item, envs[0], shown, c) + CrossEach(item, envs[1..], shown, c)
  }

  function Product(froms: seq<El>, envs: seq<Env>, outer: set<Key>, shown: set<Key>, c: Context): seq<Env>
    decreases froms, 2, 0
  {
    if froms == [] then envs
    else
      Product(froms[1..], if Correlated(froms[0], outer) then envs else CrossEach(froms[0], envs, shown, c),
              outer, shown, c)
  }

  // The rows of SELECT `q` inside a SELECT that shows `outer` and is at row `env`.
  function Rows(q: El, env: Env, outer: set<Key>, c: Context): seq<seq<Value>>
    decreases q, 2, 0
  {
    if !q.Select? then []
    else
      var d := if q.includeDeleted then c.(db := c.full) else c;
      var shown := DisplayKeys(q, outer);
      var roots := ScanAll(InferredKeys(q, outer), Product(q.froms, [env], outer, shown, d), d.db);
      var kept := Keep(q.criteria, JoinAll(q.joins, roots, shown, d), shown, d);
      if q.counted then [[Int(|kept|)]] else Project(q.columns, kept, shown, d)
  }
}
