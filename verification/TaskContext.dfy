// The logging context of a Celery worker, bound before and restored after each task
// (backend/app/celery_app.py), over any nesting of tasks applied eagerly.
module TaskContext {
  import opened Options

  // What a context variable holds; structlog keeps "nothing bound" apart from None.
  datatype Slot = Unbound | Bound(value: Option<string>)

  datatype Context = Context(requestId: Slot, task: Slot)

  // `_TASK_CONTEXT_TOKENS`: a token is what its binding replaced.
  datatype State = State(context: Context, tokens: map<string, Context>)

  datatype Event = Prerun(id: Option<string>, name: Option<string>) | Postrun(id: Option<string>)

  class Worker {
    var context: Context
    var tokens: map<string, Context>

    constructor ()
      ensures State(context, tokens) == State(Context(Unbound, Unbound), map[])
    {
      context, tokens := Context(Unbound, Unbound), map[];
    }

    method BindTaskRequestId(id: Option<string>, name: Option<string>)
      modifies this
      ensures State(context, tokens) == Step(old(State(context, tokens)), Prerun(id, name))
    {
      var replaced := context;
      context := Context(Bound(id), Bound(name));
      if id.Some? {
        tokens := tokens[id.value := replaced];
      }
    }

    method UnbindTaskRequestId(id: Option<string>)
      modifies this
      ensures State(context, tokens) == Step(old(State(context, tokens)), Postrun(id))
    {
      if id.Some? && id.value in tokens {
        var replaced := tokens[id.value];
        tokens := tokens - {id.value};
        context := replaced;
      }
    }

    method Deliver(events: seq<Event>)
      modifies this
      ensures State(context, tokens) == Run(old(State(context, tokens)), events)
    {
      for i := 0 to |events|
        invariant State(context, tokens) == Run(old(State(context, tokens)), events[..i])
      {
        assert events[..i + 1][..i] == events[..i];
        match events[i]
        case Prerun(id, name) => BindTaskRequestId(id, name);
        case Postrun(id) => UnbindTaskRequestId(id);
      }
      assert events[..|events|] == events;
    }
  }

  function Step(s: State, e: Event): State {
    match e
    case Prerun(id, name) =>
      State(Context(Bound(id), Bound(name)), if id.Some? then s.tokens[id.value := s.context] else s.tokens)
    case Postrun(id) =>
      if id.Some? && id.value in s.tokens then State(s.tokens[id.value], s.tokens - {id.value}) else s
  }

  function Run(s: State, events: seq<Event>): State {
    if events == [] then s else Step(Run(s, events[..|events| - 1]), events[|events| - 1])
  }

  // ---------- Nested tasks ----------

  // Tasks one after the other, each with the tasks applied inside it.
  datatype Tasks = Nothing | Task(id: Option<string>, name: Option<string>, inner: Tasks, next: Tasks)

  function Events(t: Tasks): seq<Event> {
    match t
    case Nothing => []
    case Task(id, name, inner, next) => [Prerun(id, name)] + Events(inner) + [Postrun(id)] + Events(next)
  }

  function Ids(t: Tasks): set<string> {
    match t
    case Nothing => {}
    case Task(id, _, inner, next) => (if id.Some? then {id.value} else {}) + Ids(inner) + Ids(next)
  }

  // A task whose Postrun finds its token: it has an id, and no task inside it took it.
  predicate Undone(id: Option<string>, inner: Tasks) { id.Some? && id.value !in Ids(inner) }

  // The outermost tasks are; what those inside them do does not matter.
  predicate AllUndone(t: Tasks) {
    match t
    case Nothing => true
    case Task(id, _, inner, next) => Undone(id, inner) && AllUndone(next)
  }

  // What the last outermost task that is not undone leaves behind: its own binding, or
  // what such a task inside it left.
  function Leftover(t: Tasks): Option<Context> {
    match t
    case Nothing => None
    case Task(id, name, inner, next) =>
      if Leftover(next).Some? then Leftover(next)
      else if Undone(id, inner) then None
      else Some(if Leftover(inner).Some? then Leftover(inner).value else Context(Bound(id), Bound(name)))
  }

  function After(context: Context, t: Tasks): Context {
    if Leftover(t).Some? then Leftover(t).value else context
  }

  lemma {:induction false} RunSum(s: State, a: seq<Event>, b: seq<Event>)
    ensures Run(s, a + b) == Run(Run(s, a), b)
  {
    if b == [] {
      assert a + b == a;
    } else {
      assert (a + b)[..|a + b| - 1] == a + b[..|b| - 1];
      RunSum(s, a, b[..|b| - 1]);
    }
  }

  lemma RunOne(s: State, e: Event)
    ensures Run(s, [e]) == Step(s, e)
  {
    assert [e][..0] == [];
  }

  lemma RunTask(s: State, id: Option<string>, name: Option<string>, inner: Tasks, next: Tasks)
    ensures Run(s, Events(Task(id, name, inner, next))) ==
            Run(Step(Run(Step(s, Prerun(id, name)), Events(inner)), Postrun(id)), Events(next))
  {
    RunSum(s, [Prerun(id, name)] + Events(inner) + [Postrun(id)], Events(next));
    RunSum(s, [Prerun(id, name)] + Events(inner), [Postrun(id)]);
    RunSum(s, [Prerun(id, name)], Events(inner));
    RunOne(s, Prerun(id, name));
    RunOne(Run(Step(s, Prerun(id, name)), Events(inner)), Postrun(id));
  }

  lemma PopToken(tokens: map<string, Context>, id: string, replaced: Context, ids: set<string>)
    ensures id !in ids ==> id in tokens[id := replaced] - ids && (tokens[id := replaced] - ids)[id] == replaced
    ensures id !in ids ==> tokens[id := replaced] - ids - {id} == tokens - ids - {id}
    ensures id in ids ==> id !in tokens[id := replaced] - ids && tokens[id := replaced] - ids == tokens - ids - {id}
  {
  }

  // How the Postrun of a task ends what its Prerun began, when the tasks inside left
  // `context` and took the tokens of `ids`.
  lemma PairedSteps(s: State, id: Option<string>, name: Option<string>, context: Context, ids: set<string>)
    ensures var bound := Step(s, Prerun(id, name));
            Step(State(context, bound.tokens - ids), Postrun(id)) ==
            State(if id.Some? && id.value !in ids then s.context else context,
                  s.tokens - ids - (if id.Some? then {id.value} else {}))
  {
    if id.Some? {
      PopToken(s.tokens, id.value, s.context, ids);
    } else {
      assert s.tokens - ids - {} == s.tokens - ids;
    }
  }

  lemma TakeTokens(tokens: map<string, Context>, a: set<string>, b: set<string>, c: set<string>)
    ensures tokens - a - b - c == tokens - (b + a + c)
  {
  }

  // What any tasks do, whatever their ids: one context is left, and no token of theirs.
  lemma {:induction false} TasksLeave(s: State, t: Tasks)
    ensures Run(s, Events(t)) == State(After(s.context, t), s.tokens - Ids(t))
    decreases t
  {
    match t
    case Nothing => TakeTokens(s.tokens, {}, {}, {});
    case Task(id, name, inner, next) =>
      var bound := Step(s, Prerun(id, name));
      RunTask(s, id, name, inner, next);
      TasksLeave(bound, inner);
      PairedSteps(s, id, name, After(bound.context, inner), Ids(inner));
      var own := if id.Some? then {id.value} else {};
      TasksLeave(Step(Run(bound, Events(inner)), Postrun(id)), next);
      TakeTokens(s.tokens, Ids(inner), own, Ids(next));
  }

  // While a task runs, its own id and name are bound, also behind tasks inside it that
  // were undone.
  lemma BoundWhileRunning(s: State, id: Option<string>, name: Option<string>, inner: Tasks)
    requires AllUndone(inner)
    ensures Run(s, [Prerun(id, name)] + Events(inner)).context == Context(Bound(id), Bound(name))
  {
    RunSum(s, [Prerun(id, name)], Events(inner));
    RunOne(s, Prerun(id, name));
    TasksLeave(Step(s, Prerun(id, name)), inner);
    NothingIsLeftOver(inner);
  }

  lemma {:induction false} NothingIsLeftOver(t: Tasks)
    ensures Leftover(t).None? <==> AllUndone(t)
  {
    if t.Task? {
      NothingIsLeftOver(t.next);
    }
  }

  // The context is given back when every outermost task finds its token again.
  lemma ContextIsRestored(s: State, t: Tasks)
    requires AllUndone(t)
    ensures Run(s, Events(t)) == State(s.context, s.tokens - Ids(t))
  {
    TasksLeave(s, t);
    NothingIsLeftOver(t);
  }

  // For any tasks: whatever the context is, it is given back, exactly when the outermost
  // tasks are all undone.
  lemma ContextIsRestoredIff(t: Tasks)
    ensures AllUndone(t) <==> forall s :: Run(s, Events(t)).context == s.context
  {
    NothingIsLeftOver(t);
    if AllUndone(t) {
      forall s
        ensures Run(s, Events(t)).context == s.context
      {
        ContextIsRestored(s, t);
      }
    } else {
      var kept := Leftover(t).value;
      var s := State(if kept.task == Unbound then kept.(task := Bound(None)) else kept.(task := Unbound), map[]);
      TasksLeave(s, t);
      assert Run(s, Events(t)).context != s.context;
    }
  }

  // For any tasks and any state: context and tokens are as before exactly when no task
  // had the id of an active one, and what is left over, if anything, is that context.
  lemma NothingIsLeftIff(s: State, t: Tasks)
    ensures Run(s, Events(t)) == s <==>
              Ids(t) !! s.tokens.Keys && (AllUndone(t) || Leftover(t) == Some(s.context))
  {
    TasksLeave(s, t);
    NothingIsLeftOver(t);
    if Ids(t) !! s.tokens.Keys {
      assert s.tokens - Ids(t) == s.tokens;
    } else {
      var id :| id in Ids(t) && id in s.tokens;
      assert id !in s.tokens - Ids(t);
    }
  }

  // One task, with whatever tasks inside it: its binding is undone exactly when it has an
  // id that is neither active nor used again inside - or when what is left is what was.
  lemma OneTaskIff(s: State, id: Option<string>, name: Option<string>, inner: Tasks)
    ensures Run(s, Events(Task(id, name, inner, Nothing))) == s <==>
              Ids(Task(id, name, inner, Nothing)) !! s.tokens.Keys &&
              (Undone(id, inner) || After(Context(Bound(id), Bound(name)), inner) == s.context)
  {
    NothingIsLeftIff(s, Task(id, name, inner, Nothing));
  }

  // A task applied inside another of its id takes that one's token.
  lemma ReusedIdLeaks(s: State, id: string, name: Option<string>)
    ensures var again := Task(Some(id), name, Task(Some(id), name, Nothing, Nothing), Nothing);
            Run(s, Events(again)).context == Context(Bound(Some(id)), Bound(name))
  {
    var inner := Task(Some(id), name, Nothing, Nothing);
    assert Leftover(Nothing).None? && Ids(Nothing) == {};
    assert Leftover(inner).None? && id in Ids(inner);
    TasksLeave(s, Task(Some(id), name, inner, Nothing));
  }

  // A task without an id leaves its binding, but not when it is inside one that has one.
  lemma MissingIdLeaks(s: State, id: string, name: Option<string>, other: Option<string>)
    ensures var alone := Task(None, name, Nothing, Nothing);
            && Run(s, Events(alone)).context == Context(Bound(None), Bound(name))
            && Run(s, Events(Task(Some(id), other, alone, Nothing))).context == s.context
  {
    var alone := Task(None, name, Nothing, Nothing);
    TasksLeave(s, alone);
    ContextIsRestored(s, Task(Some(id), other, alone, Nothing));
  }
}
