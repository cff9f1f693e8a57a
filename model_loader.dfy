/**
 * The resilient model loader: `_resolve_global`, `_allowlist_globals`,
 * `_attempt_load_pipeline` and `get_pipeline`.
 *
 * The foreign calls (the pretrained-pipeline constructor, the module importer,
 * attribute lookup) are oracle functions held in `Oracles`. The torch
 * safe-globals allow-list, which the loader extends and never rolls back, is
 * the state of a `Runtime` object.
 */
module ModelLoader {
  import opened Wrappers
  import GlobalNames
  import opened Seqs

  /** A Python object reached through the import machinery (a class or function), by identity. */
  datatype PyObject = PyObject(id: nat)

  /** An imported module, by identity. */
  datatype ModuleRef = ModuleRef(id: nat)

  /** A loaded diarization pipeline, by identity. */
  datatype Pipeline = Pipeline(id: nat)

  /** A raised exception; `message` is `str(exc)`. */
  datatype Exception = Exception(message: string)

  /**
   * What one call of the pretrained-pipeline constructor does: it returns a
   * value, which may be None rather than a pipeline, or it raises.
   */
  datatype LoadOutcome = Loaded(pipeline: Option<Pipeline>) | Raised(exc: Exception)

  /**
   * How `_attempt_load_pipeline` fails: it re-raises the last failure, or, when
   * the loop never ran, `raise None` raises a TypeError.
   */
  datatype LoadError = Reraised(exc: Exception) | NoExceptionToRaise

  /**
   * The foreign calls, as functions of what they depend on: the constructor's
   * outcome depends on the allow-list in force; `importModule` and `getAttr`
   * give None where Python raises or `getattr` falls back to its default.
   */
  datatype Oracles = Oracles(
    fromPretrained: seq<PyObject> -> LoadOutcome,
    importModule: string -> Option<ModuleRef>,
    getAttr: (ModuleRef, string) -> Option<PyObject>)

  /** The default `max_retries` of `_attempt_load_pipeline`, the one `get_pipeline` uses. */
  const DefaultMaxRetries: int := 8

  /** `_resolve_global`: import the module part of a dotted name and look up its attribute. */
  function ResolveGlobal(o: Oracles, name: string): (r: Option<PyObject>)
    ensures '.' !in name ==> r.None?
  {
    match GlobalNames.SplitModuleAttr(name)
    case None => None
    case Some((modulePath, attr)) =>
      match o.importModule(modulePath)
      case None => None
      case Some(m) => o.getAttr(m, attr)
  }

  /** `_resolve_global` on `modulePath.attr` imports exactly `modulePath` and looks up exactly `attr`. */
  lemma ResolveGlobalAtLastDot(o: Oracles, modulePath: string, attr: string)
    requires '.' !in attr
    ensures ResolveGlobal(o, modulePath + "." + attr) ==
      match o.importModule(modulePath)
      case None => None
      case Some(m) => o.getAttr(m, attr)
  {
    GlobalNames.SplitJoin(modulePath, attr);
  }

  /** `[m for m in matches if m not in tried_names]`. */
  function NewNames(matches: seq<string>, tried: set<string>): (r: seq<string>)
    ensures |r| <= |matches|
    ensures forall n :: n in r <==> n in matches && n !in tried
  {
    if matches == [] then []
    else
      var rest := NewNames(matches[1..], tried);
      assert forall n :: n in matches <==> n == matches[0] || n in matches[1..];
      if matches[0] in tried then rest else [matches[0]] + rest
  }

  /**
   * The filter drops the tried names and nothing else: an untried name occurs
   * as often as among the matches, so repeats are kept.
   */
  lemma {:induction false} NewNamesCounts(matches: seq<string>, tried: set<string>)
    ensures forall n :: multiset(NewNames(matches, tried))[n] == if n in tried then 0 else multiset(matches)[n]
  {
    if matches != [] {
      NewNamesCounts(matches[1..], tried);
      assert matches == [matches[0]] + matches[1..];
    }
  }

  /** The filter on a match followed by more matches. */
  lemma NewNamesCons(h: string, rest: seq<string>, tried: set<string>)
    ensures NewNames([h] + rest, tried) == (if h in tried then [] else [h]) + NewNames(rest, tried)
  {
    assert ([h] + rest)[1..] == rest;
  }

  /** The filter keeps the order of the matches: filtering a concatenation filters each part. */
  lemma {:induction false} NewNamesAppend(a: seq<string>, b: seq<string>, tried: set<string>)
    ensures NewNames(a + b, tried) == NewNames(a, tried) + NewNames(b, tried)
  {
    if a == [] {
      assert a + b == b;
    } else {
      var h, t := a[0], a[1..];
      var keep := if h in tried then [] else [h];
      assert a == [h] + t;
      assert a + b == [h] + (t + b);
      calc {
        NewNames(a + b, tried);
        == { NewNamesCons(h, t + b, tried); }
        keep + NewNames(t + b, tried);
        == { NewNamesAppend(t, b, tried); }
        keep + (NewNames(t, tried) + NewNames(b, tried));
        ==
        (keep + NewNames(t, tried)) + NewNames(b, tried);
        == { NewNamesCons(h, t, tried); }
        NewNames(a, tried) + NewNames(b, tried);
      }
    }
  }

  /** The objects the names resolve to, in order, skipping those that do not resolve. */
  function ResolvedObjs(resolve: string -> Option<PyObject>, names: seq<string>): (r: seq<PyObject>)
    ensures |r| <= |names|
  {
    if names == [] then []
    else
      var rest := ResolvedObjs(resolve, names[..|names| - 1]);
      match resolve(names[|names| - 1])
      case Some(obj) => rest + [obj]
      case None => rest
  }

  /** Nothing is registered exactly when none of the names resolves. */
  lemma {:induction false} ResolvedObjsEmpty(resolve: string -> Option<PyObject>, names: seq<string>)
    ensures ResolvedObjs(resolve, names) == [] <==> forall k :: 0 <= k < |names| ==> resolve(names[k]).None?
  {
    if names != [] {
      var init := names[..|names| - 1];
      ResolvedObjsEmpty(resolve, init);
      assert forall k :: 0 <= k < |init| ==> init[k] == names[k];
    }
  }

  /** The names among `names` that resolve. */
  ghost function ResolvedNames(resolve: string -> Option<PyObject>, names: seq<string>): set<string> {
    set n | n in names && resolve(n).Some?
  }

  /**
   * The three things the retry loop consults: the pipeline constructor (as a
   * function of the allow-list in force), the pattern that extracts names
   * from an error message, and `_resolve_global`.
   */
  datatype Loop = Loop(
    load: seq<PyObject> -> LoadOutcome,
    extract: string -> seq<string>,
    resolve: string -> Option<PyObject>)

  /** The loop of `_attempt_load_pipeline` over the given foreign calls. */
  function LoopOf(o: Oracles): Loop {
    Loop(o.fromPretrained, GlobalNames.FindAll, n => ResolveGlobal(o, n))
  }

  /**
   * What a run of the retry loop does: its result, how many times it called
   * the pipeline constructor, the lists it passed to `add_safe_globals` in
   * order, and the `tried_names` set it ended with.
   */
  datatype Run = Run(
    result: Result<Option<Pipeline>, LoadError>,
    loaderCalls: nat,
    registered: seq<seq<PyObject>>,
    tried: set<string>)

  /** `run` preceded by `calls` loader calls that registered `regs`. */
  function After(calls: nat, regs: seq<seq<PyObject>>, run: Run): Run {
    Run(run.result, calls + run.loaderCalls, regs + run.registered, run.tried)
  }

  /** Two stretches of a run, one after the other. */
  lemma AfterAfter(calls: nat, regs: seq<seq<PyObject>>, calls': nat, regs': seq<seq<PyObject>>, run: Run)
    ensures After(calls, regs, After(calls', regs', run)) == After(calls + calls', regs + regs', run)
  {
    assert regs + (regs' + run.registered) == (regs + regs') + run.registered;
  }

  /** The error `raise last_exc` raises. */
  function RaiseLast(lastExc: Option<Exception>): LoadError {
    match lastExc
    case Some(e) => Reraised(e)
    case None => NoExceptionToRaise
  }

  /** How one iteration of the retry loop ends. */
  datatype Step =
    | Succeeded(pipeline: Option<Pipeline>)
    | Stopped(exc: Exception)
    | Continued(exc: Exception, resolved: seq<PyObject>, tried: set<string>)

  /**
   * One iteration of the retry loop with the allow-list `allowed` in force
   * and `tried_names == tried`: it returns the loaded pipeline, breaks out to
   * re-raise, or registers the newly resolved objects and goes on.
   */
  ghost function Attempt(l: Loop, allowed: seq<PyObject>, tried: set<string>): Step {
    match l.load(allowed)
    case Loaded(p) => Succeeded(p)
    case Raised(exc) =>
      var newNames := NewNames(l.extract(exc.message), tried);
      if newNames == [] then Stopped(exc)
      else
        var resolved := ResolvedObjs(l.resolve, newNames);
        if resolved == [] then Stopped(exc)
        else Continued(exc, resolved, tried + ResolvedNames(l.resolve, newNames))
  }

  /**
   * An iteration succeeds exactly when the constructor loads, with its
   * pipeline; otherwise it holds the constructor's exception.
   */
  lemma AttemptLoads(l: Loop, allowed: seq<PyObject>, tried: set<string>)
    ensures var s := Attempt(l, allowed, tried);
      && (s.Succeeded? <==> l.load(allowed).Loaded?)
      && (s.Succeeded? ==> l.load(allowed) == Loaded(s.pipeline))
      && (!s.Succeeded? ==> l.load(allowed) == Raised(s.exc))
  {
  }

  /**
   * A failed iteration stops exactly when its message names no untried global
   * that resolves; when it goes on, it registers those globals and adds exactly
   * their names to `tried_names`.
   */
  lemma AttemptStops(l: Loop, allowed: seq<PyObject>, tried: set<string>)
    requires l.load(allowed).Raised?
    ensures var s := Attempt(l, allowed, tried);
      && (s.Stopped? <==> forall n :: n in l.extract(s.exc.message) && n !in tried ==> l.resolve(n).None?)
      && (s.Continued? ==>
            && s.resolved == ResolvedObjs(l.resolve, NewNames(l.extract(s.exc.message), tried)) != []
            && tried < s.tried
            && forall n :: n in s.tried - tried <==> n in l.extract(s.exc.message) && n !in tried && l.resolve(n).Some?)
  {
    var exc := l.load(allowed).exc;
    var newNames := NewNames(l.extract(exc.message), tried);
    ResolvedObjsEmpty(l.resolve, newNames);
    if newNames != [] && ResolvedObjs(l.resolve, newNames) != [] {
      var k :| 0 <= k < |newNames| && l.resolve(newNames[k]).Some?;
      assert newNames[k] in ResolvedNames(l.resolve, newNames);
    }
  }

  /** What one iteration does, as a function of the allow-list in force and `tried_names`. */
  type StepFn = (seq<PyObject>, set<string>) -> Step

  /** The iterations of the loop over `l`. */
  ghost function Iterate(l: Loop): StepFn {
    (allowed, tried) => Attempt(l, allowed, tried)
  }

  /**
   * `iterate` performs the iterations of the loop over `l`. (The trigger lets
   * a proof unfold an iteration only where it names `Attempt` itself.)
   */
  ghost predicate Performs(iterate: StepFn, l: Loop) {
    forall allowed, tried {:trigger Attempt(l, allowed, tried)} :: iterate(allowed, tried) == Attempt(l, allowed, tried)
  }

  lemma IteratePerforms(l: Loop)
    ensures Performs(Iterate(l), l)
  {
  }

  /**
   * The remaining `remaining` iterations of the retry loop, entered with the
   * allow-list `allowed` in force, `tried_names == tried` and `last_exc == lastExc`.
   */
  ghost function LoadRun(step: StepFn, allowed: seq<PyObject>, tried: set<string>, remaining: int, lastExc: Option<Exception>): Run
    decreases remaining
  {
    if remaining <= 0 then Run(Err(RaiseLast(lastExc)), 0, [], tried)
    else
      match step(allowed, tried)
      case Succeeded(p) => Run(Ok(p), 1, [], tried)
      case Stopped(exc) => Run(Err(Reraised(exc)), 1, [], tried)
      case Continued(exc, resolved, tried') =>
        After(1, [resolved], LoadRun(step, allowed + resolved, tried', remaining - 1, Some(exc)))
  }

  /** A whole call of `_attempt_load_pipeline(maxRetries)` entered with `allowed` in force. */
  ghost function AttemptRun(o: Oracles, allowed: seq<PyObject>, maxRetries: int): Run {
    LoadRun(Iterate(LoopOf(o)), allowed, {}, maxRetries, None)
  }

  /** The allow-list in force at the `k`-th loader call of a run. */
  function AllowedAt(allowed: seq<PyObject>, registered: seq<seq<PyObject>>, k: nat): seq<PyObject>
    requires k <= |registered|
  {
    allowed + Flatten(registered[..k])
  }

  lemma FlattenCons(x: seq<PyObject>, rest: seq<seq<PyObject>>, k: nat)
    requires k <= |rest|
    ensures Flatten(([x] + rest)[..k + 1]) == x + Flatten(rest[..k])
  {
    assert ([x] + rest)[..k + 1] == [x] + rest[..k];
  }

  /** After a first registration `x`, the allow-list in force is the one from `allowed + x` on. */
  lemma AllowedAtShift(allowed: seq<PyObject>, x: seq<PyObject>, rest: seq<seq<PyObject>>, k: nat)
    requires k <= |rest|
    ensures AllowedAt(allowed, [x] + rest, k + 1) == AllowedAt(allowed + x, rest, k)
  {
    FlattenCons(x, rest, k);
  }

  /** Registering `x` after `calls` extends the allow-list by `x`. */
  lemma AllowListGrows(base: seq<PyObject>, calls: seq<seq<PyObject>>, x: seq<PyObject>)
    ensures base + Flatten(calls + [x]) == base + Flatten(calls) + x
  {
    FlattenSnoc(calls, x);
  }

  /**
   * The loop calls the loader at most `remaining` times, and at least once when
   * it runs at all; it registers once per continuing iteration, never an empty
   * list; it raises TypeError exactly when it never ran.
   */
  lemma {:induction false} LoadRunBounds(iterate: StepFn, l: Loop, allowed: seq<PyObject>, tried: set<string>, remaining: int,
                                         lastExc: Option<Exception>)
    requires Performs(iterate, l)
    ensures var run := LoadRun(iterate, allowed, tried, remaining, lastExc);
      && (remaining <= 0 ==> run.loaderCalls == 0)
      && (remaining > 0 ==> 1 <= run.loaderCalls <= remaining)
      && (run.result == Err(NoExceptionToRaise) <==> remaining <= 0 && lastExc.None?)
      && |run.registered| <= run.loaderCalls <= |run.registered| + 1
      && (run.result.Ok? ==> run.loaderCalls == |run.registered| + 1)
      && (forall k :: 0 <= k < |run.registered| ==> run.registered[k] != [])
    decreases remaining
  {
    if remaining > 0 {
      match Attempt(l, allowed, tried)
      case Succeeded(p) =>
      case Stopped(exc) =>
      case Continued(exc, resolved, tried') =>
        LoadRunBounds(iterate, l, allowed + resolved, tried', remaining - 1, Some(exc));
    }
  }

  /** Every loader call but the last failed, each seeing the allow-list grown by the registrations before it. */
  lemma {:induction false} LoadRunFailedBefore(iterate: StepFn, l: Loop, allowed: seq<PyObject>, tried: set<string>, remaining: int,
                                         lastExc: Option<Exception>)
    requires Performs(iterate, l)
    ensures var run := LoadRun(iterate, allowed, tried, remaining, lastExc);
      && run.loaderCalls <= |run.registered| + 1
      && forall k :: 0 <= k < run.loaderCalls - 1 ==> l.load(AllowedAt(allowed, run.registered, k)).Raised?
    decreases remaining
  {
    var run := LoadRun(iterate, allowed, tried, remaining, lastExc);
    LoadRunBounds(iterate, l, allowed, tried, remaining, lastExc);
    if remaining > 0 {
      match Attempt(l, allowed, tried)
      case Succeeded(p) =>
      case Stopped(exc) =>
      case Continued(exc, resolved, tried') =>
        AttemptLoads(l, allowed, tried);
        var rest := LoadRun(iterate, allowed + resolved, tried', remaining - 1, Some(exc));
        LoadRunFailedBefore(iterate, l, allowed + resolved, tried', remaining - 1, Some(exc));
        assert run == After(1, [resolved], rest);
        assert AllowedAt(allowed, run.registered, 0) == allowed;
        forall k | 0 <= k < run.loaderCalls - 1
          ensures l.load(AllowedAt(allowed, run.registered, k)).Raised?
        {
          if k > 0 {
            AllowedAtShift(allowed, resolved, rest.registered, k - 1);
          }
        }
    }
  }

  /** A success is the pipeline of the last loader call, which saw every registration of the run. */
  lemma {:induction false} LoadRunSucceeds(iterate: StepFn, l: Loop, allowed: seq<PyObject>, tried: set<string>, remaining: int,
                                         lastExc: Option<Exception>)
    requires Performs(iterate, l)
    ensures var run := LoadRun(iterate, allowed, tried, remaining, lastExc);
      run.result.Ok? ==>
        && run.loaderCalls == |run.registered| + 1
        && l.load(AllowedAt(allowed, run.registered, run.loaderCalls - 1)) == Loaded(run.result.value)
    decreases remaining
  {
    var run := LoadRun(iterate, allowed, tried, remaining, lastExc);
    LoadRunBounds(iterate, l, allowed, tried, remaining, lastExc);
    if remaining > 0 {
      AttemptLoads(l, allowed, tried);
      match Attempt(l, allowed, tried)
      case Succeeded(p) =>
        assert AllowedAt(allowed, run.registered, 0) == allowed;
      case Stopped(exc) =>
        assert AllowedAt(allowed, run.registered, 0) == allowed;
      case Continued(exc, resolved, tried') =>
        var rest := LoadRun(iterate, allowed + resolved, tried', remaining - 1, Some(exc));
        LoadRunSucceeds(iterate, l, allowed + resolved, tried', remaining - 1, Some(exc));
        LoadRunBounds(iterate, l, allowed + resolved, tried', remaining - 1, Some(exc));
        assert run == After(1, [resolved], rest);
        if rest.loaderCalls >= 1 {
          AllowedAtShift(allowed, resolved, rest.registered, rest.loaderCalls - 1);
        }
    }
  }

  /** A failure after at least one loader call re-raises the exception of the last call. */
  lemma {:induction false} LoadRunReraises(iterate: StepFn, l: Loop, allowed: seq<PyObject>, tried: set<string>, remaining: int,
                                         lastExc: Option<Exception>)
    requires Performs(iterate, l)
    ensures var run := LoadRun(iterate, allowed, tried, remaining, lastExc);
      run.result.Err? && run.loaderCalls >= 1 ==>
        && run.loaderCalls <= |run.registered| + 1
        && run.result.error.Reraised?
        && l.load(AllowedAt(allowed, run.registered, run.loaderCalls - 1)) == Raised(run.result.error.exc)
    decreases remaining
  {
    var run := LoadRun(iterate, allowed, tried, remaining, lastExc);
    LoadRunBounds(iterate, l, allowed, tried, remaining, lastExc);
    if remaining > 0 {
      AttemptLoads(l, allowed, tried);
      match Attempt(l, allowed, tried)
      case Succeeded(p) =>
        assert AllowedAt(allowed, run.registered, 0) == allowed;
      case Stopped(exc) =>
        assert AllowedAt(allowed, run.registered, 0) == allowed;
      case Continued(exc, resolved, tried') =>
        var rest := LoadRun(iterate, allowed + resolved, tried', remaining - 1, Some(exc));
        LoadRunReraises(iterate, l, allowed + resolved, tried', remaining - 1, Some(exc));
        LoadRunBounds(iterate, l, allowed + resolved, tried', remaining - 1, Some(exc));
        assert run == After(1, [resolved], rest);
        if rest.loaderCalls >= 1 {
          AllowedAtShift(allowed, resolved, rest.registered, rest.loaderCalls - 1);
        }
        else {
          assert AllowedAt(allowed, run.registered, 0) == allowed;
        }
    }
  }

  /**
   * `tried_names` only grows, and only with names that resolved. A run that
   * stops before using up its retries stops on a failure whose message names
   * no global outside `tried_names` that resolves.
   */
  lemma {:induction false} LoadRunTried(iterate: StepFn, l: Loop, allowed: seq<PyObject>, tried: set<string>, remaining: int,
                                         lastExc: Option<Exception>)
    requires Performs(iterate, l)
    ensures var run := LoadRun(iterate, allowed, tried, remaining, lastExc);
      && tried <= run.tried
      && (forall n :: n in run.tried - tried ==> l.resolve(n).Some?)
      && (run.result.Err? && 0 < run.loaderCalls < remaining ==>
            && run.result.error.Reraised?
            && forall n :: n in l.extract(run.result.error.exc.message) && n !in run.tried ==> l.resolve(n).None?)
    decreases remaining
  {
    if remaining > 0 {
      match Attempt(l, allowed, tried)
      case Succeeded(p) =>
      case Stopped(exc) =>
        AttemptLoads(l, allowed, tried);
        AttemptStops(l, allowed, tried);
      case Continued(exc, resolved, tried') =>
        AttemptLoads(l, allowed, tried);
        AttemptStops(l, allowed, tried);
        LoadRunTried(iterate, l, allowed + resolved, tried', remaining - 1, Some(exc));
    }
  }

  /** A failure whose message names no disallowed global ends the loop at once. */
  lemma UnparsableFailureStops(o: Oracles, allowed: seq<PyObject>, remaining: int, exc: Exception)
    requires remaining > 0
    requires o.fromPretrained(allowed) == Raised(exc)
    requires GlobalNames.FindAll(exc.message) == []
    ensures AttemptRun(o, allowed, remaining) == Run(Err(Reraised(exc)), 1, [], {})
  {
  }

  /**
   * A loader that keeps failing, each time reporting a new resolvable global
   * (`name(i)` when the allow-list has `i` entries), is called exactly
   * `remaining` times: the bound, not an early stop, ends the loop.
   */
  lemma {:induction false} ExhaustsRetries(
    iterate: StepFn, l: Loop, allowed: seq<PyObject>, tried: set<string>, remaining: int, lastExc: Option<Exception>,
    name: nat -> string)
    requires Performs(iterate, l)
    requires forall al :: l.load(al) == Raised(Exception(GlobalNames.Report(name(|al|))))
    requires forall i :: l.extract(GlobalNames.Report(name(i))) == [name(i)]
    requires forall i :: l.resolve(name(i)).Some?
    requires forall i, j :: name(i) == name(j) ==> i == j
    requires forall i: nat :: name(i) in tried ==> i < |allowed|
    ensures var run := LoadRun(iterate, allowed, tried, remaining, lastExc);
      run.loaderCalls == (if remaining > 0 then remaining else 0) && run.result.Err?
    decreases remaining
  {
    if remaining > 0 {
      var n := name(|allowed|);
      FreshNameAttempt(l, allowed, tried, n);
      var resolved := [l.resolve(n).value];
      assert |allowed + resolved| == |allowed| + 1;
      ExhaustsRetries(iterate, l, allowed + resolved, tried + {n}, remaining - 1, Some(Exception(GlobalNames.Report(n))), name);
    }
  }

  /** One iteration that fails on a new resolvable name registers it and continues. */
  lemma FreshNameAttempt(l: Loop, allowed: seq<PyObject>, tried: set<string>, n: string)
    requires l.load(allowed) == Raised(Exception(GlobalNames.Report(n)))
    requires l.extract(GlobalNames.Report(n)) == [n]
    requires l.resolve(n).Some? && n !in tried
    ensures Attempt(l, allowed, tried) == Continued(Exception(GlobalNames.Report(n)), [l.resolve(n).value], tried + {n})
  {
    var newNames := NewNames([n], tried);
    assert newNames == [n];
    assert ResolvedObjs(l.resolve, newNames) == [l.resolve(n).value];
    assert ResolvedNames(l.resolve, newNames) == {n};
  }

  /**
   * With the loader's own pattern: if every failure reports one new dotted
   * name that resolves, `_attempt_load_pipeline(maxRetries)` calls the
   * constructor exactly `maxRetries` times and re-raises.
   */
  lemma FreshNameEachAttemptUsesAllRetries(o: Oracles, allowed: seq<PyObject>, maxRetries: int, name: nat -> string)
    requires forall al :: o.fromPretrained(al) == Raised(Exception(GlobalNames.Report(name(|al|))))
    requires forall i :: GlobalNames.IsDottedName(name(i)) && ResolveGlobal(o, name(i)).Some?
    requires forall i, j :: name(i) == name(j) ==> i == j
    ensures AttemptRun(o, allowed, maxRetries).loaderCalls == (if maxRetries > 0 then maxRetries else 0)
    ensures AttemptRun(o, allowed, maxRetries).result.Err?
  {
    var l := LoopOf(o);
    forall i ensures l.extract(GlobalNames.Report(name(i))) == [name(i)] {
      GlobalNames.FindAllReport(name(i));
    }
    IteratePerforms(l);
    ExhaustsRetries(Iterate(l), l, allowed, {}, maxRetries, None, name);
  }

  /**
   * A run seen from the start of an iteration, after `calls` loader calls that
   * registered `regs`: the iteration's step either ends it or moves it on by
   * one loader call and one registration.
   */
  lemma StepRun(whole: Run, calls: nat, regs: seq<seq<PyObject>>, iterate: StepFn, allowed: seq<PyObject>, tried: set<string>,
                remaining: int, lastExc: Option<Exception>, step: Step)
    requires whole == After(calls, regs, LoadRun(iterate, allowed, tried, remaining, lastExc))
    requires remaining > 0 && step == iterate(allowed, tried)
    ensures step.Succeeded? ==> whole == Run(Ok(step.pipeline), calls + 1, regs, tried)
    ensures step.Stopped? ==> whole == Run(Err(Reraised(step.exc)), calls + 1, regs, tried)
    ensures step.Continued? ==>
      whole == After(calls + 1, regs + [step.resolved], LoadRun(iterate, allowed + step.resolved, step.tried, remaining - 1, Some(step.exc)))
  {
    assert regs + [] == regs;
    if step.Continued? {
      AfterAfter(calls, regs, 1, [step.resolved], LoadRun(iterate, allowed + step.resolved, step.tried, remaining - 1, Some(step.exc)));
    }
  }

  /** A run whose iterations are used up re-raises the last failure. */
  lemma StepExhausted(whole: Run, calls: nat, regs: seq<seq<PyObject>>,
                      iterate: StepFn, allowed: seq<PyObject>, tried: set<string>, remaining: int, lastExc: Option<Exception>)
    requires whole == After(calls, regs, LoadRun(iterate, allowed, tried, remaining, lastExc))
    requires remaining <= 0
    ensures whole == Run(Err(RaiseLast(lastExc)), calls, regs, tried)
  {
    assert regs + [] == regs;
  }

  /**
   * The process-wide state the loader touches: torch's safe-globals allow-list,
   * plus a record of the loader and registration calls made so far.
   */
  class Runtime {
    const oracles: Oracles
    /** torch's safe-globals allow-list, in registration order. */
    var safeGlobals: seq<PyObject>
    /** How many times the pretrained-pipeline constructor has been called. */
    ghost var loadCalls: nat
    /** The argument of every `add_safe_globals` call so far, in order. */
    ghost var registrations: seq<seq<PyObject>>

    constructor (oracles: Oracles, safeGlobals: seq<PyObject>)
      ensures this.oracles == oracles && this.safeGlobals == safeGlobals
      ensures loadCalls == 0 && registrations == []
    {
      this.oracles := oracles;
      this.safeGlobals := safeGlobals;
      loadCalls := 0;
      registrations := [];
    }

    /** `Pipeline.from_pretrained(MODEL_ID, token=HF_TOKEN)`. */
    method FromPretrained() returns (outcome: LoadOutcome)
      modifies this`loadCalls
      ensures outcome == oracles.fromPretrained(safeGlobals)
      ensures loadCalls == old(loadCalls) + 1
    {
      outcome := oracles.fromPretrained(safeGlobals);
      loadCalls := loadCalls + 1;
    }

    /** `add_safe_globals(objs)`: the allow-list only grows. */
    method AddSafeGlobals(objs: seq<PyObject>)
      modifies this`safeGlobals, this`registrations
      ensures safeGlobals == old(safeGlobals) + objs
      ensures registrations == old(registrations) + [objs]
    {
      safeGlobals := safeGlobals + objs;
      registrations := registrations + [objs];
    }
  }

  /** The inner loop of `_attempt_load_pipeline`: resolve the new names, recording those that resolve as tried. */
  method ResolveNewNames(o: Oracles, newNames: seq<string>, tried: set<string>)
    returns (resolved: seq<PyObject>, triedAfter: set<string>)
    ensures resolved == ResolvedObjs(LoopOf(o).resolve, newNames)
    ensures triedAfter == tried + ResolvedNames(LoopOf(o).resolve, newNames)
  {
    resolved := [];
    triedAfter := tried;
    for i := 0 to |newNames|
      invariant resolved == ResolvedObjs(LoopOf(o).resolve, newNames[..i])
      invariant triedAfter == tried + ResolvedNames(LoopOf(o).resolve, newNames[..i])
    {
      var name := newNames[i];
      assert newNames[..i + 1][..i] == newNames[..i];
      assert ResolvedNames(LoopOf(o).resolve, newNames[..i + 1]) ==
        ResolvedNames(LoopOf(o).resolve, newNames[..i]) + (if ResolveGlobal(o, name).Some? then {name} else {});
      var obj := ResolveGlobal(o, name);
      if obj.Some? {
        resolved := resolved + [obj.value];
        triedAfter := triedAfter + {name};
      }
    }
    assert newNames[..|newNames|] == newNames;
  }

  /**
   * `_allowlist_globals`: register every name that resolves; report whether
   * there was any.
   */
  method AllowlistGlobals(rt: Runtime, names: seq<string>) returns (added: bool)
    modifies rt`safeGlobals, rt`registrations
    ensures added <==> ResolvedObjs(LoopOf(rt.oracles).resolve, names) != []
    ensures rt.safeGlobals == old(rt.safeGlobals) + ResolvedObjs(LoopOf(rt.oracles).resolve, names)
    ensures rt.registrations == old(rt.registrations) + (if added then [ResolvedObjs(LoopOf(rt.oracles).resolve, names)] else [])
  {
    var objs: seq<PyObject> := [];
    for i := 0 to |names|
      invariant objs == ResolvedObjs(LoopOf(rt.oracles).resolve, names[..i])
    {
      assert names[..i + 1][..i] == names[..i];
      var obj := ResolveGlobal(rt.oracles, names[i]);
      if obj.Some? {
        objs := objs + [obj.value];
      }
    }
    assert names[..|names|] == names;
    if objs != [] {
      rt.AddSafeGlobals(objs);
      return true;
    }
    return false;
  }

  /**
   * The body of one iteration of `_attempt_load_pipeline`, up to the call of
   * `add_safe_globals`: call the constructor; on failure extract the names,
   * keep the untried ones and resolve them.
   */
  method TryLoad(rt: Runtime, tried: set<string>, ghost iterate: StepFn) returns (step: Step)
    requires Performs(iterate, LoopOf(rt.oracles))
    modifies rt`loadCalls
    ensures step == iterate(rt.safeGlobals, tried)
    ensures rt.loadCalls == old(rt.loadCalls) + 1
  {
    var outcome := rt.FromPretrained();
    match outcome {
      case Loaded(p) =>
        step := Succeeded(p);
      case Raised(exc) =>
        var matches := GlobalNames.FindAll(exc.message);
        var newNames := NewNames(matches, tried);
        if newNames == [] {
          step := Stopped(exc);
        } else {
          var resolved, triedAfter := ResolveNewNames(rt.oracles, newNames, tried);
          if resolved == [] {
            step := Stopped(exc);
          } else {
            step := Continued(exc, resolved, triedAfter);
          }
        }
    }
    assert step == Attempt(LoopOf(rt.oracles), rt.safeGlobals, tried);
  }

  /**
   * The `for attempt in range(max_retries)` loop of `_attempt_load_pipeline`,
   * with `iterate` standing for its iterations.
   */
  method RetryLoop(rt: Runtime, maxRetries: int, ghost iterate: StepFn) returns (r: Result<Option<Pipeline>, LoadError>)
    requires Performs(iterate, LoopOf(rt.oracles))
    modifies rt`safeGlobals, rt`registrations, rt`loadCalls
    ensures var run := LoadRun(iterate, old(rt.safeGlobals), {}, maxRetries, None);
      && r == run.result
      && rt.safeGlobals == old(rt.safeGlobals) + Flatten(run.registered)
      && rt.registrations == old(rt.registrations) + run.registered
      && rt.loadCalls == old(rt.loadCalls) + run.loaderCalls
  {
    ghost var allowed := rt.safeGlobals;
    ghost var whole := LoadRun(iterate, allowed, {}, maxRetries, None);
    ghost var calls: nat := 0;
    ghost var regs: seq<seq<PyObject>> := [];
    var lastExc: Option<Exception> := None;
    var tried: set<string> := {};
    var attempt := 0;
    r := Err(NoExceptionToRaise);
    while attempt < maxRetries
      invariant whole == After(calls, regs, LoadRun(iterate, allowed, tried, maxRetries - attempt, lastExc))
      invariant rt.safeGlobals == allowed == old(rt.safeGlobals) + Flatten(regs)
      invariant rt.registrations == old(rt.registrations) + regs
      invariant rt.loadCalls == old(rt.loadCalls) + calls
      decreases maxRetries - attempt
    {
      var step := TryLoad(rt, tried, iterate);
      StepRun(whole, calls, regs, iterate, allowed, tried, maxRetries - attempt, lastExc, step);
      calls := calls + 1;
      if !step.Continued? {
        r := if step.Succeeded? then Ok(step.pipeline) else Err(Reraised(step.exc));
        break;
      }
      AllowListGrows(old(rt.safeGlobals), regs, step.resolved);
      regs := regs + [step.resolved];
      allowed := allowed + step.resolved;
      rt.AddSafeGlobals(step.resolved);
      tried := step.tried;
      lastExc := Some(step.exc);
      attempt := attempt + 1;
    }
    if attempt >= maxRetries {
      StepExhausted(whole, calls, regs, iterate, allowed, tried, maxRetries - attempt, lastExc);
      r := Err(RaiseLast(lastExc));
    }
  }

  /**
   * `_attempt_load_pipeline(max_retries)`: the run it performs is `AttemptRun`
   * from the allow-list in force on entry.
   */
  method AttemptLoadPipeline(rt: Runtime, maxRetries: int) returns (r: Result<Option<Pipeline>, LoadError>)
    modifies rt`safeGlobals, rt`registrations, rt`loadCalls
    ensures var run := AttemptRun(rt.oracles, old(rt.safeGlobals), maxRetries);
      && r == run.result
      && rt.safeGlobals == old(rt.safeGlobals) + Flatten(run.registered)
      && rt.registrations == old(rt.registrations) + run.registered
      && rt.loadCalls == old(rt.loadCalls) + run.loaderCalls
  {
    IteratePerforms(LoopOf(rt.oracles));
    r := RetryLoop(rt, maxRetries, Iterate(LoopOf(rt.oracles)));
  }

  /** The module-level `_pipeline` of `get_pipeline`, held by an explicit object. */
  class PipelineCache {
    const rt: Runtime
    /** `_pipeline`: None until a load returns a pipeline. */
    var pipeline: Option<Pipeline>

    constructor (rt: Runtime)
      ensures this.rt == rt && pipeline == None
    {
      this.rt := rt;
      pipeline := None;
    }

    /**
     * `get_pipeline`: a cached pipeline is returned without touching the
     * runtime; otherwise one `_attempt_load_pipeline()` runs and whatever it
     * returns is stored, so a None result leaves the cache empty.
     */
    method GetPipeline() returns (r: Result<Option<Pipeline>, LoadError>)
      modifies this`pipeline, rt`safeGlobals, rt`registrations, rt`loadCalls
      ensures old(pipeline).Some? ==>
        r == Ok(old(pipeline)) && pipeline == old(pipeline) && unchanged(rt)
      ensures old(pipeline).None? ==>
        var run := AttemptRun(rt.oracles, old(rt.safeGlobals), DefaultMaxRetries);
        && r == run.result
        && pipeline == (if r.Ok? then r.value else None)
        && rt.safeGlobals == old(rt.safeGlobals) + Flatten(run.registered)
        && rt.registrations == old(rt.registrations) + run.registered
        && rt.loadCalls == old(rt.loadCalls) + run.loaderCalls
    {
      if pipeline.Some? {
        return Ok(pipeline);
      }
      r := AttemptLoadPipeline(rt, DefaultMaxRetries);
      if r.Ok? {
        pipeline := r.value;
      }
    }
  }

  /**
   * Two calls in a row: once the first has returned a pipeline, the second
   * returns the same one and the constructor is not called again; when the
   * first load returned None, the second call loads again.
   */
  method GetPipelineTwice(cache: PipelineCache)
    returns (first: Result<Option<Pipeline>, LoadError>, second: Result<Option<Pipeline>, LoadError>)
    modifies cache`pipeline, cache.rt`safeGlobals, cache.rt`registrations, cache.rt`loadCalls
    ensures first.Ok? && first.value.Some? ==> second == first
    ensures old(cache.pipeline).None? && first.Ok? && first.value.Some? ==>
      cache.rt.loadCalls == old(cache.rt.loadCalls) + AttemptRun(cache.rt.oracles, old(cache.rt.safeGlobals), DefaultMaxRetries).loaderCalls
    ensures old(cache.pipeline).Some? ==> cache.rt.loadCalls == old(cache.rt.loadCalls)
    ensures old(cache.pipeline).None? && first == Ok(None) ==>
      cache.rt.loadCalls > old(cache.rt.loadCalls) + AttemptRun(cache.rt.oracles, old(cache.rt.safeGlobals), DefaultMaxRetries).loaderCalls
  {
    first := cache.GetPipeline();
    ghost var between := cache.rt.safeGlobals;
    second := cache.GetPipeline();
    if first == Ok(None) {
      IteratePerforms(LoopOf(cache.rt.oracles));
      LoadRunBounds(Iterate(LoopOf(cache.rt.oracles)), LoopOf(cache.rt.oracles), between, {}, DefaultMaxRetries, None);
    }
  }
}
