/**
 * The checks `orderedPromiseStream` makes of its arguments, and how it picks
 * its hooks from the options.
 *
 * JavaScript values are described by the facts the checks test (`Array.isArray`,
 * truthiness, `typeof … === 'object'`, `typeof … === 'function'`, the `in`
 * operator), not by the values themselves.
 */
module Arguments {
  import opened Hooks

  datatype Option<T> = None | Some(value: T)

  /** The errors `orderedPromiseStream` throws. */
  datatype Error =
    | NotAnArray
    | OptionsNotObject
    | EndFnNotFunction
    | ResolutionFnNotFunction
    | NotThenable

  /** The text of each thrown `Error`. */
  function Message(e: Error): string
  {
    match e
    case NotAnArray => "Must provide an array of promises"
    case OptionsNotObject => "`options` must be an object"
    case EndFnNotFunction => "`options.endFn` must be a function"
    case ResolutionFnNotFunction => "`options.resolutionFn` must be a function"
    case NotThenable => "All array items must be thenable"
  }

  /** What the value held under an option key is, as far as the checks can tell (a function is truthy). */
  datatype ValueKind = FunctionValue | FalsyValue | OtherTruthyValue

  /** An option key: not in the object, or present with a value of some kind. */
  datatype Field = Absent | Present(kind: ValueKind)

  /**
   * The `options` argument: whether it is truthy, whether `typeof options`
   * is `'object'`, and its `endFn` and `resolutionFn` keys (meaningful only
   * for a truthy object).
   */
  datatype Options = Options(truthy: bool, isObject: bool, endFn: Field, resolutionFn: Field)

  /**
   * One element of `promises`: whether `typeof` gives `'object'`, whether
   * `'then'` is in it, and whether its `then` is a function (meaningful only
   * when it has one).
   */
  datatype Element = Element(isObject: bool, hasThen: bool, thenIsFunction: bool)

  /** What `handleResolution` accepts as a promise. */
  predicate Thenable(e: Element)
  {
    e.isObject && e.hasThen
  }

  /** An element on which `promise.then(…)` can be called: accepted, and its `then` is a function. */
  predicate Subscribable(e: Element)
  {
    Thenable(e) && e.thenIsFunction
  }

  /** An option key passes when it is absent or holds a function. */
  predicate FieldAccepted(f: Field)
  {
    f.Present? ==> f.kind == FunctionValue
  }

  /** Falsy options are ignored; truthy ones must be an object whose hook keys pass. */
  predicate OptionsAccepted(o: Options)
  {
    o.truthy ==> o.isObject && FieldAccepted(o.endFn) && FieldAccepted(o.resolutionFn)
  }

  /**
   * The upfront checks, in the order the source makes them; the first that
   * fails decides the error.
   */
  function CheckArguments(isArray: bool, o: Options): (r: Option<Error>)
    ensures r.None? <==> isArray && OptionsAccepted(o)
    ensures !isArray ==> r == Some(NotAnArray)
    ensures isArray && o.truthy && !o.isObject ==> r == Some(OptionsNotObject)
    ensures isArray && o.truthy && o.isObject && !FieldAccepted(o.endFn) ==> r == Some(EndFnNotFunction)
    ensures isArray && o.truthy && o.isObject && FieldAccepted(o.endFn) && !FieldAccepted(o.resolutionFn) ==>
              r == Some(ResolutionFnNotFunction)
    ensures r != Some(NotThenable)
  {
    if !isArray then Some(NotAnArray)
    else if o.truthy && !o.isObject then Some(OptionsNotObject)
    else if o.truthy && o.endFn.Present? && o.endFn.kind != FunctionValue then Some(EndFnNotFunction)
    else if o.truthy && o.resolutionFn.Present? && o.resolutionFn.kind != FunctionValue then Some(ResolutionFnNotFunction)
    else None
  }

  /** `config.endFn || defaults.endFn` with `config = options || {}`: a truthy value under the key wins. */
  function SelectHook(optionsTruthy: bool, f: Field): Hook
  {
    if optionsTruthy && f.Present? && f.kind != FalsyValue then Given else Default
  }

  function SelectHooks(o: Options): Selected
  {
    Selected(SelectHook(o.truthy, o.endFn), SelectHook(o.truthy, o.resolutionFn))
  }

  /**
   * Once the arguments have passed the checks, a hook the options name is
   * always a function and is used (the third clause). The first two clauses
   * only spell out the selection rule of `SelectHook`: the default is used
   * exactly when the options are falsy, the key is absent, or its value is falsy.
   */
  lemma SelectionFallsBack(o: Options)
    ensures SelectHooks(o).endFn == Default <==> !o.truthy || o.endFn.Absent? || o.endFn.kind == FalsyValue
    ensures SelectHooks(o).resolutionFn == Default <==>
              !o.truthy || o.resolutionFn.Absent? || o.resolutionFn.kind == FalsyValue
    ensures CheckArguments(true, o).None? ==>
              (SelectHooks(o).endFn == Given <==> o.truthy && o.endFn.Present?) &&
              (SelectHooks(o).resolutionFn == Given <==> o.truthy && o.resolutionFn.Present?)
  {
  }

  /** `orderedPromiseStream()` with no array rejects, whatever the options, with the array message. */
  lemma MissingArrayRejected(o: Options)
    ensures CheckArguments(false, o) == Some(NotAnArray)
    ensures Message(CheckArguments(false, o).value) == "Must provide an array of promises"
  {
  }

  /** Options `true`, truthy but not an object, reject with the options message. */
  lemma TruthyNonObjectOptionsRejected(endFn: Field, resolutionFn: Field)
    ensures CheckArguments(true, Options(true, false, endFn, resolutionFn)) == Some(OptionsNotObject)
    ensures Message(CheckArguments(true, Options(true, false, endFn, resolutionFn)).value) ==
              "`options` must be an object"
  {
  }

  /** Options `{endFn: true}` reject with the `endFn` message. */
  lemma EndFnNotFunctionRejected()
    ensures CheckArguments(true, Options(true, true, Present(OtherTruthyValue), Absent)) == Some(EndFnNotFunction)
    ensures Message(EndFnNotFunction) == "`options.endFn` must be a function"
  {
  }

  /** Options `{resolutionFn: true}` reject with the `resolutionFn` message. */
  lemma ResolutionFnNotFunctionRejected()
    ensures CheckArguments(true, Options(true, true, Absent, Present(OtherTruthyValue))) ==
              Some(ResolutionFnNotFunction)
    ensures Message(ResolutionFnNotFunction) == "`options.resolutionFn` must be a function"
  {
  }
}
