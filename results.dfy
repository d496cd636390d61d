/** Optional values and the outcome of a Python call that may raise.

    Every exception the modelled code raises is one constructor of
    `Exception`; a function that may raise returns a `Result`. */
module Results {

  datatype Option<+T> = None | Some(value: T) {
    function GetOr(default: T): T {
      match this
      case Some(v) => v
      case None => default
    }
  }

  /** The Python exceptions raised by the modelled code. */
  datatype Exception =
    | AssertionError
      /** An attribute (or method) the object does not have. */
    | AttributeError(attr: string)
    | IndexError
    | TypeError
      /** A local variable read before it was assigned. */
    | UnboundLocalError(variable: string)
      /** Raised by members that have no implementation. */
    | NotImplementedError
    | ValueError(message: string)
      /** The `ValueError` of the operation factory: it names the operation
          asked for and lists the registry (operation name to class name). */
    | UnregisteredOperation(name: string, registered: map<string, string>)

  datatype Result<+T> = Success(value: T) | Failure(error: Exception) {
    predicate IsFailure() {
      Failure?
    }

    function PropagateFailure<U>(): Result<U>
      requires Failure?
    {
      Failure(error)
    }

    function Extract(): T
      requires Success?
    {
      value
    }
  }

  /** A raising function applied to each element in turn, left to right:
      the first raise is the outcome, otherwise the list of values. */
  function MapResults<A, B>(f: A -> Result<B>, xs: seq<A>): Result<seq<B>>
    decreases |xs|
  {
    if xs == [] then Success([])
    else
      match MapResults(f, xs[..|xs| - 1])
      case Failure(e) => Failure(e)
      case Success(ys) =>
        match f(xs[|xs| - 1])
        case Failure(e) => Failure(e)
        case Success(y) => Success(ys + [y])
  }

  /** A successful run gives one value per element, each the value of `f`
      on that element. */
  lemma {:induction false} MapResultsItems<A, B>(f: A -> Result<B>, xs: seq<A>)
    requires MapResults(f, xs).Success?
    ensures |MapResults(f, xs).value| == |xs|
    ensures forall k :: 0 <= k < |xs| ==> f(xs[k]).Success? && MapResults(f, xs).value[k] == f(xs[k]).value
    decreases |xs|
  {
    if xs != [] {
      var init := xs[..|xs| - 1];
      MapResultsItems(f, init);
      var ys := MapResults(f, init).value;
      var all := MapResults(f, xs).value;
      assert all == ys + [f(xs[|xs| - 1]).value];
      forall k | 0 <= k < |init|
        ensures f(xs[k]).Success? && all[k] == f(xs[k]).value
      {
        assert init[k] == xs[k] && all[k] == ys[k];
      }
    }
  }

  /** Every element succeeds exactly when the run does. */
  lemma {:induction false} MapResultsSucceeds<A, B>(f: A -> Result<B>, xs: seq<A>)
    ensures MapResults(f, xs).Success? <==> forall k :: 0 <= k < |xs| ==> f(xs[k]).Success?
    decreases |xs|
  {
    if xs != [] {
      var init := xs[..|xs| - 1];
      MapResultsSucceeds(f, init);
      assert forall k :: 0 <= k < |init| ==> init[k] == xs[k];
    }
  }

  /** When every raise of `f` on the elements is `e`, so is the run's. */
  lemma {:induction false} MapResultsError<A, B>(f: A -> Result<B>, xs: seq<A>, e: Exception)
    requires forall k :: 0 <= k < |xs| ==> f(xs[k]).Failure? ==> f(xs[k]).error == e
    ensures MapResults(f, xs).Failure? ==> MapResults(f, xs).error == e
    decreases |xs|
  {
    if xs != [] {
      var init := xs[..|xs| - 1];
      assert forall k :: 0 <= k < |init| ==> init[k] == xs[k];
      MapResultsError(f, init, e);
    }
  }

  /** A raising function that gives lists, applied to each element in
      turn: the first raise, or the concatenation of the lists. */
  function ConcatResults<A, B>(f: A -> Result<seq<B>>, xs: seq<A>): Result<seq<B>>
    decreases |xs|
  {
    if xs == [] then Success([])
    else
      match ConcatResults(f, xs[..|xs| - 1])
      case Failure(e) => Failure(e)
      case Success(ys) =>
        match f(xs[|xs| - 1])
        case Failure(e) => Failure(e)
        case Success(zs) => Success(ys + zs)
  }

  lemma {:induction false} ConcatResultsSucceeds<A, B>(f: A -> Result<seq<B>>, xs: seq<A>)
    ensures ConcatResults(f, xs).Success? <==> forall k :: 0 <= k < |xs| ==> f(xs[k]).Success?
    decreases |xs|
  {
    if xs != [] {
      var init := xs[..|xs| - 1];
      ConcatResultsSucceeds(f, init);
      assert forall k :: 0 <= k < |init| ==> init[k] == xs[k];
    }
  }
}
