/** Option and Result values shared by every module of the model. */
module Wrappers {

  /** A value that may be missing: a Python `None`, a pandas NaN or an absent dictionary key. */
  datatype Option<+T> = None | Some(value: T) {
    function GetOr(default: T): T {
      match this
      case Some(v) => v
      case None => default
    }
  }

  /** The result of a call that returns either its value or a dictionary with an "error" key. */
  datatype Result<+T> = Ok(value: T) | Err(error: string)

  /** `[f(x) for x in xs if f(x) is not None]`: the values `f` gives, in order, skipping the ones it gives nothing for. */
  function Collect<A, B>(f: A -> Option<B>, xs: seq<A>): (r: seq<B>)
    ensures |r| <= |xs|
  {
    if |xs| == 0 then []
    else
      var y := f(xs[|xs| - 1]);
      Collect(f, xs[..|xs| - 1]) + (if y.Some? then [y.value] else [])
  }

  /** Collecting is element by element: the values of two runs are those of each, in order. */
  lemma {:induction false} CollectAppend<A, B>(f: A -> Option<B>, a: seq<A>, b: seq<A>)
    ensures Collect(f, a + b) == Collect(f, a) + Collect(f, b)
    decreases |b|
  {
    if |b| == 0 {
      assert a + b == a;
    } else {
      var init := b[..|b| - 1];
      assert (a + b)[..|a + b| - 1] == a + init;
      assert (a + b)[|a + b| - 1] == b[|b| - 1];
      CollectAppend(f, a, init);
    }
  }

  /** A value is collected exactly when `f` gives it for some element. */
  lemma {:induction false} CollectMembers<A, B>(f: A -> Option<B>, xs: seq<A>, y: B)
    ensures y in Collect(f, xs) <==> exists j :: 0 <= j < |xs| && f(xs[j]) == Some(y)
  {
    if |xs| > 0 {
      var init := xs[..|xs| - 1];
      CollectMembers(f, init, y);
      if y in Collect(f, init) {
        var j :| 0 <= j < |init| && f(init[j]) == Some(y);
        assert xs[j] == init[j];
      }
      if exists j :: 0 <= j < |xs| && f(xs[j]) == Some(y) {
        var j :| 0 <= j < |xs| && f(xs[j]) == Some(y);
        if j < |init| {
          assert init[j] == xs[j];
        }
      }
    }
  }
}
