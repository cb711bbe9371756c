/** Running a list of actions in order and stopping at the first one that
    fails: the shape of the Bronze Load statement loop and of the pipeline
    runner. */
module FailFast {
  /** The actions attempted, in order, up to and including the first one for
      which `ok` is false; the flag says none failed. */
  function RunUntil<T>(xs: seq<T>, ok: T -> bool): (r: (seq<T>, bool))
    ensures |r.0| <= |xs| && r.0 == xs[..|r.0|]
    ensures r.1 <==> r.0 == xs && forall i :: 0 <= i < |xs| ==> ok(xs[i])
    ensures !r.1 ==> |r.0| > 0 && !ok(r.0[|r.0| - 1])
                     && forall i :: 0 <= i < |r.0| - 1 ==> ok(r.0[i])
  {
    if |xs| == 0 then ([], true)
    else if !ok(xs[0]) then ([xs[0]], false)
    else
      var rest := RunUntil(xs[1..], ok);
      var done := [xs[0]] + rest.0;
      assert done == xs[..|done|] by {
        assert rest.0 == xs[1..][..|rest.0|];
        assert xs[..|done|] == [xs[0]] + xs[1..][..|rest.0|];
      }
      assert rest.1 ==> forall i :: 0 <= i < |xs| ==> ok(xs[i]) by {
        if rest.1 {
          forall i | 0 <= i < |xs|
            ensures ok(xs[i])
          {
            if i > 0 { assert xs[i] == xs[1..][i - 1]; }
          }
        }
      }
      assert !rest.1 ==> forall i :: 0 <= i < |done| - 1 ==> ok(done[i]) by {
        if !rest.1 {
          forall i | 0 <= i < |done| - 1
            ensures ok(done[i])
          {
            if i > 0 { assert done[i] == rest.0[i - 1]; }
          }
        }
      }
      (done, rest.1)
  }

  /** Nothing after a failing action is attempted. */
  lemma RunUntilStops<T>(xs: seq<T>, ok: T -> bool, k: nat)
    requires k < |xs| && !ok(xs[k])
    ensures !RunUntil(xs, ok).1 && |RunUntil(xs, ok).0| <= k + 1
  {
  }

  /** The first failing action is the last one attempted. */
  lemma RunUntilFirstFailure<T>(xs: seq<T>, ok: T -> bool, k: nat)
    requires k < |xs| && !ok(xs[k])
    requires forall j :: 0 <= j < k ==> ok(xs[j])
    ensures RunUntil(xs, ok) == (xs[..k + 1], false)
  {
    RunUntilStops(xs, ok, k);
  }

  /** Every action succeeding, every action is attempted. */
  lemma RunUntilAll<T>(xs: seq<T>, ok: T -> bool)
    requires forall i :: 0 <= i < |xs| ==> ok(xs[i])
    ensures RunUntil(xs, ok) == (xs, true)
  {
  }
}
