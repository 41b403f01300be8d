/** The two ways the server's tools build a list in a loop: appending one
    result per element until the first exception escapes, and appending an
    entry only for the elements that produce one. */
module Accumulate {
  import opened Values

  /** One result per element, in order, or the first error. */
  function Collect<A, B>(f: A -> Result<B>, xs: seq<A>): Result<seq<B>>
    decreases |xs|
  {
    if |xs| == 0 then Ok([])
    else
      match Collect(f, xs[..|xs| - 1])
      case Err(e) => Err(e)
      case Ok(ys) =>
        match f(xs[|xs| - 1])
        case Err(e) => Err(e)
        case Ok(y) => Ok(ys + [y])
  }

  /** The entries of the elements that produce one, in order. */
  function Gather<A, B>(f: A -> Option<B>, xs: seq<A>): seq<B>
    decreases |xs|
  {
    if |xs| == 0 then []
    else Gather(f, xs[..|xs| - 1]) + match f(xs[|xs| - 1]) case Some(y) => [y] case None => []
  }

  /** The elements that satisfy `p`, in order. */
  function Keep<A>(p: A -> bool, xs: seq<A>): (kept: seq<A>)
    ensures |kept| <= |xs|
    ensures forall i :: 0 <= i < |kept| ==> p(kept[i])
    decreases |xs|
  {
    if |xs| == 0 then []
    else Keep(p, xs[..|xs| - 1]) + if p(xs[|xs| - 1]) then [xs[|xs| - 1]] else []
  }

  /** Collecting succeeds iff every element's result does, and then gives
      exactly those results, one per element. */
  lemma {:induction false} CollectOk<A, B>(f: A -> Result<B>, xs: seq<A>)
    ensures Collect(f, xs).Ok? <==> forall i :: 0 <= i < |xs| ==> f(xs[i]).Ok?
    ensures Collect(f, xs).Ok? ==>
              |Collect(f, xs).value| == |xs| &&
              forall i :: 0 <= i < |xs| ==> f(xs[i]) == Ok(Collect(f, xs).value[i])
    decreases |xs|
  {
    if |xs| > 0 {
      var init := xs[..|xs| - 1];
      CollectOk(f, init);
      assert forall i :: 0 <= i < |init| ==> xs[i] == init[i];
    }
  }

  /** The first failing element decides the error. */
  lemma {:induction false} CollectFirstError<A, B>(f: A -> Result<B>, xs: seq<A>, i: nat)
    requires i < |xs| && f(xs[i]).Err?
    requires forall j :: 0 <= j < i ==> f(xs[j]).Ok?
    ensures Collect(f, xs) == Err(f(xs[i]).error)
    decreases |xs|
  {
    var init := xs[..|xs| - 1];
    if i < |xs| - 1 {
      assert forall j :: 0 <= j <= i ==> init[j] == xs[j];
      CollectFirstError(f, init, i);
    } else {
      assert forall j :: 0 <= j < |init| ==> init[j] == xs[j];
      CollectOk(f, init);
    }
  }

  /** One more successful element extends the collected prefix by its result. */
  lemma CollectStep<A, B>(f: A -> Result<B>, xs: seq<A>, i: nat, ys: seq<B>)
    requires i < |xs| && Collect(f, xs[..i]) == Ok(ys) && f(xs[i]).Ok?
    ensures Collect(f, xs[..i + 1]) == Ok(ys + [f(xs[i]).value])
  {
    assert xs[..i + 1][..i] == xs[..i];
  }

  /** A failing element after a successful prefix decides the error. */
  lemma CollectStop<A, B>(f: A -> Result<B>, xs: seq<A>, i: nat, ys: seq<B>)
    requires i < |xs| && Collect(f, xs[..i]) == Ok(ys) && f(xs[i]).Err?
    ensures Collect(f, xs) == Err(f(xs[i]).error)
  {
    CollectOk(f, xs[..i]);
    assert forall j :: 0 <= j < i ==> xs[..i][j] == xs[j];
    CollectFirstError(f, xs, i);
  }

  /** One more element adds its entry, if it produces one, to the gathered prefix. */
  lemma GatherStep<A, B>(f: A -> Option<B>, xs: seq<A>, i: nat)
    requires i < |xs|
    ensures f(xs[i]).Some? ==> Gather(f, xs[..i + 1]) == Gather(f, xs[..i]) + [f(xs[i]).value]
    ensures f(xs[i]).None? ==> Gather(f, xs[..i + 1]) == Gather(f, xs[..i])
  {
    assert xs[..i + 1][..i] == xs[..i];
  }

  /** What the first kind of loop leaves behind (the sessions it runs, say):
      `t` of each element, up to and including the first failing one. */
  function CollectTrace<A, B, E>(f: A -> Result<B>, t: A -> seq<E>, xs: seq<A>): seq<E>
    decreases |xs|
  {
    if |xs| == 0 then []
    else if Collect(f, xs[..|xs| - 1]).Err? then CollectTrace(f, t, xs[..|xs| - 1])
    else CollectTrace(f, t, xs[..|xs| - 1]) + t(xs[|xs| - 1])
  }

  /** What the second kind of loop leaves behind: `t` of every element, in order. */
  function Concat<A, E>(t: A -> seq<E>, xs: seq<A>): seq<E>
    decreases |xs|
  {
    if |xs| == 0 then [] else Concat(t, xs[..|xs| - 1]) + t(xs[|xs| - 1])
  }

  lemma AppendAssoc<E>(a: seq<E>, b: seq<E>, c: seq<E>)
    ensures (a + b) + c == a + (b + c)
  {
  }

  /** After a successful prefix, the next element's trace is appended. */
  lemma CollectTraceStep<A, B, E>(f: A -> Result<B>, t: A -> seq<E>, xs: seq<A>, i: nat)
    requires i < |xs| && Collect(f, xs[..i]).Ok?
    ensures CollectTrace(f, t, xs[..i + 1]) == CollectTrace(f, t, xs[..i]) + t(xs[i])
  {
    assert xs[..i + 1][..i] == xs[..i];
  }

  /** Nothing is left behind after the first failing element. */
  lemma {:induction false} CollectTraceStop<A, B, E>(f: A -> Result<B>, t: A -> seq<E>, xs: seq<A>, i: nat)
    requires i < |xs| && Collect(f, xs[..i]).Ok? && f(xs[i]).Err?
    ensures CollectTrace(f, t, xs) == CollectTrace(f, t, xs[..i + 1])
    decreases |xs|
  {
    if |xs| > i + 1 {
      var init := xs[..|xs| - 1];
      assert init[..i] == xs[..i] && init[i] == xs[i];
      assert init[..i + 1] == xs[..i + 1];
      CollectStop(f, init, i, Collect(f, xs[..i]).value);
      CollectTraceStop(f, t, init, i);
    } else {
      assert xs[..i + 1] == xs;
    }
  }

  lemma ConcatStep<A, E>(t: A -> seq<E>, xs: seq<A>, i: nat)
    requires i < |xs|
    ensures Concat(t, xs[..i + 1]) == Concat(t, xs[..i]) + t(xs[i])
  {
    assert xs[..i + 1][..i] == xs[..i];
  }

  /** A property of every element of every trace holds of the whole loop's trace. */
  lemma {:induction false} CollectTraceHolds<A, B, E>(f: A -> Result<B>, t: A -> seq<E>, q: E -> bool, xs: seq<A>)
    requires forall x, j :: 0 <= j < |t(x)| ==> q(t(x)[j])
    ensures forall j :: 0 <= j < |CollectTrace(f, t, xs)| ==> q(CollectTrace(f, t, xs)[j])
    decreases |xs|
  {
    if |xs| > 0 {
      CollectTraceHolds(f, t, q, xs[..|xs| - 1]);
    }
  }

  lemma {:induction false} ConcatHolds<A, E>(t: A -> seq<E>, q: E -> bool, xs: seq<A>)
    requires forall x, j :: 0 <= j < |t(x)| ==> q(t(x)[j])
    ensures forall j :: 0 <= j < |Concat(t, xs)| ==> q(Concat(t, xs)[j])
    decreases |xs|
  {
    if |xs| > 0 {
      ConcatHolds(t, q, xs[..|xs| - 1]);
    }
  }

  /** Every gathered entry satisfies what every produced entry satisfies,
      and there are at most as many entries as elements. */
  lemma {:induction false} GatherHolds<A, B>(f: A -> Option<B>, q: B -> bool, xs: seq<A>)
    requires forall x :: f(x).Some? ==> q(f(x).value)
    ensures |Gather(f, xs)| <= |xs|
    ensures forall i :: 0 <= i < |Gather(f, xs)| ==> q(Gather(f, xs)[i])
    decreases |xs|
  {
    if |xs| > 0 {
      GatherHolds(f, q, xs[..|xs| - 1]);
    }
  }

  /** Dropping elements that never produce an entry changes nothing. */
  lemma {:induction false} GatherKeep<A, B>(f: A -> Option<B>, p: A -> bool, xs: seq<A>)
    requires forall x :: f(x).Some? ==> p(x)
    ensures Gather(f, Keep(p, xs)) == Gather(f, xs)
    decreases |xs|
  {
    if |xs| > 0 {
      var init := xs[..|xs| - 1];
      var last := xs[|xs| - 1];
      GatherKeep(f, p, init);
      if p(last) {
        var kept := Keep(p, init) + [last];
        assert kept[..|kept| - 1] == Keep(p, init);
      } else {
        assert f(last).None?;
        assert Keep(p, xs) == Keep(p, init) + [] == Keep(p, init);
        assert Gather(f, xs) == Gather(f, init) + [] == Gather(f, init);
      }
    }
  }

  /** When every element produces an entry, there is one per element, in order. */
  lemma {:induction false} GatherAll<A, B>(f: A -> Option<B>, xs: seq<A>)
    requires forall i :: 0 <= i < |xs| ==> f(xs[i]).Some?
    ensures |Gather(f, xs)| == |xs|
    ensures forall i :: 0 <= i < |xs| ==> Gather(f, xs)[i] == f(xs[i]).value
    decreases |xs|
  {
    if |xs| > 0 {
      var init := xs[..|xs| - 1];
      assert forall i :: 0 <= i < |init| ==> init[i] == xs[i];
      GatherAll(f, init);
    }
  }
}
