/** Accumulating per-chunk results into one run: the listings of every chunk in
    order, and the sums of the chunks' token counts. Both scrapers' loops are
    instances of the left fold `Fold` below. */
module Tally {
  import opened Json

  /** What one chunk contributes to a run, or what a run has gathered so far. */
  datatype Tally = Tally(listings: seq<Json>, inputTokens: nat, outputTokens: nat)

  const Empty: Tally := Tally([], 0, 0)

  function Combine(a: Tally, b: Tally): Tally
  {
    Tally(a.listings + b.listings, a.inputTokens + b.inputTokens, a.outputTokens + b.outputTokens)
  }

  /** The state of a run after the given chunk steps, taken left to right as the
      loops do; the first failing step ends the run with its error. */
  function Fold(steps: seq<Result<Tally>>): Result<Tally>
  {
    if steps == [] then Ok(Empty)
    else
      match Fold(steps[..|steps| - 1])
      case Err(e) => Err(e)
      case Ok(acc) =>
        match steps[|steps| - 1]
        case Err(e) => Err(e)
        case Ok(t) => Ok(Combine(acc, t))
  }

  // Reference definitions: concatenation and sums over all chunks.

  function AllListings(ts: seq<Tally>): seq<Json>
  {
    if ts == [] then [] else ts[0].listings + AllListings(ts[1..])
  }

  function TotalInput(ts: seq<Tally>): nat
  {
    if ts == [] then 0 else ts[0].inputTokens + TotalInput(ts[1..])
  }

  function TotalOutput(ts: seq<Tally>): nat
  {
    if ts == [] then 0 else ts[0].outputTokens + TotalOutput(ts[1..])
  }

  predicate AllOk(steps: seq<Result<Tally>>)
  {
    forall i :: 0 <= i < |steps| ==> steps[i].Ok?
  }

  function Values(steps: seq<Result<Tally>>): (ts: seq<Tally>)
    requires AllOk(steps)
    ensures |ts| == |steps| && forall i :: 0 <= i < |steps| ==> steps[i] == Ok(ts[i])
  {
    seq(|steps|, i requires 0 <= i < |steps| && steps[i].Ok? => steps[i].value)
  }

  lemma {:induction false} TotalsAppend(a: seq<Tally>, b: seq<Tally>)
    ensures AllListings(a + b) == AllListings(a) + AllListings(b)
    ensures TotalInput(a + b) == TotalInput(a) + TotalInput(b)
    ensures TotalOutput(a + b) == TotalOutput(a) + TotalOutput(b)
  {
    if a == [] {
      assert a + b == b;
    } else {
      assert (a + b)[1..] == a[1..] + b;
      TotalsAppend(a[1..], b);
    }
  }

  /** When no chunk fails, the run gathers exactly the concatenation of every
      chunk's listings, in chunk order, and the sums of their token counts. */
  lemma {:induction false} FoldAllOk(steps: seq<Result<Tally>>)
    requires AllOk(steps)
    ensures var ts := Values(steps);
      Fold(steps) == Ok(Tally(AllListings(ts), TotalInput(ts), TotalOutput(ts)))
  {
    if steps != [] {
      var n := |steps| - 1;
      var init := steps[..n];
      FoldAllOk(init);
      var ts := Values(steps);
      var vs := Values(init);
      assert vs == ts[..n];
      assert ts == vs + [ts[n]];
      TotalsAppend(vs, [ts[n]]);
      assert [ts[n]][1..] == [];
      assert steps[n] == Ok(ts[n]);
      assert Fold(init) == Ok(Tally(AllListings(vs), TotalInput(vs), TotalOutput(vs)));
      assert Fold(steps) == Ok(Combine(Fold(init).value, ts[n]));
      assert AllListings([ts[n]]) == ts[n].listings;
      assert TotalInput([ts[n]]) == ts[n].inputTokens;
      assert TotalOutput([ts[n]]) == ts[n].outputTokens;
    }
  }

  /** The first failing chunk decides the outcome of the run. */
  lemma {:induction false} FoldFirstError(steps: seq<Result<Tally>>, i: nat)
    requires i < |steps| && steps[i].Err?
    requires forall k :: 0 <= k < i ==> steps[k].Ok?
    ensures Fold(steps) == Err(steps[i].error)
  {
    var n := |steps| - 1;
    if i == n {
      FoldAllOk(steps[..n]);
    } else {
      assert steps[..n][i] == steps[i];
      FoldFirstError(steps[..n], i);
    }
  }

  /** One more successful step extends a successful run by that step. */
  lemma FoldSnoc(steps: seq<Result<Tally>>, i: nat, t: Tally)
    requires i < |steps| && Fold(steps[..i]).Ok? && steps[i] == Ok(t)
    ensures Fold(steps[..i + 1]) == Ok(Combine(Fold(steps[..i]).value, t))
  {
    assert steps[..i + 1][..i] == steps[..i];
  }

  /** A failing step after a successful prefix decides the whole run. */
  lemma FoldStopsAt(steps: seq<Result<Tally>>, i: nat)
    requires i < |steps| && Fold(steps[..i]).Ok? && steps[i].Err?
    ensures Fold(steps) == Err(steps[i].error)
  {
    FoldOkIffAllOk(steps[..i]);
    assert forall k :: 0 <= k < i ==> steps[..i][k] == steps[k];
    FoldFirstError(steps, i);
  }

  /** A run fails exactly when one of its chunks fails. */
  lemma {:induction false} FoldOkIffAllOk(steps: seq<Result<Tally>>)
    ensures Fold(steps).Ok? <==> AllOk(steps)
  {
    if steps != [] {
      var n := |steps| - 1;
      FoldOkIffAllOk(steps[..n]);
      assert AllOk(steps) <==> AllOk(steps[..n]) && steps[n].Ok?;
    }
  }

  /** Accumulation never loses anything: every prefix of a successful run
      succeeds with a prefix of its listings and no larger token totals. */
  lemma {:induction false} FoldMonotone(steps: seq<Result<Tally>>, k: nat)
    requires k <= |steps| && Fold(steps).Ok?
    ensures Fold(steps[..k]).Ok?
    ensures var p, w := Fold(steps[..k]).value, Fold(steps).value;
      p.listings <= w.listings && p.inputTokens <= w.inputTokens && p.outputTokens <= w.outputTokens
  {
    if k < |steps| {
      var n := |steps| - 1;
      assert steps[..n][..k] == steps[..k];
      FoldMonotone(steps[..n], k);
    } else {
      assert steps[..k] == steps;
    }
  }

  /** Token totals do not depend on the order of the chunks: any rearrangement of
      the same chunk results sums to the same counts. */
  lemma {:induction false} TotalsOrderIndependent(a: seq<Tally>, b: seq<Tally>)
    requires multiset(a) == multiset(b)
    ensures TotalInput(a) == TotalInput(b) && TotalOutput(a) == TotalOutput(b)
  {
    if a == [] {
      assert |b| == |multiset(b)| == 0;
    } else {
      assert a[0] in multiset(b) by { assert a[0] in multiset(a); }
      var j :| 0 <= j < |b| && b[j] == a[0];
      var rest := b[..j] + b[j + 1..];
      RemoveMatching(a, b, j);
      TotalsOrderIndependent(a[1..], rest);
      TotalsWithout(b, j);
    }
  }

  lemma RemoveMatching(a: seq<Tally>, b: seq<Tally>, j: nat)
    requires multiset(a) == multiset(b) && a != [] && j < |b| && b[j] == a[0]
    ensures multiset(a[1..]) == multiset(b[..j] + b[j + 1..])
  {
    var x, rest := a[0], b[..j] + b[j + 1..];
    assert b == b[..j] + [x] + b[j + 1..];
    assert multiset(b) == multiset(b[..j]) + multiset{x} + multiset(b[j + 1..]);
    assert multiset(rest) == multiset(b[..j]) + multiset(b[j + 1..]);
    assert a == [x] + a[1..];
    assert multiset(a) == multiset{x} + multiset(a[1..]);
    assert multiset(a[1..]) == multiset(a) - multiset{x};
  }

  lemma TotalsWithout(b: seq<Tally>, j: nat)
    requires j < |b|
    ensures TotalInput(b) == b[j].inputTokens + TotalInput(b[..j] + b[j + 1..])
    ensures TotalOutput(b) == b[j].outputTokens + TotalOutput(b[..j] + b[j + 1..])
  {
    assert b == b[..j] + ([b[j]] + b[j + 1..]);
    TotalsAppend(b[..j], [b[j]] + b[j + 1..]);
    TotalsAppend(b[..j], b[j + 1..]);
    assert ([b[j]] + b[j + 1..])[1..] == b[j + 1..];
  }
}
