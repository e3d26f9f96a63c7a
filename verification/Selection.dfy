/** The specification the four best-route loops share: RIP's advertisement and
    redistribution, the SLA protocol's redistribution and the control plane's
    export.  Candidates form a set because Python iterates sets in no
    particular order; a lower score is better. */
module Selection {
  import opened Addressing

  /** `best` has exactly the candidates' prefixes, and holds for each of them
      one candidate whose score no other candidate beats. */
  ghost predicate IsSelection<R>(candidates: set<R>, prefix: R -> Prefix, score: R -> int, best: map<Prefix, R>) {
    && (forall r :: r in candidates ==> prefix(r) in best)
    && (forall p :: p in best ==>
          best[p] in candidates && prefix(best[p]) == p && Unbeaten(candidates, prefix, score, best[p]))
  }

  ghost predicate Unbeaten<R>(candidates: set<R>, prefix: R -> Prefix, score: R -> int, chosen: R) {
    forall r :: r in candidates && prefix(r) == prefix(chosen) ==> score(chosen) <= score(r)
  }

  /** One iteration of every loop: keep the first candidate of a prefix, replace
      it only by a strictly better one. */
  function Consider<R>(best: map<Prefix, R>, prefix: R -> Prefix, score: R -> int, r: R): map<Prefix, R> {
    if prefix(r) !in best || score(r) < score(best[prefix(r)]) then best[prefix(r) := r] else best
  }

  lemma EmptySelection<R>(prefix: R -> Prefix, score: R -> int)
    ensures IsSelection({}, prefix, score, map[])
  {
  }

  lemma ConsiderExtends<R>(seen: set<R>, prefix: R -> Prefix, score: R -> int, best: map<Prefix, R>, r: R)
    requires IsSelection(seen, prefix, score, best)
    ensures IsSelection(seen + {r}, prefix, score, Consider(best, prefix, score, r))
  {
    var best' := Consider(best, prefix, score, r);
    forall p | p in best'
      ensures best'[p] in seen + {r} && prefix(best'[p]) == p
      ensures Unbeaten(seen + {r}, prefix, score, best'[p])
    {
    }
  }

  /** Whatever order the loop met the candidates in, two selections agree on
      the prefixes and on every prefix's score; only ties may differ. */
  lemma SelectionsAgree<R>(candidates: set<R>, prefix: R -> Prefix, score: R -> int, x: map<Prefix, R>,
                           y: map<Prefix, R>)
    requires IsSelection(candidates, prefix, score, x)
    requires IsSelection(candidates, prefix, score, y)
    ensures x.Keys == y.Keys
    ensures forall p :: p in x ==> score(x[p]) == score(y[p])
  {
    forall p
      ensures p in x <==> p in y
      ensures p in x ==> score(x[p]) == score(y[p])
    {
      if p in x {
        assert prefix(x[p]) == p && x[p] in candidates;
      }
      if p in y {
        assert prefix(y[p]) == p && y[p] in candidates;
      }
    }
  }

  lemma {:induction false} SomeSelection<R>(candidates: set<R>, prefix: R -> Prefix, score: R -> int)
      returns (best: map<Prefix, R>)
    ensures IsSelection(candidates, prefix, score, best)
    decreases |candidates|
  {
    hide IsSelection;
    if candidates == {} {
      best := map[];
      EmptySelection<R>(prefix, score);
    } else {
      var r :| r in candidates;
      var before := SomeSelection(candidates - {r}, prefix, score);
      best := Consider(before, prefix, score, r);
      ConsiderExtends(candidates - {r}, prefix, score, before, r);
      assert candidates - {r} + {r} == candidates;
    }
  }
}
