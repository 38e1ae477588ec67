/** Filling a budget: pinned items first, then the best of a ranking that are not pinned. */
module Picking {
  import opened Collections
  import opened Sorting

  function Cut<P>(s: seq<P>, n: nat): (r: seq<P>)
    ensures |r| == Min(n, |s|) && r <= s
  {
    s[..Min(n, |s|)]
  }

  lemma CutPrefix<P>(s: seq<P>, t: seq<P>, n: nat)
    requires s <= t && (n <= |s| || s == t)
    ensures Cut(s, n) == Cut(t, n)
  {
  }

  /** The items that are not in `used`, in order. */
  function Fresh<P(==)>(ps: seq<P>, used: set<P>): (r: seq<P>)
    ensures |r| <= |ps|
  {
    if ps == [] then []
    else
      var n := |ps| - 1;
      Fresh(ps[..n], used) + (if ps[n] in used then [] else [ps[n]])
  }

  lemma FreshSnoc<P>(ps: seq<P>, i: nat, used: set<P>)
    requires i < |ps|
    ensures Fresh(ps[..i + 1], used) == Fresh(ps[..i], used) + (if ps[i] in used then [] else [ps[i]])
  {
    assert ps[..i + 1][..i] == ps[..i];
  }

  lemma {:induction false} FreshPrefix<P>(ps: seq<P>, used: set<P>, n: nat)
    requires n <= |ps|
    ensures Fresh(ps[..n], used) <= Fresh(ps, used)
    decreases |ps|
  {
    if n < |ps| {
      var m := |ps| - 1;
      FreshPrefix(ps[..m], used, n);
      assert ps[..m][..n] == ps[..n];
    } else {
      assert ps[..n] == ps;
    }
  }

  lemma {:induction false} FreshMember<P>(ps: seq<P>, used: set<P>, p: P)
    ensures p in Fresh(ps, used) <==> p in ps && p !in used
    decreases |ps|
  {
    if ps != [] {
      var n := |ps| - 1;
      FreshMember(ps[..n], used, p);
      assert ps == ps[..n] + [ps[n]];
    }
  }

  lemma {:induction false} FreshDistinct<P>(ps: seq<P>, used: set<P>)
    requires Distinct(ps)
    ensures Distinct(Fresh(ps, used))
    decreases |ps|
  {
    if ps != [] {
      var n := |ps| - 1;
      FreshDistinct(ps[..n], used);
      FreshMember(ps[..n], used, ps[n]);
    }
  }

  lemma {:induction false} FreshSame<P>(ps: seq<P>, used: set<P>, p: P)
    requires p !in ps
    ensures Fresh(ps, used) == Fresh(ps, used - {p})
    decreases |ps|
  {
    if ps != [] {
      FreshSame(ps[..|ps| - 1], used, p);
    }
  }

  /** At most `|used|` of the items are used up. */
  lemma {:induction false} FreshCount<P>(ps: seq<P>, used: set<P>)
    requires Distinct(ps)
    ensures |Fresh(ps, used)| + |used| >= |ps|
    decreases |ps|
  {
    if ps != [] {
      var n := |ps| - 1;
      if ps[n] in used {
        FreshCount(ps[..n], used - {ps[n]});
        FreshSame(ps[..n], used, ps[n]);
      } else {
        FreshCount(ps[..n], used);
      }
    }
  }

  /** Ranking only `(budget - pins) + used` items loses nothing: the cut selection is the
      same as with the whole ranking. */
  lemma EnoughRanked<P>(pins: seq<P>, full: seq<P>, used: set<P>, budget: nat, k: nat)
    requires Distinct(full) && |pins| <= budget && k == budget - |pins| + |used|
    ensures Cut(pins + Fresh(Cut(full, k), used), budget) == Cut(pins + Fresh(full, used), budget)
  {
    FreshPrefix(full, used, |Cut(full, k)|);
    if k < |full| {
      FreshCount(Cut(full, k), used);
    } else {
      assert Cut(full, k) == full;
    }
    CutPrefix(pins + Fresh(Cut(full, k), used), pins + Fresh(full, used), budget);
  }

  lemma {:induction false} DistinctSize<P>(s: seq<P>, keys: set<P>)
    requires Distinct(s) && forall p :: p in s <==> p in keys
    ensures |s| == |keys|
  {
    if s == [] {
      assert keys == {};
    } else {
      forall p
        ensures p in s[1..] <==> p in keys - {s[0]}
      {
        DistinctTail(s, p);
      }
      DistinctTail(s, s[0]);
      DistinctSize(s[1..], keys - {s[0]});
    }
  }

  ghost function SetOf<P>(s: seq<P>): set<P> {
    set p | p in s
  }

  /** Pinned and fresh items together are all the items, each once. */
  lemma EveryItemOnce<P>(pins: seq<P>, full: seq<P>, keys: set<P>)
    requires Distinct(pins) && Distinct(full)
    requires (forall p :: p in pins ==> p in keys) && (forall p :: p in full <==> p in keys)
    ensures var all := pins + Fresh(full, SetOf(pins));
            Distinct(all) && (forall p :: p in all <==> p in keys) && |all| == |keys|
  {
    var rest := Fresh(full, SetOf(pins));
    FreshDistinct(full, SetOf(pins));
    forall p
      ensures p in rest <==> p in keys && p !in pins
    {
      FreshMember(full, SetOf(pins), p);
    }
    forall i, j | 0 <= i < |pins| && 0 <= j < |rest|
      ensures pins[i] != rest[j]
    {
      assert rest[j] in rest && pins[i] in pins;
    }
    DistinctConcat(pins, rest);
    DistinctSize(pins + rest, keys);
  }

  // ------------------------------------------------------------- the loops

  ghost predicate Known<P, B>(ps: seq<P>, bodies: map<P, B>) {
    forall i :: 0 <= i < |ps| ==> ps[i] in bodies
  }

  /** Items with their bodies. */
  function Attach<P(==), B>(ps: seq<P>, bodies: map<P, B>): (sel: seq<(P, B)>)
    requires Known(ps, bodies)
    ensures |sel| == |ps|
  {
    if ps == [] then []
    else
      var n := |ps| - 1;
      Attach(ps[..n], bodies) + [(ps[n], bodies[ps[n]])]
  }

  lemma AttachSnoc<P, B>(ps: seq<P>, p: P, bodies: map<P, B>)
    requires p in bodies && Known(ps, bodies)
    ensures Known(ps + [p], bodies)
    ensures Attach(ps + [p], bodies) == Attach(ps, bodies) + [(p, bodies[p])]
  {
    assert (ps + [p])[..|ps|] == ps;
  }

  /** The first loop: pins up to the budget. */
  method TakePins<P(==), B>(pins: seq<P>, bodies: map<P, B>, budget: nat) returns (sel: seq<(P, B)>, used: set<P>)
    requires Distinct(pins) && Known(pins, bodies)
    ensures Known(Cut(pins, budget), bodies) && sel == Attach(Cut(pins, budget), bodies)
    ensures |pins| < budget ==> used == SetOf(pins) && |used| == |pins|
  {
    sel, used := [], {};
    var i := 0;
    while i < |pins| && |sel| < budget
      invariant i <= |pins| && i <= budget && |used| == i
      invariant Known(pins[..i], bodies) && sel == Attach(pins[..i], bodies)
      invariant used == SetOf(pins[..i])
    {
      assert pins[..i + 1] == pins[..i] + [pins[i]];
      AttachSnoc(pins[..i], pins[i], bodies);
      used := used + {pins[i]};
      sel := sel + [(pins[i], bodies[pins[i]])];
      i := i + 1;
    }
    assert pins[..|pins|] == pins;
    assert pins[..i] == Cut(pins, budget);
  }

  /** The second loop: the rest of the budget from the ranking. */
  method FillFromRanking<P(==), B>(pins: seq<P>, ranked: seq<P>, pinned: set<P>, bodies: map<P, B>, budget: nat)
    returns (sel: seq<(P, B)>, ghost ps: seq<P>)
    requires Distinct(ranked) && |pins| <= budget && Known(pins, bodies) && Known(ranked, bodies)
    ensures ps == Cut(pins + Fresh(ranked, pinned), budget)
    ensures Known(ps, bodies) && sel == Attach(ps, bodies)
  {
    sel, ps := Attach(pins, bodies), pins;
    var used := pinned;
    var i := 0;
    while i < |ranked| && |sel| < budget
      invariant i <= |ranked| && |ps| <= budget
      invariant Known(ps, bodies) && sel == Attach(ps, bodies)
      invariant ps == pins + Fresh(ranked[..i], pinned)
      invariant forall j :: i <= j < |ranked| ==> (ranked[j] in used <==> ranked[j] in pinned)
    {
      FreshSnoc(ranked, i, pinned);
      if ranked[i] !in used {
        used := used + {ranked[i]};
        AttachSnoc(ps, ranked[i], bodies);
        sel := sel + [(ranked[i], bodies[ranked[i]])];
        ps := ps + [ranked[i]];
      }
      i := i + 1;
    }
    FreshPrefix(ranked, pinned, i);
    assert ranked[..|ranked|] == ranked;
    CutPrefix(ps, pins + Fresh(ranked, pinned), budget);
  }
}
