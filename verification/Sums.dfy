/** Finite sums over keyed collections, whatever order the keys are visited in. */
module Sums {

  ghost function Sum(keys: set<string>, f: string -> real): real {
    if keys == {} then 0.0
    else
      var k :| k in keys;
      f(k) + Sum(keys - {k}, f)
  }

  /** Any key can be taken first. */
  lemma {:induction false} SumPick(keys: set<string>, f: string -> real, k: string)
    requires k in keys
    ensures Sum(keys, f) == f(k) + Sum(keys - {k}, f)
    decreases keys
  {
    var j :| j in keys && Sum(keys, f) == f(j) + Sum(keys - {j}, f);
    if j != k {
      SumPick(keys - {j}, f, k);
      SumPick(keys - {k}, f, j);
      assert keys - {j} - {k} == keys - {k} - {j};
    }
  }

  lemma {:induction false} SumAdd(keys: set<string>, h: string -> real, f: string -> real, g: string -> real)
    requires forall k :: k in keys ==> h(k) == f(k) + g(k)
    ensures Sum(keys, h) == Sum(keys, f) + Sum(keys, g)
    decreases keys
  {
    if k :| k in keys {
      SumPick(keys, h, k);
      SumPick(keys, f, k);
      SumPick(keys, g, k);
      SumAdd(keys - {k}, h, f, g);
    }
  }

  lemma {:induction false} SumScale(keys: set<string>, h: string -> real, c: real, g: string -> real)
    requires forall k :: k in keys ==> h(k) == c * g(k)
    ensures Sum(keys, h) == c * Sum(keys, g)
    decreases keys
  {
    if k :| k in keys {
      SumPick(keys, h, k);
      SumPick(keys, g, k);
      SumScale(keys - {k}, h, c, g);
    }
  }

  lemma {:induction false} SumSame(keys: set<string>, f: string -> real, g: string -> real)
    requires forall k :: k in keys ==> f(k) == g(k)
    ensures Sum(keys, f) == Sum(keys, g)
    decreases keys
  {
    if keys != {} {
      var k :| k in keys;
      SumPick(keys, f, k);
      SumPick(keys, g, k);
      SumSame(keys - {k}, f, g);
    }
  }

  /** Keys that contribute nothing can be left out. */
  lemma {:induction false} SumWiden(keys: set<string>, more: set<string>, f: string -> real)
    requires keys <= more && forall k :: k in more - keys ==> f(k) == 0.0
    ensures Sum(keys, f) == Sum(more, f)
    decreases more
  {
    if k :| k in more && k !in keys {
      SumPick(more, f, k);
      SumWiden(keys, more - {k}, f);
    } else {
      assert keys == more;
    }
  }

  /** Two sums that differ in one key. */
  lemma SumChange(keys: set<string>, f: string -> real, g: string -> real, k: string)
    requires k in keys && forall j :: j in keys && j != k ==> f(j) == g(j)
    ensures Sum(keys, g) == Sum(keys, f) + g(k) - f(k)
  {
    SumPick(keys, f, k);
    SumPick(keys, g, k);
    SumSame(keys - {k}, f, g);
  }

  /** Moving one key's term from a pending sum to an accumulator. */
  lemma SumStep(acc: real, rest: set<string>, f: string -> real, k: string, term: real)
    requires k in rest && f(k) == term
    ensures acc + Sum(rest, f) == (acc + term) + Sum(rest - {k}, f)
  {
    SumPick(rest, f, k);
  }
}
