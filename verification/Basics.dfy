/** What every component shares. */
module Basics {

  datatype Option<+T> = None | Some(value: T)

  /** Row ids are one more than the largest in use. */
  method NextRowId(used: set<nat>) returns (id: nat)
    ensures id !in used && id > 0 && forall x | x in used :: x < id
  {
    id := 1;
    var rest := used;
    while rest != {}
      invariant rest <= used && id > 0
      invariant forall x | x in used && x !in rest :: x < id
      decreases |rest|
    {
      var x :| x in rest;
      if x >= id { id := x + 1; }
      rest := rest - {x};
    }
  }

  /** The sum of f over a finite set of row ids. */
  ghost function SumOf(ids: set<nat>, f: map<nat, nat>): nat
    requires ids <= f.Keys
    decreases |ids|
  {
    if |ids| == 0 then 0 else f[Pick(ids)] + SumOf(ids - {Pick(ids)}, f)
  }

  ghost function Pick(ids: set<nat>): (x: nat)
    requires |ids| > 0
    ensures x in ids
  {
    var x: nat :| x in ids;
    x
  }

  lemma {:induction false} SumSplit(ids: set<nat>, f: map<nat, nat>, x: nat)
    requires ids <= f.Keys && x in ids
    ensures SumOf(ids, f) == f[x] + SumOf(ids - {x}, f)
    decreases |ids|
  {
    var y := Pick(ids);
    if x != y {
      SumSplit(ids - {y}, f, x);
      SumSplit(ids - {x}, f, y);
      assert ids - {x} - {y} == ids - {y} - {x};
    }
  }

  /** Only the values at the summed ids matter. */
  lemma {:induction false} SumSame(ids: set<nat>, f: map<nat, nat>, g: map<nat, nat>)
    requires ids <= f.Keys && ids <= g.Keys
    requires forall x | x in ids :: f[x] == g[x]
    ensures SumOf(ids, f) == SumOf(ids, g)
    decreases |ids|
  {
    if |ids| > 0 {
      var x: nat :| x in ids;
      SumSplit(ids, f, x);
      SumSplit(ids, g, x);
      SumSame(ids - {x}, f, g);
    }
  }

  predicate IsUpper(c: char) { 'A' <= c <= 'Z' }

  function LowerChar(c: char): char {
    if IsUpper(c) then c + 32 as char else if c as int == 0x212A then 'k' else c
  }

  /** str.lower, exact for every string whose result is ASCII. */
  function Lower(s: string): (r: string)
    ensures |r| == |s| && forall i | 0 <= i < |s| :: r[i] == LowerChar(s[i])
  {
    if s == "" then "" else [LowerChar(s[0])] + Lower(s[1..])
  }

  lemma LowerSame(s: string)
    requires forall c | c in s :: LowerChar(c) == c
    ensures Lower(s) == s
  {
    forall i | 0 <= i < |s| ensures Lower(s)[i] == s[i] { assert s[i] in s; }
  }
}
