/** What a provider declared about a media file against what was measured of
    its bytes. */
module DeclaredClaims {

  import opened Basics

  datatype ClaimKind = Sha256 | Md5 | FileSize | MimeType | Width | Height
  datatype Value = Text(text: string) | Number(number: nat)
  datatype Verdict = Matched | Mismatched | NotComparable

  /** A declared and a verified value; either may be missing. */
  datatype Claim = Claim(kind: ClaimKind, declared: Option<Value>, verified: Option<Value>)
  datatype Comparison = Comparison(kind: ClaimKind, declared: Value, verified: Option<Value>, verdict: Verdict)

  /** `derivative`: an e621 selection other than its original. */
  datatype Declared = Declared(
    derivative: bool, sha256: Option<string>, md5: Option<string>, size: Option<nat>,
    mime: Option<string>, width: Option<nat>, height: Option<nat>)

  datatype Inspection = Inspection(
    sha256: string, md5: string, size: nat, mime: Option<string>, width: Option<nat>, height: Option<nat>, exactOnly: bool)

  function Folded(v: Value): Value {
    match v case Text(t) => Text(Lower(t)) case Number(_) => v
  }

  function Texts(v: Option<string>): Option<Value> { if v.Some? then Some(Text(v.value)) else None }
  function Numbers(v: Option<nat>): Option<Value> { if v.Some? then Some(Number(v.value)) else None }

  function Claims(d: Declared, i: Inspection): seq<Claim> {
    [ Claim(Sha256, Texts(d.sha256), Some(Text(i.sha256))), Claim(Md5, Texts(d.md5), Some(Text(i.md5))),
      Claim(FileSize, Numbers(d.size), Some(Number(i.size))), Claim(MimeType, Texts(d.mime), Texts(i.mime)),
      Claim(Width, Numbers(d.width), Numbers(i.width)), Claim(Height, Numbers(d.height), Numbers(i.height)) ]
  }

  function Judge(kind: ClaimKind, declared: Value, verified: Option<Value>): Verdict {
    if verified.None? then NotComparable
    else if kind == MimeType && declared.Text? && '/' !in declared.text then NotComparable
    else if Folded(declared) == Folded(verified.value) then Matched
    else Mismatched
  }

  function Compared(claims: seq<Claim>): seq<Comparison> {
    if claims == [] then []
    else
      var c := claims[|claims| - 1];
      Compared(claims[..|claims| - 1]) +
        if c.declared.None? then [] else [Comparison(c.kind, c.declared.value, c.verified, Judge(c.kind, c.declared.value, c.verified))]
  }

  function Comparisons(d: Declared, i: Inspection): seq<Comparison> {
    if d.derivative then [] else Compared(Claims(d, i))
  }

  /** The check before publication. */
  predicate ExactMismatch(comparisons: seq<Comparison>) {
    exists k :: 0 <= k < |comparisons| && comparisons[k].kind in {Sha256, Md5} && comparisons[k].verdict == Mismatched
  }

  /** The measured hashes agree with the declared ones, up to letter case. */
  predicate Agrees(d: Declared, sha256: string, md5: string) {
    && (d.sha256.Some? ==> Lower(d.sha256.value) == Lower(sha256))
    && (d.md5.Some? ==> Lower(d.md5.value) == Lower(md5))
  }

  lemma {:induction false} ComparedIff(claims: seq<Claim>)
    ensures ExactMismatch(Compared(claims)) <==>
            exists k :: 0 <= k < |claims| && claims[k].kind in {Sha256, Md5} && claims[k].declared.Some?
                        && Judge(claims[k].kind, claims[k].declared.value, claims[k].verified) == Mismatched
  {
    if claims != [] {
      var n := |claims| - 1;
      var front := claims[..n];
      ComparedIff(front);
      var head, all := Compared(front), Compared(claims);
      assert all[..|head|] == head;
      if ExactMismatch(head) {
        var k :| 0 <= k < |head| && head[k].kind in {Sha256, Md5} && head[k].verdict == Mismatched;
        assert all[k] == head[k];
        var j :| 0 <= j < n && front[j].kind in {Sha256, Md5} && front[j].declared.Some?
                 && Judge(front[j].kind, front[j].declared.value, front[j].verified) == Mismatched;
        assert claims[j] == front[j];
      } else {
        forall j | 0 <= j < n
          ensures !(claims[j].kind in {Sha256, Md5} && claims[j].declared.Some?
                    && Judge(claims[j].kind, claims[j].declared.value, claims[j].verified) == Mismatched)
        {
          assert claims[j] == front[j];
        }
        if claims[n].declared.Some? { assert all[|head|].kind == claims[n].kind; }
        forall k | 0 <= k < |head| ensures all[k] == head[k] {}
      }
    }
  }

  /** Bytes are refused exactly when a declared hash disagrees with theirs;
      sizes, dimensions and media types never refuse, and e621 derivatives are
      not compared at all. */
  lemma MismatchExactly(d: Declared, i: Inspection)
    ensures ExactMismatch(Comparisons(d, i)) <==> !d.derivative && !Agrees(d, i.sha256, i.md5)
  {
    var claims := Claims(d, i);
    ComparedIff(claims);
    assert claims[0].kind == Sha256 && claims[1].kind == Md5;
    assert forall k | 2 <= k < |claims| :: claims[k].kind !in {Sha256, Md5};
  }

  // ----- each comparison -----

  function SameText(a: string, b: string): Verdict { if Lower(a) == Lower(b) then Matched else Mismatched }
  function SameNumber(a: nat, b: Option<nat>): Verdict { if b.None? then NotComparable else if a == b.value then Matched else Mismatched }

  /** A declared value and what was measured: texts without regard to letter
      case, a media type only when it is one and one was measured. */
  predicate Stated(d: Declared, i: Inspection, c: Comparison) {
    match c.kind
    case Sha256 =>
      && d.sha256.Some? && c.declared == Text(d.sha256.value) && c.verified == Some(Text(i.sha256))
      && c.verdict == SameText(d.sha256.value, i.sha256)
    case Md5 =>
      d.md5.Some? && c.declared == Text(d.md5.value) && c.verified == Some(Text(i.md5)) && c.verdict == SameText(d.md5.value, i.md5)
    case FileSize =>
      d.size.Some? && c.declared == Number(d.size.value) && c.verified == Some(Number(i.size)) && c.verdict == SameNumber(d.size.value, Some(i.size))
    case MimeType =>
      && d.mime.Some? && c.declared == Text(d.mime.value) && c.verified == (if i.mime.Some? then Some(Text(i.mime.value)) else None)
      && c.verdict == if i.mime.None? || '/' !in d.mime.value then NotComparable else SameText(d.mime.value, i.mime.value)
    case Width =>
      && d.width.Some? && c.declared == Number(d.width.value) && c.verified == (if i.width.Some? then Some(Number(i.width.value)) else None)
      && c.verdict == SameNumber(d.width.value, i.width)
    case Height =>
      && d.height.Some? && c.declared == Number(d.height.value) && c.verified == (if i.height.Some? then Some(Number(i.height.value)) else None)
      && c.verdict == SameNumber(d.height.value, i.height)
  }

  lemma {:induction false} ComparedEach(claims: seq<Claim>, c: Comparison)
    ensures c in Compared(claims) <==>
            exists k :: 0 <= k < |claims| && claims[k].declared.Some? && c.kind == claims[k].kind && c.declared == claims[k].declared.value
                        && c.verified == claims[k].verified && c.verdict == Judge(c.kind, c.declared, c.verified)
  {
    if claims != [] {
      var n := |claims| - 1;
      ComparedEach(claims[..n], c);
      forall k | 0 <= k < n ensures claims[..n][k] == claims[k] {}
      if c in Compared(claims[..n]) {
        var k :| 0 <= k < n && claims[..n][k].declared.Some? && c.kind == claims[..n][k].kind && c.declared == claims[..n][k].declared.value
                 && c.verified == claims[..n][k].verified && c.verdict == Judge(c.kind, c.declared, c.verified);
        assert claims[k].declared.Some? && c.kind == claims[k].kind;
      }
    }
  }

  lemma {:induction false} ComparedOnce(claims: seq<Claim>)
    requires forall j, k | 0 <= j < k < |claims| :: claims[j].kind != claims[k].kind
    ensures forall j, k | 0 <= j < k < |Compared(claims)| :: Compared(claims)[j].kind != Compared(claims)[k].kind
    ensures forall c | c in Compared(claims) :: exists k :: 0 <= k < |claims| && claims[k].kind == c.kind
  {
    if claims != [] {
      var n := |claims| - 1;
      var front := Compared(claims[..n]);
      ComparedOnce(claims[..n]);
      forall c | c in front ensures c.kind != claims[n].kind {
        var k :| 0 <= k < n && claims[..n][k].kind == c.kind;
        assert claims[k].kind != claims[n].kind;
      }
      forall c | c in Compared(claims) ensures exists k :: 0 <= k < |claims| && claims[k].kind == c.kind {
        if c in front {
          var k :| 0 <= k < n && claims[..n][k].kind == c.kind;
          assert claims[k].kind == c.kind;
        } else {
          assert claims[n].kind == c.kind;
        }
      }
      forall j, k | 0 <= j < k < |Compared(claims)| ensures Compared(claims)[j].kind != Compared(claims)[k].kind {
        if k == |front| { assert front[j] in front; }
      }
    }
  }

  /** Every declared value is compared, once, and nothing else. */
  lemma ComparisonsSay(d: Declared, i: Inspection)
    ensures forall c :: c in Comparisons(d, i) <==> !d.derivative && Stated(d, i, c)
    ensures forall j, k | 0 <= j < k < |Comparisons(d, i)| :: Comparisons(d, i)[j].kind != Comparisons(d, i)[k].kind
  {
    if !d.derivative {
      ComparedOnce(Claims(d, i));
      forall c ensures c in Compared(Claims(d, i)) <==> Stated(d, i, c) {
        ComparedEach(Claims(d, i), c);
        StatedIsClaimed(d, i, c);
      }
    }
  }

  lemma StatedIsClaimed(d: Declared, i: Inspection, c: Comparison)
    ensures Stated(d, i, c) <==>
            exists k :: 0 <= k < |Claims(d, i)| && Claims(d, i)[k].declared.Some? && c.kind == Claims(d, i)[k].kind
                        && c.declared == Claims(d, i)[k].declared.value && c.verified == Claims(d, i)[k].verified
                        && c.verdict == Judge(c.kind, c.declared, c.verified)
  {
    var claims := Claims(d, i);
    var k := match c.kind case Sha256 => 0 case Md5 => 1 case FileSize => 2 case MimeType => 3 case Width => 4 case Height => 5;
    assert claims[k].kind == c.kind && forall j | 0 <= j < 6 && claims[j].kind == c.kind :: j == k;
  }

  method CompareDeclaredClaims(d: Declared, i: Inspection) returns (comparisons: seq<Comparison>)
    ensures comparisons == Comparisons(d, i)
    ensures ExactMismatch(comparisons) <==> !d.derivative && !Agrees(d, i.sha256, i.md5)
  {
    comparisons := [];
    MismatchExactly(d, i);
    if d.derivative { return; }
    var values := Claims(d, i);
    for k := 0 to |values|
      invariant comparisons == Compared(values[..k])
    {
      assert values[..k + 1][..k] == values[..k];
      if values[k].declared.Some? {
        var declared := values[k].declared.value;
        comparisons := comparisons + [Comparison(values[k].kind, declared, values[k].verified,
                                                 Judge(values[k].kind, declared, values[k].verified))];
      }
    }
    assert values[..|values|] == values;
  }
}
