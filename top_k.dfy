/**
 * The selection `np.argsort(scores)[-k:][::-1]` over a list of candidate
 * pixels: the (at most) k best-scoring candidates, highest first. argsort
 * is not stable, so among equal scores any order is acceptable; this
 * definition takes the first best candidate each time, and nothing proved
 * about it depends on that choice.
 */
module TopK {

  /** Every candidate names a pixel of the score array. */
  ghost predicate InScores(c: seq<nat>, score: seq<real>)
  {
    forall i :: 0 <= i < |c| ==> c[i] < |score|
  }

  ghost predicate Distinct(c: seq<nat>)
  {
    forall i, j :: 0 <= i < j < |c| ==> c[i] != c[j]
  }

  /** Scores never increase along `c`. */
  ghost predicate NonIncreasing(c: seq<nat>, score: seq<real>)
    requires InScores(c, score)
  {
    forall i, j :: 0 <= i < j < |c| ==> score[c[i]] >= score[c[j]]
  }

  /** The position in `c` of a best-scoring candidate (the first one). */
  function BestPosition(c: seq<nat>, score: seq<real>): (j: nat)
    requires |c| > 0 && InScores(c, score)
    ensures j < |c|
    ensures forall i :: 0 <= i < |c| ==> score[c[i]] <= score[c[j]]
  {
    if |c| == 1 then 0
    else
      var rest := 1 + BestPosition(c[1..], score);
      if score[c[0]] >= score[c[rest]] then 0 else rest
  }

  function Without(c: seq<nat>, j: nat): (r: seq<nat>)
    requires j < |c|
    ensures |r| == |c| - 1
    ensures forall x :: x in r ==> x in c
    ensures forall x :: x in c && x != c[j] ==> x in r
  {
    c[..j] + c[j + 1..]
  }

  /** The best `k` candidates, highest score first. */
  function Top(c: seq<nat>, score: seq<real>, k: nat): (r: seq<nat>)
    requires InScores(c, score)
    ensures |r| == if k < |c| then k else |c|
    ensures forall x :: x in r ==> x in c
    ensures InScores(r, score)
    decreases k
  {
    if k == 0 || |c| == 0 then []
    else
      var j := BestPosition(c, score);
      [c[j]] + Top(Without(c, j), score, k - 1)
  }

  /** The selection is ordered highest score first. */
  lemma {:induction false} TopNonIncreasing(c: seq<nat>, score: seq<real>, k: nat)
    requires InScores(c, score)
    ensures NonIncreasing(Top(c, score, k), score)
    decreases k
  {
    if k > 0 && |c| > 0 {
      var j := BestPosition(c, score);
      var rest := Top(Without(c, j), score, k - 1);
      TopNonIncreasing(Without(c, j), score, k - 1);
      var r := [c[j]] + rest;
      assert r == Top(c, score, k);
      forall a, b | 0 <= a < b < |r|
        ensures score[r[a]] >= score[r[b]]
      {
        if a > 0 {
          assert r[a] == rest[a - 1] && r[b] == rest[b - 1];
        } else {
          assert r[b] in c;
        }
      }
    }
  }

  /** Distinct candidates give a selection without repeats. */
  lemma {:induction false} TopDistinct(c: seq<nat>, score: seq<real>, k: nat)
    requires InScores(c, score) && Distinct(c)
    ensures Distinct(Top(c, score, k))
    decreases k
  {
    if k > 0 && |c| > 0 {
      var j := BestPosition(c, score);
      var w := Without(c, j);
      assert Distinct(w) by {
        forall a, b | 0 <= a < b < |w| ensures w[a] != w[b] {
          var a' := if a < j then a else a + 1;
          var b' := if b < j then b else b + 1;
          assert w[a] == c[a'] && w[b] == c[b'];
        }
      }
      assert c[j] !in w by {
        forall a | 0 <= a < |w| ensures w[a] != c[j] {
          var a' := if a < j then a else a + 1;
          assert w[a] == c[a'];
        }
      }
      TopDistinct(w, score, k - 1);
      var rest := Top(w, score, k - 1);
      var r := [c[j]] + rest;
      assert r == Top(c, score, k);
      forall a, b | 0 <= a < b < |r|
        ensures r[a] != r[b]
      {
        if a == 0 {
          assert r[b] in w;
        } else {
          assert r[a] == rest[a - 1] && r[b] == rest[b - 1];
        }
      }
    }
  }

  /** No candidate left out of the selection scores higher than any selected one. */
  lemma {:induction false} TopDominates(c: seq<nat>, score: seq<real>, k: nat, x: nat)
    requires InScores(c, score)
    requires x in c && x !in Top(c, score, k)
    ensures forall y :: y in Top(c, score, k) ==> score[x] <= score[y]
    decreases k
  {
    if k > 0 && |c| > 0 {
      var j := BestPosition(c, score);
      var w := Without(c, j);
      var rest := Top(w, score, k - 1);
      assert Top(c, score, k) == [c[j]] + rest;
      assert x != c[j] && x !in rest;
      TopDominates(w, score, k - 1, x);
      assert x in c;
    }
  }
}
