/** Ordering scored region ids: higher score first, then lower id. The order is total, so the ranking is unique. */
module Ranking {
  import opened Words

  type Scores = map<U64, real>

  predicate Ahead(scores: Scores, x: U64, y: U64)
    requires x in scores && y in scores
  {
    scores[x] > scores[y] || (scores[x] == scores[y] && x < y)
  }

  ghost predicate IsBest(scores: Scores, b: U64) {
    b in scores && forall k :: k in scores && k != b ==> Ahead(scores, b, k)
  }

  lemma {:induction false} BestExists(scores: Scores)
    requires scores != map[]
    ensures exists b :: IsBest(scores, b)
    decreases |scores|
  {
    var k :| k in scores;
    var rest := scores - {k};
    if rest == map[] {
      assert scores.Keys == {k} + rest.Keys;
      assert IsBest(scores, k);
    } else {
      BestExists(rest);
      var b :| IsBest(rest, b);
      if Ahead(scores, k, b) {
        forall j | j in scores && j != k ensures Ahead(scores, k, j) {
          assert j in rest && (j != b ==> Ahead(rest, b, j));
        }
        assert IsBest(scores, k);
      } else {
        forall j | j in scores && j != b ensures Ahead(scores, b, j) {
          if j != k { assert Ahead(rest, b, j); }
        }
        assert IsBest(scores, b);
      }
    }
  }

  ghost function Best(scores: Scores): (b: U64)
    requires scores != map[]
    ensures IsBest(scores, b)
  {
    BestExists(scores);
    var b :| IsBest(scores, b);
    b
  }

  /** The ranking of a set of scored ids, defined without reference to any enumeration order. */
  ghost function Rank(scores: Scores): seq<U64>
    decreases |scores|
  {
    if scores == map[] then [] else
      var b := Best(scores);
      [b] + Rank(scores - {b})
  }

  /** A listing of exactly the scored ids, each strictly ahead of all that follow. */
  ghost predicate IsRanking(scores: Scores, out: seq<U64>) {
    && (forall k :: k in out <==> k in scores)
    && (forall i, j :: 0 <= i < j < |out| ==> out[i] in scores && out[j] in scores && Ahead(scores, out[i], out[j]))
  }

  lemma RankingCons(scores: Scores, b: U64, tail: seq<U64>)
    requires IsBest(scores, b) && IsRanking(scores - {b}, tail)
    ensures IsRanking(scores, [b] + tail)
  {
    var out := [b] + tail;
    forall k ensures k in out <==> k in scores {
      assert k in out <==> k == b || k in tail;
    }
    forall i, j | 0 <= i < j < |out| ensures out[i] in scores && out[j] in scores && Ahead(scores, out[i], out[j]) {
      assert out[j] == tail[j - 1] && tail[j - 1] in tail;
      if i > 0 { assert Ahead(scores - {b}, tail[i - 1], tail[j - 1]); }
    }
  }

  lemma {:induction false} RankIsRanking(scores: Scores)
    ensures IsRanking(scores, Rank(scores))
    decreases |scores|
  {
    if scores != map[] {
      var b := Best(scores);
      RankIsRanking(scores - {b});
      RankingCons(scores, b, Rank(scores - {b}));
    }
  }

  lemma FirstIsBest(scores: Scores, out: seq<U64>)
    requires IsRanking(scores, out) && out != [] && scores != map[]
    ensures out[0] == Best(scores)
  {
    assert out[0] in out;
    var b := Best(scores);
    assert b in out;
    var i :| 0 <= i < |out| && out[i] == b;
    if i > 0 {
      assert Ahead(scores, out[0], out[i]);
      assert Ahead(scores, b, out[0]);
    }
  }

  lemma TailIsRanking(scores: Scores, out: seq<U64>)
    requires IsRanking(scores, out) && out != []
    ensures IsRanking(scores - {out[0]}, out[1..])
  {
    var rest, tail := scores - {out[0]}, out[1..];
    assert out == [out[0]] + tail;
    forall k ensures k in tail <==> k in rest {
      assert k in out <==> k == out[0] || k in tail;
      if k in tail {
        var j :| 0 <= j < |tail| && tail[j] == k;
        assert Ahead(scores, out[0], out[j + 1]);
      }
    }
    forall i, j | 0 <= i < j < |tail| ensures tail[i] in rest && tail[j] in rest && Ahead(rest, tail[i], tail[j]) {
      assert tail[i] in tail && tail[j] in tail;
      assert Ahead(scores, out[i + 1], out[j + 1]);
    }
  }

  lemma RankUnfold(scores: Scores)
    requires scores != map[]
    ensures Rank(scores) == [Best(scores)] + Rank(scores - {Best(scores)})
  {
  }

  lemma SplitFirst(out: seq<U64>, b: U64, tail: seq<U64>)
    requires out != [] && out[0] == b && out[1..] == tail
    ensures out == [b] + tail
  {
  }

  /** Any two rankings of the same scores are equal, so the result cannot depend on how it was built. */
  lemma {:induction false} RankingUnique(scores: Scores, out: seq<U64>)
    requires IsRanking(scores, out)
    ensures out == Rank(scores)
    decreases |scores|
  {
    if out == [] {
      assert scores == map[];
    } else {
      assert out[0] in out;
      var b := Best(scores);
      FirstIsBest(scores, out);
      TailIsRanking(scores, out);
      RankingUnique(scores - {b}, out[1..]);
      RankUnfold(scores);
      SplitFirst(out, b, Rank(scores - {b}));
    }
  }

  /** The greatest of a finite set of naturals, or zero. */
  ghost function Greatest(values: set<nat>): (m: nat)
    ensures forall v :: v in values ==> v <= m
    ensures m != 0 ==> m in values
  {
    if values == {} then 0 else
      var v :| v in values;
      var m := Greatest(values - {v});
      assert values == (values - {v}) + {v};
      if v > m then v else m
  }

  lemma GreatestIs(values: set<nat>, m: nat)
    requires forall v :: v in values ==> v <= m
    requires m != 0 ==> m in values
    ensures m == Greatest(values)
  {
  }
}
