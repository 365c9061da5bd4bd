/**
 * The ranking that all three panels apply to a model's output
 * (`labels.map((key, i) => ({label, prob: probs[i] ?? 0})).sort((a, b) => b.prob - a.prob)`).
 *
 * Probabilities are only compared, so they are modelled as integers. The
 * JavaScript sort is stable, so the ranking is a stable sort by
 * non-increasing probability; it is written here as an insertion sort.
 */
module Ranking {
  import opened Wrappers

  /** A probability as the model reports it; only its order matters. */
  type Prob = int

  datatype Entry = Entry(name: string, prob: Prob)

  /** `probs[i] ?? 0`: an output the model did not produce counts as 0. */
  function ProbAt(probs: seq<Prob>, i: nat): (p: Prob)
    ensures i < |probs| ==> p == probs[i]
    ensures |probs| <= i ==> p == 0
  {
    if i < |probs| then probs[i] else 0
  }

  /** `names[key] ?? key`: a known key is shown by its display name, any other verbatim. */
  function DisplayName(names: map<string, string>, key: string): (shown: string)
    ensures key in names ==> shown == names[key]
    ensures key !in names ==> shown == key
  {
    if key in names then names[key] else key
  }

  /** The entries before sorting: label `i` paired with output `i`. */
  function Mapped(labels: seq<string>, probs: seq<Prob>, names: map<string, string>): (m: seq<Entry>)
    ensures |m| == |labels|
    ensures forall i :: 0 <= i < |labels| ==>
      m[i].name == DisplayName(names, labels[i]) && m[i].prob == ProbAt(probs, i)
  {
    seq(|labels|, i requires 0 <= i < |labels| => Entry(DisplayName(names, labels[i]), ProbAt(probs, i)))
  }

  ghost predicate NonIncreasing(s: seq<Entry>) {
    forall i, j :: 0 <= i < j < |s| ==> s[i].prob >= s[j].prob
  }

  /** Puts `e` in front of the first entry whose probability does not exceed its own. */
  function Insert(e: Entry, s: seq<Entry>): (r: seq<Entry>)
    ensures |r| == |s| + 1
    ensures multiset(r) == multiset(s) + multiset{e}
  {
    if s == [] || s[0].prob <= e.prob then
      [e] + s
    else
      assert s == [s[0]] + s[1..];
      [s[0]] + Insert(e, s[1..])
  }

  lemma {:induction false} InsertSorted(e: Entry, s: seq<Entry>)
    requires NonIncreasing(s)
    ensures NonIncreasing(Insert(e, s))
  {
    if s != [] && e.prob < s[0].prob {
      var rest := s[1..];
      assert NonIncreasing(rest) by {
        forall i, j | 0 <= i < j < |rest| ensures rest[i].prob >= rest[j].prob {
          assert rest[i] == s[i + 1] && rest[j] == s[j + 1];
        }
      }
      var t := Insert(e, rest);
      InsertSorted(e, rest);
      assert t[0].prob <= s[0].prob by {
        if rest == [] || rest[0].prob <= e.prob {
          assert t[0] == e;
        } else {
          assert t[0] == rest[0] == s[1];
        }
      }
      var r := [s[0]] + t;
      assert Insert(e, s) == r;
      forall i, j | 0 <= i < j < |r| ensures r[i].prob >= r[j].prob {
        assert r[j] == t[j - 1];
        if i == 0 {
          assert t[0].prob >= t[j - 1].prob;
        } else {
          assert r[i] == t[i - 1];
        }
      }
    }
  }

  /** A stable sort by non-increasing probability. */
  function SortDesc(s: seq<Entry>): (r: seq<Entry>)
    ensures |r| == |s|
    ensures multiset(r) == multiset(s)
    ensures NonIncreasing(r)
  {
    if s == [] then []
    else
      assert s == [s[0]] + s[1..];
      InsertSorted(s[0], SortDesc(s[1..]));
      Insert(s[0], SortDesc(s[1..]))
  }

  /** Two entries are sorted by one comparison; on a tie the first stays first. */
  lemma SortTwo(a: Entry, b: Entry)
    ensures SortDesc([a, b]) == if a.prob >= b.prob then [a, b] else [b, a]
  {
    assert [a, b][0] == a && [a, b][1..] == [b] && [b][1..] == [];
    assert SortDesc([b]) == Insert(b, SortDesc([])) == [b];
    if a.prob < b.prob {
      assert Insert(a, [b]) == [b] + Insert(a, []);
    }
  }

  /** The ranked list a panel publishes. */
  function Rank(labels: seq<string>, probs: seq<Prob>, names: map<string, string>): (r: seq<Entry>)
    ensures |r| == |labels|
    ensures NonIncreasing(r)
    ensures multiset(r) == multiset(Mapped(labels, probs, names))
  {
    SortDesc(Mapped(labels, probs, names))
  }

  /** `mapped[0]`, or `undefined` for an empty list. */
  function Best(ranked: seq<Entry>): (best: Option<Entry>)
    ensures best.None? <==> ranked == []
    ensures best.Some? ==> best.value in ranked
    ensures best.Some? && NonIncreasing(ranked) ==> forall e :: e in ranked ==> best.value.prob >= e.prob
  {
    if ranked == [] then None else Some(ranked[0])
  }

  /** `mapped.slice(0, 3)`: the first three entries, or all of them when there are fewer. */
  function TopThree(ranked: seq<Entry>): (shown: seq<Entry>)
    ensures |shown| == if |ranked| < 3 then |ranked| else 3
    ensures shown <= ranked
    ensures NonIncreasing(ranked) ==>
      forall i, j :: 0 <= i < |shown| <= j < |ranked| ==> shown[i].prob >= ranked[j].prob
  {
    if |ranked| < 3 then ranked else ranked[..3]
  }

  /** The entries of `s` with probability `p`, in their order in `s`. */
  function WithProb(s: seq<Entry>, p: Prob): seq<Entry> {
    if s == [] then [] else (if s[0].prob == p then [s[0]] else []) + WithProb(s[1..], p)
  }

  lemma {:induction false} WithProbMembers(s: seq<Entry>, p: Prob)
    ensures forall x :: x in WithProb(s, p) ==> x in s && x.prob == p
  {
    if s != [] {
      WithProbMembers(s[1..], p);
    }
  }

  /** One step of `WithProb`: the head is kept exactly when it has the probability. */
  lemma WithProbCons(x: Entry, s: seq<Entry>, p: Prob)
    ensures WithProb([x] + s, p) == (if x.prob == p then [x] else []) + WithProb(s, p)
  {
    assert ([x] + s)[0] == x && ([x] + s)[1..] == s;
  }

  lemma {:induction false} InsertKeepsTies(e: Entry, s: seq<Entry>, p: Prob)
    ensures WithProb(Insert(e, s), p) == (if e.prob == p then [e] else []) + WithProb(s, p)
  {
    if s == [] || s[0].prob <= e.prob {
      WithProbCons(e, s, p);
    } else {
      var t := Insert(e, s[1..]);
      InsertKeepsTies(e, s[1..], p);
      assert Insert(e, s) == [s[0]] + t;
      WithProbCons(s[0], t, p);
      assert s == [s[0]] + s[1..];
      WithProbCons(s[0], s[1..], p);
      if e.prob == p {
        // the head outranks `e`, so it is not tied with it
        assert WithProb(Insert(e, s), p) == [e] + WithProb(s[1..], p);
        assert WithProb(s, p) == WithProb(s[1..], p);
      } else {
        assert WithProb(t, p) == WithProb(s[1..], p);
      }
    }
  }

  /** Sorting keeps the order of entries with equal probability: the first-listed label wins a tie. */
  lemma {:induction false} SortDescKeepsTies(s: seq<Entry>, p: Prob)
    ensures WithProb(SortDesc(s), p) == WithProb(s, p)
  {
    if s != [] {
      SortDescKeepsTies(s[1..], p);
      InsertKeepsTies(s[0], SortDesc(s[1..]), p);
    }
  }

  /** A list's head is in its own group of ties. */
  lemma HeadIsTied(s: seq<Entry>)
    requires s != []
    ensures WithProb(s, s[0].prob) != []
  {
  }

  /** Two non-increasing lists that agree on the order of every group of ties are equal. */
  lemma {:induction false} TiesDetermineOrder(t: seq<Entry>, u: seq<Entry>)
    requires NonIncreasing(t) && NonIncreasing(u)
    requires forall p :: WithProb(t, p) == WithProb(u, p)
    ensures t == u
  {
    if t == [] || u == [] {
      if t != [] {
        HeadIsTied(t);
        assert false;
      } else if u != [] {
        HeadIsTied(u);
        assert false;
      }
    } else {
      var m, n := t[0].prob, u[0].prob;
      WithProbMembers(t, n);
      WithProbMembers(u, m);
      var wu := WithProb(u, m);
      assert wu == WithProb(t, m) == [t[0]] + WithProb(t[1..], m);
      assert wu[0] in u;
      assert m <= n;
      var wt := WithProb(t, n);
      assert wt == WithProb(u, n) == [u[0]] + WithProb(u[1..], n);
      assert wt[0] in t;
      assert n <= m;
      assert t[0] == u[0];
      forall p ensures WithProb(t[1..], p) == WithProb(u[1..], p) {
        assert WithProb(t, p) == (if m == p then [t[0]] else []) + WithProb(t[1..], p);
        assert WithProb(u, p) == (if m == p then [t[0]] else []) + WithProb(u[1..], p);
        var a := if m == p then [t[0]] else [];
        assert WithProb(t[1..], p) == (a + WithProb(t[1..], p))[|a|..];
        assert WithProb(u[1..], p) == (a + WithProb(u[1..], p))[|a|..];
      }
      TiesDetermineOrder(t[1..], u[1..]);
      assert t == [t[0]] + t[1..] && u == [u[0]] + u[1..];
    }
  }

  /** Equal-probability entries keep the order of their labels. */
  lemma RankKeepsTies(labels: seq<string>, probs: seq<Prob>, names: map<string, string>, p: Prob)
    ensures WithProb(Rank(labels, probs, names), p) == WithProb(Mapped(labels, probs, names), p)
  {
    SortDescKeepsTies(Mapped(labels, probs, names), p);
  }

  /**
   * The ranking is the only non-increasing list that keeps every group of
   * ties in label order: any such list is `Rank`.
   */
  lemma RankIsTheStableSort(labels: seq<string>, probs: seq<Prob>, names: map<string, string>, r: seq<Entry>)
    requires NonIncreasing(r)
    requires forall p :: WithProb(r, p) == WithProb(Mapped(labels, probs, names), p)
    ensures r == Rank(labels, probs, names)
  {
    forall p ensures WithProb(r, p) == WithProb(Rank(labels, probs, names), p) {
      RankKeepsTies(labels, probs, names, p);
    }
    TiesDetermineOrder(r, Rank(labels, probs, names));
  }

  /**
   * The entry shown as the top-1 prediction exists exactly when there are
   * labels, is one of the mapped entries, and has the largest probability.
   */
  lemma BestIsMaximum(labels: seq<string>, probs: seq<Prob>, names: map<string, string>)
    ensures Best(Rank(labels, probs, names)).Some? <==> |labels| > 0
    ensures Best(Rank(labels, probs, names)).Some? ==>
      var e := Best(Rank(labels, probs, names)).value;
      e in Mapped(labels, probs, names) &&
      forall i :: 0 <= i < |labels| ==> e.prob >= ProbAt(probs, i)
  {
    var m := Mapped(labels, probs, names);
    var r := Rank(labels, probs, names);
    if |labels| > 0 {
      assert r[0] in multiset(m);
      forall i | 0 <= i < |labels| ensures r[0].prob >= ProbAt(probs, i) {
        assert m[i] in multiset(r);
        var j :| 0 <= j < |r| && r[j] == m[i];
      }
    }
  }
}
