/**
 * What the finalization passes read from the canvas context the frontend
 * sends (`state["canvas_context"]["nodes"]`): the labels already on the
 * canvas (graph.py:1251-1264), the reference images for a storyboard grid
 * (graph.py:1405-1443) and the latest finished image (graph.py:1560-1586).
 */
module Canvas {
  import opened Wrappers
  import opened Strings
  import opened Json
  import opened Seqs
  import opened Keywords

  /** The context's `nodes` when the context is a dict and they are a list; no nodes otherwise. */
  function NodesOf(ctx: Json): seq<Json> {
    if ctx.JObj? && Get(ctx.fields, "nodes").JArr? then Get(ctx.fields, "nodes").items else []
  }

  /** The stripped label of a node that is a dict with a non-blank string label. */
  function NodeLabel(n: Json): (r: Option<string>)
    ensures r.Some? ==> n.JObj? && r.value != [] && r == StrippedText(Get(n.fields, "label"))
  {
    if n.JObj? then StrippedText(Get(n.fields, "label")) else None
  }

  function NodeLabelAt(i: nat, n: Json): Option<string> {
    NodeLabel(n)
  }

  // ---------------------------------------------------------------------
  // Labels on the canvas

  /** `_canvas_labels_from_context(ctx)` */
  function CanvasLabels(ctx: Json): set<string> {
    set l | l in FilterMap(NodeLabelAt, NodesOf(ctx))
  }

  /** A label is on the canvas exactly when some node carries it (stripped). */
  lemma CanvasLabelsSpec(ctx: Json, l: string)
    ensures l in CanvasLabels(ctx) <==> exists i :: 0 <= i < |NodesOf(ctx)| && NodeLabel(NodesOf(ctx)[i]) == Some(l)
  {
    FilterMapMembers(NodeLabelAt, NodesOf(ctx), l);
  }

  /** The loop at graph.py:1257-1263. */
  method CollectCanvasLabels(ctx: Json) returns (labels: set<string>)
    ensures labels == CanvasLabels(ctx)
  {
    var nodes := NodesOf(ctx);
    labels := {};
    var i := 0;
    while i < |nodes|
      invariant 0 <= i <= |nodes|
      invariant labels == set l | l in FilterMapUpTo(NodeLabelAt, nodes, i)
    {
      FilterMapNext(NodeLabelAt, nodes, i);
      var n := nodes[i];
      if n.JObj? {
        var lbl := Get(n.fields, "label");
        if lbl.JStr? && Strip(lbl.s) != [] {
          labels := labels + {Strip(lbl.s)};
        }
      }
      i := i + 1;
    }
  }

  // ---------------------------------------------------------------------
  // Reference images for a storyboard grid

  /** `n.get("kind") or n.get("type")` is one of the image kinds. */
  predicate IsImageKind(m: map<string, Json>) {
    Or(Get(m, "kind"), Get(m, "type")) in [JStr("image"), JStr("textToImage"), JStr("mosaic")]
  }

  /** An image node that finished: status "success" and a non-blank image URL. */
  predicate IsFinishedImage(m: map<string, Json>) {
    IsImageKind(m) && Get(m, "status") == JStr("success") && StrippedText(Get(m, "imageUrl")).Some?
  }

  /** A canvas image the storyboard may reference, with its score and position. */
  datatype Candidate = Candidate(score: int, idx: nat, lbl: string)

  /** +3 for a character sheet or key visual, +2 for a fox or a bunny. */
  function ReferenceScore(lbl: string): (s: int)
    ensures s == 0 || s == 2 || s == 3 || s == 5
    ensures s >= 3 <==> ContainsAny(lbl, CharacterSheetWords)
  {
    (if ContainsAny(lbl, CharacterSheetWords) then 3 else 0)
    + (if ContainsAny(Lower(lbl), AnimalWordsLatin) || ContainsAny(lbl, AnimalWordsHan) then 2 else 0)
  }

  /** The candidate the `i`-th node gives for a storyboard labelled `sb`, if any. */
  function CandidateOf(sb: string, i: nat, n: Json): Option<Candidate> {
    match NodeLabel(n)
    case None => None
    case Some(l) =>
      if l == sb || !IsFinishedImage(n.fields) || ContainsAny(l, NotReferenceWords) then None
      else Some(Candidate(ReferenceScore(l), i, l))
  }

  function CandidateAt(sb: string): (nat, Json) -> Option<Candidate> {
    (i: nat, n: Json) => CandidateOf(sb, i, n)
  }

  function Candidates(ctx: Json, sb: string): seq<Candidate> {
    FilterMap(CandidateAt(sb), NodesOf(ctx))
  }

  /** `a` comes no later than `b` when sorting by `(score, idx)` with `reverse=True`. */
  predicate NotBelow(a: Candidate, b: Candidate) {
    a.score > b.score || (a.score == b.score && a.idx >= b.idx)
  }

  predicate SortedDesc(xs: seq<Candidate>) {
    forall i, j :: 0 <= i < j < |xs| ==> NotBelow(xs[i], xs[j])
  }

  /** Insert `c` into a descending list before the first element it is not below. */
  function Insert(c: Candidate, xs: seq<Candidate>): (r: seq<Candidate>)
    ensures multiset(r) == multiset(xs) + multiset{c}
  {
    if xs == [] || NotBelow(c, xs[0]) then [c] + xs
    else
      assert xs == [xs[0]] + xs[1..];
      [xs[0]] + Insert(c, xs[1..])
  }

  /** `sorted(xs, key=lambda t: (t[0], t[1]), reverse=True)` */
  function SortDesc(xs: seq<Candidate>): seq<Candidate> {
    if xs == [] then [] else Insert(xs[0], SortDesc(xs[1..]))
  }

  lemma {:induction false} InsertSorted(c: Candidate, xs: seq<Candidate>)
    requires SortedDesc(xs)
    ensures SortedDesc(Insert(c, xs))
  {
    if xs != [] && !NotBelow(c, xs[0]) {
      InsertSorted(c, xs[1..]);
      var r := Insert(c, xs[1..]);
      forall k | 0 <= k < |r|
        ensures NotBelow(xs[0], r[k])
      {
        assert r[k] in multiset(r);
        if r[k] != c {
          assert r[k] in multiset(xs[1..]);
          var j :| 0 <= j < |xs[1..]| && xs[1..][j] == r[k];
          assert xs[1..][j] == xs[j + 1];
        }
      }
    }
  }

  /** The sort is descending and a permutation of its input. */
  lemma {:induction false} SortDescSpec(xs: seq<Candidate>)
    ensures SortedDesc(SortDesc(xs))
    ensures multiset(SortDesc(xs)) == multiset(xs)
  {
    if xs != [] {
      SortDescSpec(xs[1..]);
      InsertSorted(xs[0], SortDesc(xs[1..]));
      assert xs == [xs[0]] + xs[1..];
    }
  }

  /** `candidates[:3]` */
  function Top3(xs: seq<Candidate>): (r: seq<Candidate>)
    ensures |r| <= 3 && |r| <= |xs| && r == xs[..|r|]
    ensures |xs| >= 3 ==> |r| == 3
    ensures |xs| < 3 ==> r == xs
  {
    if |xs| <= 3 then xs else xs[..3]
  }

  function LabelsOf(cs: seq<Candidate>): (r: seq<string>)
    ensures |r| == |cs| && forall k :: 0 <= k < |cs| ==> r[k] == cs[k].lbl
  {
    seq(|cs|, k requires 0 <= k < |cs| => cs[k].lbl)
  }

  /** `_pick_reference_image_labels_from_canvas_context(ctx, sb)` */
  function PickedReferences(ctx: Json, sb: string): seq<string> {
    TopLabels(Candidates(ctx, sb))
  }

  /** The labels of the three best candidates. */
  function TopLabels(cands: seq<Candidate>): seq<string> {
    LabelsOf(Top3(SortDesc(cands)))
  }

  /** At most three references are picked. */
  lemma PickedAtMostThree(ctx: Json, sb: string)
    ensures |PickedReferences(ctx, sb)| <= 3
  {
  }

  /** Every picked label belongs to a finished image node on the canvas, is not
      the storyboard's own label and carries no storyboard or video keyword. */
  lemma PickedEligible(ctx: Json, sb: string, k: nat) returns (i: nat)
    requires k < |PickedReferences(ctx, sb)|
    ensures i < |NodesOf(ctx)| && NodesOf(ctx)[i].JObj?
    ensures NodeLabel(NodesOf(ctx)[i]) == Some(PickedReferences(ctx, sb)[k])
    ensures IsFinishedImage(NodesOf(ctx)[i].fields)
    ensures PickedReferences(ctx, sb)[k] != sb
    ensures !ContainsAny(PickedReferences(ctx, sb)[k], NotReferenceWords)
  {
    var cands := Candidates(ctx, sb);
    var sorted := SortDesc(cands);
    SortDescSpec(cands);
    var c := sorted[k];
    assert c in multiset(sorted);
    assert c in cands;
    i := FilterMapFrom(CandidateAt(sb), NodesOf(ctx), |NodesOf(ctx)|, c);
  }

  /** In a descending list, each of the first three ranks no lower than any
      element after them. */
  lemma TopRanksFirst(sorted: seq<Candidate>, c: Candidate, k: nat)
    requires SortedDesc(sorted) && c in sorted && c !in Top3(sorted) && k < |Top3(sorted)|
    ensures NotBelow(Top3(sorted)[k], c)
  {
    var top := Top3(sorted);
    var p :| 0 <= p < |sorted| && sorted[p] == c;
    assert forall q :: 0 <= q < |top| ==> top[q] == sorted[q] && top[q] in top;
    assert p >= |top|;
    assert top[k] == sorted[k];
  }

  /** The first three of a descending list are descending. */
  lemma TopSorted(sorted: seq<Candidate>)
    requires SortedDesc(sorted)
    ensures SortedDesc(Top3(sorted))
  {
    var top := Top3(sorted);
    forall i, j | 0 <= i < j < |top|
      ensures NotBelow(top[i], top[j])
    {
      assert top[i] == sorted[i] && top[j] == sorted[j];
    }
  }

  /** The picked candidates are ordered by (score, index), descending, and no
      candidate left out ranks above any picked one. */
  lemma PickedOrdered(ctx: Json, sb: string)
    ensures var top := Top3(SortDesc(Candidates(ctx, sb)));
      && SortedDesc(top)
      && PickedReferences(ctx, sb) == LabelsOf(top)
      && forall c, k :: c in Candidates(ctx, sb) && c !in top && 0 <= k < |top| ==> NotBelow(top[k], c)
  {
    var cands := Candidates(ctx, sb);
    var sorted := SortDesc(cands);
    SortDescSpec(cands);
    TopSorted(sorted);
    var top := Top3(sorted);
    forall c, k | c in cands && c !in top && 0 <= k < |top|
      ensures NotBelow(top[k], c)
    {
      assert c in multiset(cands);
      assert c in multiset(sorted);
      TopRanksFirst(sorted, c, k);
    }
  }

  /** The checks and the score of one node (graph.py:1415-1436). */
  method NodeCandidate(sb: string, i: nat, n: Json) returns (c: Option<Candidate>)
    ensures c == CandidateOf(sb, i, n)
  {
    c := None;
    if !n.JObj? {
      return;
    }
    var lbl := Get(n.fields, "label");
    if !lbl.JStr? || Strip(lbl.s) == [] {
      return;
    }
    var l := Strip(lbl.s);
    if l == sb || !IsImageKind(n.fields) || Get(n.fields, "status") != JStr("success")
       || StrippedText(Get(n.fields, "imageUrl")).None? || ContainsAny(l, NotReferenceWords)
    {
      return;
    }
    var score := ScoreReference(l);
    c := Some(Candidate(score, i, l));
  }

  /** The score of an eligible label (graph.py:1433-1439). */
  method ScoreReference(l: string) returns (score: int)
    ensures score == ReferenceScore(l)
  {
    score := 0;
    if ContainsAny(l, CharacterSheetWords) {
      score := score + 3;
    }
    if ContainsAny(Lower(l), AnimalWordsLatin) || ContainsAny(l, AnimalWordsHan) {
      score := score + 2;
    }
  }

  /** The loop at graph.py:1414-1439: one candidate per usable node, in node order. */
  method CollectCandidates(sb: string, nodes: seq<Json>) returns (candidates: seq<Candidate>)
    ensures candidates == FilterMap(CandidateAt(sb), nodes)
  {
    candidates := [];
    var i := 0;
    while i < |nodes|
      invariant 0 <= i <= |nodes|
      invariant candidates == FilterMapUpTo(CandidateAt(sb), nodes, i)
    {
      FilterMapNext(CandidateAt(sb), nodes, i);
      var c := NodeCandidate(sb, i, nodes[i]);
      candidates := candidates + AsSeq(c);
      i := i + 1;
    }
  }

  /** graph.py:1414-1443: collect the candidates, sort, keep three. */
  method PickReferenceLabels(ctx: Json, sb: string) returns (picked: seq<string>)
    ensures picked == PickedReferences(ctx, sb)
  {
    var candidates := CollectCandidates(sb, NodesOf(ctx));
    picked := TopLabels(candidates);
  }


  // ---------------------------------------------------------------------
  // The latest finished image

  /** The label of a node `_pick_latest_success_image_label` accepts. */
  function LatestCandidate(n: Json): (r: Option<string>)
    ensures r.Some? ==> NodeLabel(n) == r && IsFinishedImage(n.fields) && !ContainsAny(r.value, StoryboardLabelWords)
  {
    match NodeLabel(n)
    case None => None
    case Some(l) => if IsFinishedImage(n.fields) && !ContainsAny(l, StoryboardLabelWords) then Some(l) else None
  }

  /** The last accepted node among the first `n`. */
  function LatestUpTo(nodes: seq<Json>, n: nat): Option<string>
    requires n <= |nodes|
  {
    LastUpTo(LatestCandidate, nodes, n)
  }

  /** `_pick_latest_success_image_label(ctx)` */
  function LatestSuccessImage(ctx: Json): Option<string> {
    LatestUpTo(NodesOf(ctx), |NodesOf(ctx)|)
  }

  /** The label found is that of an accepted node after which no node is accepted. */
  lemma LatestUpToSpec(nodes: seq<Json>, n: nat) returns (i: nat)
    requires n <= |nodes|
    ensures LatestUpTo(nodes, n).Some? ==> (i < n && LatestCandidate(nodes[i]) == LatestUpTo(nodes, n)
      && forall j :: i < j < n ==> LatestCandidate(nodes[j]).None?)
    ensures LatestUpTo(nodes, n).None? ==> forall j :: 0 <= j < n ==> LatestCandidate(nodes[j]).None?
  {
    i := LastUpToSpec(LatestCandidate, nodes, n);
  }

  /** The checks of one node in the reversed loop (graph.py:1569-1584): its
      label when it is accepted. */
  method ReadLatestCandidate(n: Json) returns (r: Option<string>)
    ensures r == LatestCandidate(n)
  {
    r := None;
    if !n.JObj? {
      return;
    }
    if !IsImageKind(n.fields) || Get(n.fields, "status") != JStr("success") {
      return;
    }
    var l := Get(n.fields, "label");
    if !l.JStr? || Strip(l.s) == [] {
      return;
    }
    var s := Strip(l.s);
    if ContainsAny(s, StoryboardLabelWords) {
      return;
    }
    if StrippedText(Get(n.fields, "imageUrl")).None? {
      return;
    }
    r := Some(s);
  }

  /** The reversed loop at graph.py:1568-1585. */
  method PickLatestSuccessImageLabel(ctx: Json) returns (lbl: Option<string>)
    ensures lbl == LatestSuccessImage(ctx)
  {
    var nodes := NodesOf(ctx);
    var i := |nodes|;
    while i > 0
      invariant 0 <= i <= |nodes|
      invariant LatestSuccessImage(ctx) == LatestUpTo(nodes, i)
    {
      i := i - 1;
      LastUpToNext(LatestCandidate, nodes, i);
      var r := ReadLatestCandidate(nodes[i]);
      if r.Some? {
        return r;
      }
    }
    return None;
  }
}
