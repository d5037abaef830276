/** The alloy recommendation panel: a per-recommendation approval map whose
    missing entries read as pending, the page-break cursor of the PDF report,
    and the report's confidence buckets, cost shares, priority labels and
    badge colours. */
module AlloyPanel {
  import opened Common

  datatype Improvement = Improvement(element: string, from: real, to: real)

  datatype Recommendation = Recommendation(
    id: string,
    alloyType: string,
    quantity: real,
    unit: string,
    confidence: real,
    reason: string,
    estimatedCost: real,
    expectedImprovement: seq<Improvement>)

  function SeedRecommendations(): seq<Recommendation> {
    [ Recommendation("1", "FeSi 75%", 12.5, "kg", 94.0, SiliconReason, 185.50, [Improvement("Si", 2.12, 2.20)]),
      Recommendation("2", "Mn Metal", 3.2, "kg", 87.0, ManganeseReason, 45.20, [Improvement("Mn", 0.68, 0.70)]) ]
  }

  const SiliconReason := "Silicon content 0.08% below target. Historical data shows FeSi 75% most effective."
  const ManganeseReason := "Minor manganese adjustment needed for optimal hardenability."

  datatype Approval = Pending | Approved | Rejected

  /** `approvalStatus[id] || 'pending'`: an id never decided reads as pending. */
  function StatusOf(approvals: map<string, Approval>, id: string): (s: Approval)
    ensures id !in approvals ==> s == Pending
    ensures id in approvals ==> s == approvals[id]
    ensures s != Pending ==> id in approvals && approvals[id] == s
  {
    if id in approvals then approvals[id] else Pending
  }

  /** The approve / reject buttons are shown only for a pending recommendation. */
  predicate ShowsControls(s: Approval) {
    s == Pending
  }

  /** Recording a decision fixes that id's status, leaves every other id as it
      was, and removes that id's buttons: a decision is final in the panel. */
  lemma ApprovalIsLocalAndFinal(approvals: map<string, Approval>, id: string, decision: Approval)
    requires decision != Pending
    ensures StatusOf(approvals[id := decision], id) == decision
    ensures !ShowsControls(StatusOf(approvals[id := decision], id))
    ensures forall other :: other != id ==>
      StatusOf(approvals[id := decision], other) == StatusOf(approvals, other)
  {
  }

  /** The panel's approval state. */
  class ApprovalBoard {
    var approvalStatus: map<string, Approval>

    constructor ()
      ensures approvalStatus == map[]
    {
      approvalStatus := map[];
    }

    /** handleApproval, called with 'approved' or 'rejected'. */
    method HandleApproval(id: string, decision: Approval)
      requires decision != Pending
      modifies this
      ensures approvalStatus == old(approvalStatus)[id := decision]
      ensures StatusOf(approvalStatus, id) == decision
    {
      approvalStatus := approvalStatus[id := decision];
    }
  }

  /** Bottom margin the report keeps free, and the top line of a fresh page. */
  const BottomMargin: real := 30.0
  const TopLine: real := 30.0

  datatype Cursor = Cursor(y: real, page: int)

  /** One addNewPageIfNeeded step: the new cursor and whether a page was added. */
  function PageBreak(c: Cursor, requiredSpace: real, pageHeight: real): (r: (Cursor, bool))
    ensures r.1 <==> c.y + requiredSpace > pageHeight - BottomMargin
    ensures r.1 ==> r.0 == Cursor(TopLine, c.page + 1)
    ensures !r.1 ==> r.0 == c
    ensures TopLine + requiredSpace <= pageHeight - BottomMargin ==>
      r.0.y + requiredSpace <= pageHeight - BottomMargin
  {
    if c.y + requiredSpace > pageHeight - BottomMargin then (Cursor(TopLine, c.page + 1), true)
    else (c, false)
  }

  datatype LinePos = LinePos(page: int, y: real)

  /** The report writer's cursor. */
  class PdfCursor {
    const pageHeight: real
    var yPosition: real
    var currentPage: int

    constructor (pageHeight: real)
      ensures this.pageHeight == pageHeight
      ensures yPosition == TopLine && currentPage == 1
    {
      this.pageHeight := pageHeight;
      yPosition := TopLine;
      currentPage := 1;
    }

    /** addNewPageIfNeeded: start a new page when the required space does not
        fit above the bottom margin. */
    method AddNewPageIfNeeded(requiredSpace: real) returns (added: bool)
      modifies this
      ensures (Cursor(yPosition, currentPage), added) ==
        PageBreak(Cursor(old(yPosition), old(currentPage)), requiredSpace, pageHeight)
    {
      if yPosition + requiredSpace > pageHeight - BottomMargin {
        currentPage := currentPage + 1;
        yPosition := TopLine;
        added := true;
      } else {
        added := false;
      }
    }

    /** A bulleted list of `count` lines, each preceded by a page-break check
        and followed by an advance of `advance` (the summary uses 10 and 8):
        the lines land on nondecreasing pages, at most one new page per line,
        and every line fits above the bottom margin whenever the required
        space fits on an empty page. Each line sits where the page-break check
        leaves the cursor: the first from the starting cursor, every later one
        from the previous line moved down by `advance`. */
    method WriteLines(count: nat, requiredSpace: real, advance: real) returns (lines: seq<LinePos>)
      modifies this
      ensures |lines| == count
      ensures old(currentPage) <= currentPage <= old(currentPage) + count
      ensures forall i, j :: 0 <= i < j < |lines| ==> lines[i].page <= lines[j].page
      ensures forall i :: 0 <= i < |lines| ==> lines[i].page <= currentPage
      ensures TopLine + requiredSpace <= pageHeight - BottomMargin ==>
        forall i :: 0 <= i < |lines| ==> lines[i].y + requiredSpace <= pageHeight - BottomMargin
      ensures count > 0 ==>
        Cursor(lines[0].y, lines[0].page) ==
        PageBreak(Cursor(old(yPosition), old(currentPage)), requiredSpace, pageHeight).0
      ensures forall i :: 0 <= i < |lines| - 1 ==>
        Cursor(lines[i + 1].y, lines[i + 1].page) ==
        PageBreak(Cursor(lines[i].y + advance, lines[i].page), requiredSpace, pageHeight).0
      ensures count == 0 ==> yPosition == old(yPosition) && currentPage == old(currentPage)
      ensures count > 0 ==> yPosition == lines[count - 1].y + advance && currentPage == lines[count - 1].page
    {
      ghost var start := Cursor(yPosition, currentPage);
      lines := [];
      var k := 0;
      while k < count
        invariant 0 <= k <= count
        invariant |lines| == k
        invariant start.page <= currentPage <= start.page + k
        invariant Placed(lines, start, requiredSpace, advance, pageHeight)
        invariant Cursor(yPosition, currentPage) == After(lines, start, advance)
      {
        ghost var before := lines;
        var _ := AddNewPageIfNeeded(requiredSpace);
        lines := lines + [LinePos(currentPage, yPosition)];
        PlacedStep(before, start, requiredSpace, advance, pageHeight, lines[k]);
        yPosition := yPosition + advance;
        k := k + 1;
      }
    }
  }

  /** Where the cursor stands after `lines`: the start before any line,
      otherwise the last line moved down by `advance`. */
  function After(lines: seq<LinePos>, start: Cursor, advance: real): Cursor {
    if lines == [] then start else Cursor(lines[|lines| - 1].y + advance, lines[|lines| - 1].page)
  }

  /** Lines laid out by successive page-break checks from `start`: each sits
      where the check leaves the cursor, pages never decrease, and every line
      fits when the required space fits on an empty page. */
  predicate Placed(lines: seq<LinePos>, start: Cursor, requiredSpace: real, advance: real, pageHeight: real) {
    (lines != [] ==>
      Cursor(lines[0].y, lines[0].page) == PageBreak(start, requiredSpace, pageHeight).0) &&
    (forall i :: 0 <= i < |lines| - 1 ==>
      Cursor(lines[i + 1].y, lines[i + 1].page) ==
      PageBreak(Cursor(lines[i].y + advance, lines[i].page), requiredSpace, pageHeight).0) &&
    (forall i, j :: 0 <= i < j < |lines| ==> lines[i].page <= lines[j].page) &&
    (forall i :: 0 <= i < |lines| ==> start.page <= lines[i].page) &&
    (TopLine + requiredSpace <= pageHeight - BottomMargin ==>
      forall i :: 0 <= i < |lines| ==> lines[i].y + requiredSpace <= pageHeight - BottomMargin)
  }

  /** One more line placed from where the last one left the cursor keeps the
      layout placed. */
  lemma PlacedStep(lines: seq<LinePos>, start: Cursor, requiredSpace: real, advance: real,
                   pageHeight: real, next: LinePos)
    requires Placed(lines, start, requiredSpace, advance, pageHeight)
    requires Cursor(next.y, next.page) == PageBreak(After(lines, start, advance), requiredSpace, pageHeight).0
    ensures Placed(lines + [next], start, requiredSpace, advance, pageHeight)
  {
    var all := lines + [next];
    assert After(lines, start, advance).page <= next.page;
    assert forall i :: 0 <= i < |lines| ==> all[i] == lines[i];
  }

  function Costs(recs: seq<Recommendation>): seq<real> {
    seq(|recs|, i requires 0 <= i < |recs| => recs[i].estimatedCost)
  }

  function Confidences(recs: seq<Recommendation>): seq<real> {
    seq(|recs|, i requires 0 <= i < |recs| => recs[i].confidence)
  }

  /** totalCost: the sum of the estimated costs. */
  function TotalCost(recs: seq<Recommendation>): (total: real)
    ensures recs == [] ==> total == 0.0
  {
    Sum(Costs(recs))
  }

  /** Nonnegative costs add up to a nonnegative total. */
  lemma TotalCostNonnegative(recs: seq<Recommendation>)
    requires forall i :: 0 <= i < |recs| ==> recs[i].estimatedCost >= 0.0
    ensures TotalCost(recs) >= 0.0
  {
    var c := Costs(recs);
    assert forall i :: 0 <= i < |c| ==> c[i] == recs[i].estimatedCost;
    SumAtLeast(c, 0.0);
  }

  /** avgConfidence: the mean confidence, NaN (None) with no recommendations. */
  function AvgConfidence(recs: seq<Recommendation>): (avg: Option<real>)
    ensures avg.None? <==> recs == []
  {
    Mean(Confidences(recs))
  }

  /** Confidences in [lo, hi] average to a value in [lo, hi]. */
  lemma AvgConfidenceBounds(recs: seq<Recommendation>, lo: real, hi: real)
    requires recs != []
    requires forall i :: 0 <= i < |recs| ==> lo <= recs[i].confidence <= hi
    ensures lo <= AvgConfidence(recs).value <= hi
  {
    MeanBounds(Confidences(recs), lo, hi);
  }

  /** The seed report: $230.70 in total, 90.5% average confidence. */
  lemma SeedTotals()
    ensures TotalCost(SeedRecommendations()) == 230.70
    ensures AvgConfidence(SeedRecommendations()) == Some(90.5)
  {
    SeedCosts();
    SeedConfidences();
  }

  lemma SeedCosts()
    ensures Sum(Costs(SeedRecommendations())) == 230.70
  {
    var c := Costs(SeedRecommendations());
    assert c == [185.50, 45.20];
    assert c[..1] == [185.50];
    assert Sum([185.50]) == 185.50 by { assert [185.50][..0] == []; }
  }

  lemma SeedConfidences()
    ensures Sum(Confidences(SeedRecommendations())) == 181.0
    ensures |Confidences(SeedRecommendations())| == 2
  {
    var f := Confidences(SeedRecommendations());
    assert f == [94.0, 87.0];
    assert f[..1] == [94.0];
    assert Sum([94.0]) == 94.0 by { assert [94.0][..0] == []; }
  }

  /** One cost's share of the total in percent; a zero total gives NaN or an
      infinity (None). */
  function CostShare(cost: real, total: real): (p: Option<real>)
    ensures p.None? <==> total == 0.0
  {
    if total == 0.0 then None else Some(cost / total * 100.0)
  }

  /** A nonnegative cost within a positive total is a share in [0, 100],
      and the whole total is 100. */
  lemma CostShareBounds(cost: real, total: real)
    requires total > 0.0 && 0.0 <= cost <= total
    ensures 0.0 <= CostShare(cost, total).value <= 100.0
    ensures cost == total ==> CostShare(cost, total).value == 100.0
  {
    DivAtMost(cost, total, 1.0);
    DivAtLeast(cost, total, 0.0);
  }

  /** costBreakdown: one share per recommendation. */
  function CostShares(recs: seq<Recommendation>): (shares: seq<Option<real>>)
    ensures |shares| == |recs|
    ensures forall i :: 0 <= i < |shares| ==>
      shares[i] == CostShare(recs[i].estimatedCost, TotalCost(recs))
  {
    seq(|recs|, i requires 0 <= i < |recs| => CostShare(recs[i].estimatedCost, TotalCost(recs)))
  }

  /** With a nonzero total the shares add up to exactly 100. */
  lemma CostSharesSumTo100(recs: seq<Recommendation>)
    requires TotalCost(recs) != 0.0
    ensures forall i :: 0 <= i < |recs| ==> CostShares(recs)[i].Some?
    ensures Sum(seq(|recs|, i requires 0 <= i < |recs| => CostShares(recs)[i].value)) == 100.0
  {
    var t := TotalCost(recs);
    var k := 100.0 / t;
    var shares := seq(|recs|, i requires 0 <= i < |recs| => CostShares(recs)[i].value);
    var costs := Costs(recs);
    forall i | 0 <= i < |recs|
      ensures shares[i] == costs[i] * k
    {
      var c := costs[i];
      assert c == recs[i].estimatedCost;
      assert CostShares(recs)[i] == CostShare(c, t);
      assert shares[i] == c / t * 100.0;
      assert c / t * 100.0 == c * (100.0 / t) by {
        assert c / t * t == c;
        assert 100.0 / t * t == 100.0;
      }
    }
    SumScaled(costs, shares, k);
    assert Sum(costs) * k == t * (100.0 / t);
  }

  datatype Bucket = HighConfidence | MediumConfidence | LowerConfidence

  /** The summary's buckets: > 90, 80 to 90 inclusive, < 80. */
  function BucketOf(confidence: real): (b: Bucket)
    ensures b == HighConfidence <==> confidence > 90.0
    ensures b == MediumConfidence <==> 80.0 <= confidence <= 90.0
    ensures b == LowerConfidence <==> confidence < 80.0
  {
    if confidence > 90.0 then HighConfidence
    else if confidence >= 80.0 then MediumConfidence
    else LowerConfidence
  }

  function InBucket(recs: seq<Recommendation>, b: Bucket): seq<bool> {
    seq(|recs|, i requires 0 <= i < |recs| => BucketOf(recs[i].confidence) == b)
  }

  /** The three filters of the summary, as counts. */
  function BucketCount(recs: seq<Recommendation>, b: Bucket): nat {
    CountTrue(InBucket(recs, b))
  }

  /** The three buckets partition the recommendations: their counts add up
      to the total. */
  lemma {:induction false} BucketsPartition(recs: seq<Recommendation>)
    ensures BucketCount(recs, HighConfidence) + BucketCount(recs, MediumConfidence) +
      BucketCount(recs, LowerConfidence) == |recs|
    decreases |recs|
  {
    if recs != [] {
      var init := recs[..|recs| - 1];
      BucketsPartition(init);
      assert InBucket(init, HighConfidence) == InBucket(recs, HighConfidence)[..|recs| - 1];
      assert InBucket(init, MediumConfidence) == InBucket(recs, MediumConfidence)[..|recs| - 1];
      assert InBucket(init, LowerConfidence) == InBucket(recs, LowerConfidence)[..|recs| - 1];
    }
  }

  datatype Priority = High | Medium | Standard

  /** The report's priority label: > 90 high, > 80 medium, else standard. */
  function PriorityOf(confidence: real): (p: Priority)
    ensures p == High <==> confidence > 90.0
    ensures p == Medium <==> 80.0 < confidence <= 90.0
    ensures p == Standard <==> confidence <= 80.0
  {
    if confidence > 90.0 then High
    else if confidence > 80.0 then Medium
    else Standard
  }

  datatype BadgeColor = Green | Blue | Orange

  /** getConfidenceColor: from 90 green, from 80 blue, below orange. */
  function GetConfidenceColor(confidence: real): (c: BadgeColor)
    ensures c == Green <==> confidence >= 90.0
    ensures c == Blue <==> 80.0 <= confidence < 90.0
    ensures c == Orange <==> confidence < 80.0
  {
    if confidence >= 90.0 then Green
    else if confidence >= 80.0 then Blue
    else Orange
  }

  function BucketRank(b: Bucket): nat {
    match b
    case HighConfidence => 2
    case MediumConfidence => 1
    case LowerConfidence => 0
  }

  function PriorityRank(p: Priority): nat {
    match p
    case High => 2
    case Medium => 1
    case Standard => 0
  }

  function ColorRank(c: BadgeColor): nat {
    match c
    case Green => 2
    case Blue => 1
    case Orange => 0
  }

  /** The three thresholds agree everywhere except at exactly 80 and 90: a
      confidence of 80 is a medium bucket but a standard priority, and 90 is a
      medium priority but wears the top colour. */
  lemma ThresholdsDisagreeOnlyAtBoundaries(confidence: real)
    ensures confidence != 80.0 && confidence != 90.0 ==>
      BucketRank(BucketOf(confidence)) == PriorityRank(PriorityOf(confidence)) &&
      PriorityRank(PriorityOf(confidence)) == ColorRank(GetConfidenceColor(confidence))
    ensures BucketOf(80.0) == MediumConfidence && PriorityOf(80.0) == Standard
    ensures PriorityOf(90.0) == Medium && GetConfidenceColor(90.0) == Green
  {
  }
}
