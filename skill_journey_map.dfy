/** The skill journey map: one node per target skill (at most five per category), each
    classified by whether the user has the skill and whether it is a gap, the completion
    percentage shown under the map, and the estimated journey length in months. */
module JourneyMap {
  import opened Text
  import opened Seqs
  import opened Types
  import opened AiProcessor

  datatype Status = Complete | Partial | Todo | Focus

  /** A node of the map; `x` is the column, `y` the row position. */
  datatype MapNode = MapNode(id: string, name: string, status: Status, category: Category,
                             x: int, y: real, estimatedHours: int)

  const MaxPerCategory: nat := 5

  // ---------------------------------------------------------------- classification

  /** `skillGaps.find(gap => gap.skill === name)`, as the gap's index: names are compared
      exactly, with case. */
  function FindGap(gaps: seq<SkillGap>, name: string): (r: Option<nat>)
    ensures r.Some? ==> r.value < |gaps| && gaps[r.value].skill == name &&
                        forall j :: 0 <= j < r.value ==> gaps[j].skill != name
    ensures r.None? <==> forall j :: 0 <= j < |gaps| ==> gaps[j].skill != name
    decreases |gaps|
  {
    if gaps == [] then None
    else if gaps[0].skill == name then Some(0)
    else match FindGap(gaps[1..], name)
      case None => None
      case Some(i) => Some(i + 1)
  }

  /** The node status: a skill the user has is partial when it is a gap and complete
      otherwise; a skill the user lacks is focus when its gap is among the first three and
      todo otherwise. */
  function NodeStatus(currentSkills: seq<string>, gaps: seq<SkillGap>, name: string): (s: Status)
    ensures s == Partial <==> HasSkill(currentSkills, name) && exists i :: 0 <= i < |gaps| && gaps[i].skill == name
    ensures s == Complete <==> HasSkill(currentSkills, name) && forall i :: 0 <= i < |gaps| ==> gaps[i].skill != name
    ensures s == Focus <==> !HasSkill(currentSkills, name) && exists i :: 0 <= i < |gaps| && i < 3 && gaps[i].skill == name
    ensures s == Todo <==> !HasSkill(currentSkills, name) && forall i :: 0 <= i < |gaps| && i < 3 ==> gaps[i].skill != name
  {
    var gap := FindGap(gaps, name);
    if HasSkill(currentSkills, name) then
      (if gap.Some? then Partial else Complete)
    else
      (if gap.Some? && gap.value < 3 then Focus else Todo)
  }

  /** `estimatedHours`: 20 hours per missing level of the first gap with this name, and 0
      when the skill is not a gap. */
  function EstimatedHours(gaps: seq<SkillGap>, name: string): (h: int)
    ensures (forall j :: 0 <= j < |gaps| ==> gaps[j].skill != name) ==> h == 0
    ensures forall i :: 0 <= i < |gaps| && gaps[i].skill == name && (forall j :: 0 <= j < i ==> gaps[j].skill != name) ==>
      h == 20 * (gaps[i].requiredLevel - gaps[i].currentLevel)
  {
    var gap := FindGap(gaps, name);
    if gap.Some? then 20 * (gaps[gap.value].requiredLevel - gaps[gap.value].currentLevel) else 0
  }

  // ---------------------------------------------------------------- building the nodes

  function CategoryName(c: Category): string
  {
    match c
    case Basic => "basic"
    case Intermediate => "intermediate"
    case Advanced => "advanced"
  }

  /** The node id `<category>-<index>`. */
  function NodeId(c: Category, index: nat): string
  {
    CategoryName(c) + "-" + NatToString(index)
  }

  /** Different categories or different indices give different ids. */
  lemma NodeIdInjective(c: Category, i: nat, d: Category, j: nat)
    requires c != d || i != j
    ensures NodeId(c, i) != NodeId(d, j)
  {
    if c != d {
      assert NodeId(c, i)[0] != NodeId(d, j)[0];
    } else if NodeId(c, i) == NodeId(d, j) {
      var p := |CategoryName(c) + "-"|;
      assert NodeId(c, i)[p..] == NatToString(i);
      assert NodeId(d, j)[p..] == NatToString(j);
      NatToStringInjective(i, j);
    }
  }

  /** The row of the `index`-th of `count` nodes: the column from 80 to 420 divided evenly. */
  function RowY(index: nat, count: nat): real
  {
    var slots := if count - 1 > 1 then count - 1 else 1;
    80.0 + (index * 340) as real / slots as real
  }

  /** Every node of a column lies between rows 80 and 420. */
  lemma RowWithinColumn(index: nat, count: nat)
    requires index < count
    ensures 80.0 <= RowY(index, count) <= 420.0
  {
    var slots := if count - 1 > 1 then count - 1 else 1;
    assert index <= slots;
    assert index * 340 <= slots * 340;
    assert (index * 340) as real <= (slots * 340) as real;
    assert (slots * 340) as real / slots as real == 340.0;
    assert (index * 340) as real / slots as real <= (slots * 340) as real / slots as real;
  }

  /** The node for the `index`-th of the `count` skills of a column. */
  function MakeNode(skill: Skill, index: nat, count: nat, x: int, c: Category,
                    currentSkills: seq<string>, gaps: seq<SkillGap>): MapNode
  {
    MapNode(NodeId(c, index), skill.name, NodeStatus(currentSkills, gaps, skill.name), c, x,
            RowY(index, count), EstimatedHours(gaps, skill.name))
  }

  /** The nodes `createNodesForCategory` pushes for one column. */
  function CategoryNodes(skills: seq<Skill>, x: int, c: Category,
                         currentSkills: seq<string>, gaps: seq<SkillGap>): (r: seq<MapNode>)
    ensures |r| == |skills|
    ensures forall i :: 0 <= i < |r| ==> r[i] == MakeNode(skills[i], i, |skills|, x, c, currentSkills, gaps)
  {
    seq(|skills|, i requires 0 <= i < |skills| => MakeNode(skills[i], i, |skills|, x, c, currentSkills, gaps))
  }

  /** `createNodesForCategory`: pushes one node per skill onto `nodes`. */
  method CreateNodesForCategory(nodes: seq<MapNode>, skills: seq<Skill>, x: int, c: Category,
                                currentSkills: seq<string>, gaps: seq<SkillGap>)
    returns (r: seq<MapNode>)
    ensures r == nodes + CategoryNodes(skills, x, c, currentSkills, gaps)
  {
    r := nodes;
    var index := 0;
    while index < |skills|
      invariant 0 <= index <= |skills|
      invariant |r| == |nodes| + index
      invariant r[..|nodes|] == nodes
      invariant forall k :: 0 <= k < index ==>
        r[|nodes| + k] == MakeNode(skills[k], k, |skills|, x, c, currentSkills, gaps)
    {
      var skill := skills[index];
      var status := NodeStatus(currentSkills, gaps, skill.name);
      r := r + [MapNode(NodeId(c, index), skill.name, status, c, x, RowY(index, |skills|),
                        EstimatedHours(gaps, skill.name))];
      index := index + 1;
    }
    assert r == nodes + CategoryNodes(skills, x, c, currentSkills, gaps);
  }

  /** The first five target skills of a category, in catalogue order. */
  function Column(targetSkills: seq<Skill>, c: Category): seq<Skill>
  {
    Prefix(Filter(targetSkills, (s: Skill) => s.category == c), MaxPerCategory)
  }

  /** The map's nodes: the basic column at x 150, the intermediate one at 400, the advanced
      one at 650. */
  function MapNodes(currentSkills: seq<string>, targetSkills: seq<Skill>, gaps: seq<SkillGap>): seq<MapNode>
  {
    CategoryNodes(Column(targetSkills, Basic), 150, Basic, currentSkills, gaps)
    + CategoryNodes(Column(targetSkills, Intermediate), 400, Intermediate, currentSkills, gaps)
    + CategoryNodes(Column(targetSkills, Advanced), 650, Advanced, currentSkills, gaps)
  }

  /** The node-building effect. */
  method BuildNodes(currentSkills: seq<string>, targetSkills: seq<Skill>, gaps: seq<SkillGap>)
    returns (nodes: seq<MapNode>)
    ensures nodes == MapNodes(currentSkills, targetSkills, gaps)
  {
    nodes := [];
    nodes := CreateNodesForCategory(nodes, Column(targetSkills, Basic), 150, Basic, currentSkills, gaps);
    nodes := CreateNodesForCategory(nodes, Column(targetSkills, Intermediate), 400, Intermediate, currentSkills, gaps);
    nodes := CreateNodesForCategory(nodes, Column(targetSkills, Advanced), 650, Advanced, currentSkills, gaps);
  }

  function CategoryRank(c: Category): nat
  {
    match c
    case Basic => 0
    case Intermediate => 1
    case Advanced => 2
  }

  /** The nodes of one column: at most five, named after target skills of that category in
      catalogue order, and placed by their index. */
  lemma ColumnShape(currentSkills: seq<string>, targetSkills: seq<Skill>, gaps: seq<SkillGap>, x: int, c: Category)
    ensures var col := CategoryNodes(Column(targetSkills, c), x, c, currentSkills, gaps);
      |col| <= MaxPerCategory &&
      IsSubseq(Column(targetSkills, c), targetSkills) &&
      forall i :: 0 <= i < |col| ==>
        col[i].category == c && col[i].id == NodeId(c, i) && col[i].x == x &&
        Column(targetSkills, c)[i].category == c && col[i].name == Column(targetSkills, c)[i].name &&
        80.0 <= col[i].y <= 420.0
  {
    var p := (s: Skill) => s.category == c;
    var filtered := Filter(targetSkills, p);
    FilterIsSubseq(targetSkills, p);
    PrefixSubseq(filtered, MaxPerCategory);
    SubseqTrans(Column(targetSkills, c), filtered, targetSkills);
    var col := CategoryNodes(Column(targetSkills, c), x, c, currentSkills, gaps);
    forall i | 0 <= i < |col|
      ensures Column(targetSkills, c)[i].category == c && 80.0 <= col[i].y <= 420.0
    {
      assert Column(targetSkills, c)[i] == filtered[i];
      assert filtered[i] in filtered;
      RowWithinColumn(i, |Column(targetSkills, c)|);
    }
  }

  /** Every node of `col` belongs to category `c` and is numbered by its position. */
  predicate NumberedColumn(col: seq<MapNode>, c: Category)
  {
    forall i :: 0 <= i < |col| ==> col[i].category == c && col[i].id == NodeId(c, i)
  }

  /** The category and index of position `i` of three numbered columns laid end to end. */
  function Slot(i: nat, nb: nat, nm: nat): (Category, nat)
  {
    if i < nb then (Basic, i) else if i < nb + nm then (Intermediate, i - nb) else (Advanced, i - nb - nm)
  }

  /** Three numbered columns, basic, intermediate and advanced, laid end to end keep the
      category order and never repeat an id. */
  lemma ColumnsInOrder(b: seq<MapNode>, m: seq<MapNode>, a: seq<MapNode>)
    requires NumberedColumn(b, Basic) && NumberedColumn(m, Intermediate) && NumberedColumn(a, Advanced)
    ensures var nodes := b + m + a;
      (forall i, j :: 0 <= i < j < |nodes| ==> CategoryRank(nodes[i].category) <= CategoryRank(nodes[j].category)) &&
      (forall i, j :: 0 <= i < j < |nodes| ==> nodes[i].id != nodes[j].id)
  {
    var nodes := b + m + a;
    forall i | 0 <= i < |nodes|
      ensures nodes[i].category == Slot(i, |b|, |m|).0 && nodes[i].id == NodeId(Slot(i, |b|, |m|).0, Slot(i, |b|, |m|).1)
    {
      if i < |b| {
        assert nodes[i] == b[i];
      } else if i < |b| + |m| {
        assert nodes[i] == m[i - |b|];
      } else {
        assert nodes[i] == a[i - |b| - |m|];
      }
    }
    forall i, j | 0 <= i < j < |nodes|
      ensures nodes[i].id != nodes[j].id
    {
      var si, sj := Slot(i, |b|, |m|), Slot(j, |b|, |m|);
      NodeIdInjective(si.0, si.1, sj.0, sj.1);
    }
  }

  /** The map holds at most five nodes per category, the basic ones first, then the
      intermediate ones, then the advanced ones, and no two nodes share an id. */
  lemma MapNodesShape(currentSkills: seq<string>, targetSkills: seq<Skill>, gaps: seq<SkillGap>)
    ensures var nodes := MapNodes(currentSkills, targetSkills, gaps);
      |nodes| <= 3 * MaxPerCategory &&
      (forall i, j :: 0 <= i < j < |nodes| ==> CategoryRank(nodes[i].category) <= CategoryRank(nodes[j].category)) &&
      (forall i, j :: 0 <= i < j < |nodes| ==> nodes[i].id != nodes[j].id)
  {
    ColumnShape(currentSkills, targetSkills, gaps, 150, Basic);
    ColumnShape(currentSkills, targetSkills, gaps, 400, Intermediate);
    ColumnShape(currentSkills, targetSkills, gaps, 650, Advanced);
    ColumnsInOrder(CategoryNodes(Column(targetSkills, Basic), 150, Basic, currentSkills, gaps),
                   CategoryNodes(Column(targetSkills, Intermediate), 400, Intermediate, currentSkills, gaps),
                   CategoryNodes(Column(targetSkills, Advanced), 650, Advanced, currentSkills, gaps));
  }

  // ---------------------------------------------------------------- completion

  /** `Math.round(x)` of a non-negative fraction `num / den`: halves round up. */
  function RoundFraction(num: nat, den: nat): nat
    requires den > 0
  {
    (2 * num + den) / (2 * den)
  }

  /** The rounded fraction is the nearest whole number, halves rounding up. */
  lemma RoundFractionNearest(num: nat, den: nat)
    requires den > 0
    ensures var r := RoundFraction(num, den);
      2 * den * r <= 2 * num + den < 2 * den * (r + 1)
  {
  }

  /** The number of mastered nodes. */
  function CompleteCount(nodes: seq<MapNode>): nat
  {
    |Filter(nodes, (n: MapNode) => n.status == Complete)|
  }

  /** The percentage shown under the map; `None` stands for the NaN a map without nodes
      shows. */
  function Completion(nodes: seq<MapNode>): (r: Option<nat>)
    ensures r.None? <==> nodes == []
  {
    if nodes == [] then None else Some(RoundFraction(100 * CompleteCount(nodes), |nodes|))
  }

  /** The mastered nodes are some of the nodes: all of them exactly when every node is
      mastered, none exactly when no node is. */
  lemma CompleteCountBound(nodes: seq<MapNode>)
    ensures CompleteCount(nodes) <= |nodes|
    ensures CompleteCount(nodes) == |nodes| <==> forall i :: 0 <= i < |nodes| ==> nodes[i].status == Complete
    ensures CompleteCount(nodes) == 0 <==> forall i :: 0 <= i < |nodes| ==> nodes[i].status != Complete
  {
    var p := (n: MapNode) => n.status == Complete;
    FilterKeepsAll(nodes, p);
    if forall i :: 0 <= i < |nodes| ==> nodes[i].status != Complete {
      FilterNone(nodes, p);
    }
  }

  /** The percentage lies between 0 and 100: it is 100 when every node is mastered and 0
      when none is. Below 200 nodes, where no share short of all rounds up to 100 and none
      above nothing rounds down to 0, the converses hold too. */
  lemma CompletionInRange(nodes: seq<MapNode>)
    requires nodes != []
    ensures 0 <= Completion(nodes).value <= 100
    ensures (forall i :: 0 <= i < |nodes| ==> nodes[i].status == Complete) ==> Completion(nodes).value == 100
    ensures (forall i :: 0 <= i < |nodes| ==> nodes[i].status != Complete) ==> Completion(nodes).value == 0
    ensures |nodes| < 200 ==>
      (Completion(nodes).value == 100 <==> forall i :: 0 <= i < |nodes| ==> nodes[i].status == Complete)
    ensures |nodes| < 200 ==>
      (Completion(nodes).value == 0 <==> forall i :: 0 <= i < |nodes| ==> nodes[i].status != Complete)
  {
    var c, n := CompleteCount(nodes), |nodes|;
    CompleteCountBound(nodes);
    RoundFractionNearest(100 * c, n);
    var r := RoundFraction(100 * c, n);
    assert 2 * n * r <= 200 * c + n < 2 * n * (r + 1);
    assert 200 * c + n <= 201 * n;
    assert r <= 100 by { ProductOrder(2 * n, r, 101); }
    if c == n {
      assert r == 100 by { BetweenMultiples(2 * n, r, 100, 201 * n); }
    } else if n < 200 {
      assert 200 * c + n < 200 * n;
      assert r < 100 by { ProductOrder(2 * n, r, 100); }
    }
    if c == 0 {
      assert r == 0 by { ProductOrder(2 * n, r, 1); }
    } else if n < 200 {
      assert 200 * c + n >= 2 * n;
      assert r + 1 > 1 by { ProductOrder(2 * n, 1, r + 1); }
    }
  }

  /** `k * a < k * b` with `k > 0` means `a < b`. */
  lemma ProductOrder(k: nat, a: nat, b: nat)
    requires k > 0 && k * a < k * b
    ensures a < b
  {
  }

  /** A multiple of `k` in a window of width `k` starting at `k * m` is `k * m`. */
  lemma BetweenMultiples(k: nat, r: nat, m: nat, v: nat)
    requires k > 0 && k * m <= v < k * (m + 1)
    requires k * r <= v < k * (r + 1)
    ensures r == m
  {
  }

  // ---------------------------------------------------------------- journey length

  /** The total hours of all gaps, 20 per missing level. */
  function TotalHours(gaps: seq<SkillGap>): int
    decreases |gaps|
  {
    if gaps == [] then 0
    else TotalHours(gaps[..|gaps| - 1]) + (gaps[|gaps| - 1].requiredLevel - gaps[|gaps| - 1].currentLevel) * 20
  }

  /** Gaps that each ask for at least the current level need no negative total. */
  lemma {:induction false} TotalHoursNonNegative(gaps: seq<SkillGap>)
    requires forall i :: 0 <= i < |gaps| ==> gaps[i].currentLevel <= gaps[i].requiredLevel
    ensures TotalHours(gaps) >= 0
    decreases |gaps|
  {
    if gaps != [] {
      TotalHoursNonNegative(gaps[..|gaps| - 1]);
    }
  }

  /** `Math.ceil(t / d)` for a whole `t`. */
  function CeilDiv(t: int, d: nat): (r: int)
    requires d > 0
    ensures d * (r - 1) < t <= d * r
  {
    -((-t) / d)
  }

  /** The estimated journey in months: from the total at 160 hours a month to the total at 80
      hours a month. */
  function MonthRange(gaps: seq<SkillGap>): (int, int)
  {
    (CeilDiv(TotalHours(gaps), 160), CeilDiv(TotalHours(gaps), 80))
  }

  /** For a non-negative total the range is ordered, and the upper end is at most twice the
      lower end. */
  lemma MonthRangeOrdered(gaps: seq<SkillGap>)
    requires TotalHours(gaps) >= 0
    ensures MonthRange(gaps).0 <= MonthRange(gaps).1 <= 2 * MonthRange(gaps).0
  {
    var t := TotalHours(gaps);
    var lo, hi := CeilDiv(t, 160), CeilDiv(t, 80);
    assert 160 * (lo - 1) < t <= 160 * lo;
    assert 80 * (hi - 1) < t <= 80 * hi;
  }
}
