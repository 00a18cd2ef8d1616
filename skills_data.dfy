/** The static skills catalogue and the per-trade lookup. */
module SkillsData {
  import opened Types

  /** Skills specific to plumbing. */
  const PlumberSkills: seq<Skill> := [
      Skill("Pipe fitting", Basic, 9),
      Skill("Soldering", Basic, 8),
      Skill("Blueprint reading", Intermediate, 7),
      Skill("Water systems", Intermediate, 9),
      Skill("Drainage systems", Intermediate, 8),
      Skill("Tool proficiency", Basic, 8),
      Skill("Problem diagnosis", Advanced, 10),
      Skill("Valve installation", Basic, 7),
      Skill("Leak detection", Intermediate, 8),
      Skill("Fixture installation", Basic, 6),
      Skill("Gas line work", Advanced, 9),
      Skill("Backflow prevention", Advanced, 8),
      Skill("Hydro-jetting", Intermediate, 6),
      Skill("Pipe cutting and threading", Basic, 7),
      Skill("Water pressure regulation", Intermediate, 7)
    ]

  /** Skills specific to electrical work. */
  const ElectricianSkills: seq<Skill> := [
      Skill("Circuit design", Advanced, 9),
      Skill("Wiring installation", Basic, 9),
      Skill("Electrical code knowledge", Intermediate, 10),
      Skill("Safety protocols", Basic, 10),
      Skill("Troubleshooting", Advanced, 10),
      Skill("Panel installation", Intermediate, 8),
      Skill("Conduit installation", Basic, 7),
      Skill("Motor controls", Advanced, 8),
      Skill("Lighting systems", Intermediate, 7),
      Skill("Grounding systems", Intermediate, 9),
      Skill("Voltage testing", Basic, 8),
      Skill("Load calculations", Advanced, 8),
      Skill("Fire alarm systems", Advanced, 7),
      Skill("Blueprint interpretation", Intermediate, 8),
      Skill("Power distribution", Advanced, 9)
    ]

  /** Skills that carry over from other work, shared by both trades. */
  const TransferableSkills: seq<Skill> := [
      Skill("Problem-solving", Intermediate, 10),
      Skill("Attention to detail", Basic, 9),
      Skill("Physical stamina", Basic, 8),
      Skill("Customer service", Basic, 7),
      Skill("Time management", Basic, 8),
      Skill("Safety awareness", Basic, 10),
      Skill("Manual dexterity", Basic, 8),
      Skill("Mathematical skills", Basic, 7),
      Skill("Communication skills", Basic, 8),
      Skill("Project management", Intermediate, 7),
      Skill("Quality control", Intermediate, 8),
      Skill("Technical documentation", Intermediate, 6)
    ]

  /** `getSkillsByTrade`: a trade's own skills followed by the transferable ones; any string
      that is not a known trade yields nothing. */
  function GetSkillsByTrade(trade: string): (r: seq<Skill>)
    ensures r != [] <==> trade == "plumber" || trade == "electrician"
    ensures r != [] ==> |r| == 27 && r[15..] == TransferableSkills
  {
    if trade == "plumber" then PlumberSkills + TransferableSkills
    else if trade == "electrician" then ElectricianSkills + TransferableSkills
    else []
  }

  predicate ImportancesInRange(s: seq<Skill>)
  {
    forall i :: 0 <= i < |s| ==> 1 <= s[i].importance <= 10
  }

  /** `s.map(skill => skill.name)`. */
  function Names(s: seq<Skill>): (r: seq<string>)
    ensures |r| == |s|
    ensures forall i :: 0 <= i < |s| ==> r[i] == s[i].name
  {
    seq(|s|, i requires 0 <= i < |s| => s[i].name)
  }

  predicate DistinctNames(s: seq<Skill>)
  {
    forall i, j :: 0 <= i < j < |s| ==> Names(s)[i] != Names(s)[j]
  }

  /** The sum of the importances, the denominator of the skill match. */
  function TotalImportance(s: seq<Skill>): int
  {
    if s == [] then 0 else TotalImportance(s[..|s| - 1]) + s[|s| - 1].importance
  }

  /** When every importance is at least 1 the total is at least the number of skills. */
  lemma {:induction false} TotalImportanceAtLeastLength(s: seq<Skill>)
    requires ImportancesInRange(s)
    ensures TotalImportance(s) >= |s|
  {
    if s != [] {
      TotalImportanceAtLeastLength(s[..|s| - 1]);
    }
  }

  /** Every catalogue entry has an importance between 1 and 10. */
  lemma CatalogueImportances()
    ensures ImportancesInRange(PlumberSkills)
    ensures ImportancesInRange(ElectricianSkills)
    ensures ImportancesInRange(TransferableSkills)
  {
  }

  predicate NamesDisjoint(a: seq<Skill>, b: seq<Skill>)
  {
    forall i, j :: 0 <= i < |a| && 0 <= j < |b| ==> Names(a)[i] != Names(b)[j]
  }

  lemma DistinctConcat(a: seq<Skill>, b: seq<Skill>)
    requires DistinctNames(a) && DistinctNames(b) && NamesDisjoint(a, b)
    ensures DistinctNames(a + b)
  {
    var n := Names(a + b);
    assert n == Names(a) + Names(b);
    forall i, j | 0 <= i < j < |n|
      ensures n[i] != n[j]
    {
      if j < |a| {
        assert n[i] == Names(a)[i] && n[j] == Names(a)[j];
      } else if i >= |a| {
        assert n[i] == Names(b)[i - |a|] && n[j] == Names(b)[j - |a|];
      } else {
        assert n[i] == Names(a)[i] && n[j] == Names(b)[j - |a|];
      }
    }
  }

  lemma PlumberDistinct()
    ensures DistinctNames(PlumberSkills)
  {
  }

  lemma ElectricianDistinct()
    ensures DistinctNames(ElectricianSkills)
  {
  }

  lemma TransferableDistinct()
    ensures DistinctNames(TransferableSkills)
  {
  }

  lemma PlumberTransferableDisjoint()
    ensures NamesDisjoint(PlumberSkills, TransferableSkills)
  {
  }

  lemma ElectricianTransferableDisjoint()
    ensures NamesDisjoint(ElectricianSkills, TransferableSkills)
  {
  }

  /** A known trade's list holds 27 skills with pairwise distinct names and importances in
      1..10, and its total importance is positive. */
  lemma KnownTradeSkills(t: Trade)
    ensures var r := GetSkillsByTrade(TradeName(t));
      |r| == 27 && DistinctNames(r) && ImportancesInRange(r) && TotalImportance(r) > 0
  {
    var r := GetSkillsByTrade(TradeName(t));
    CatalogueImportances();
    TransferableDistinct();
    match t {
      case Plumber =>
        PlumberDistinct();
        PlumberTransferableDisjoint();
        DistinctConcat(PlumberSkills, TransferableSkills);
      case Electrician =>
        ElectricianDistinct();
        ElectricianTransferableDisjoint();
        DistinctConcat(ElectricianSkills, TransferableSkills);
    }
    assert ImportancesInRange(r);
    TotalImportanceAtLeastLength(r);
  }
}
