/** The constant tables of constants.ts and the two keyword classifiers that
    give a task name its icon and its colour class. */
module Constants {
  import opened Types
  import opened JsBuiltins

  predicate Distinct<T(==)>(s: seq<T>) {
    forall i, j :: 0 <= i < j < |s| ==> s[i] != s[j]
  }

  const AVAILABLE_CROPS: seq<Crop> := [
    Crop("Manioc", ManiocIcon),
    Crop("Maïs", MaisIcon),
    Crop("Igname", IgnamesIcon),
    Crop("Riz", RizIcon),
    Crop("Cacao", CacaoIcon)
  ]

  const SOIL_TYPES: seq<SoilType> := [Argileux, Limoneux, Sableux, Fertile]

  const IRRIGATION_SYSTEMS: seq<IrrigationSystem> := [GoutteAGoutte, Aspersion, Manuel, Aucun]

  /** Five crops with five different names; four different soil types and
      four different irrigation systems, each table listing every value of
      its type. */
  lemma TablesAreComplete()
    ensures |AVAILABLE_CROPS| == 5
    ensures Distinct(seq(|AVAILABLE_CROPS|, i requires 0 <= i < |AVAILABLE_CROPS| => AVAILABLE_CROPS[i].name))
    ensures |SOIL_TYPES| == 4 && Distinct(SOIL_TYPES) && forall s: SoilType :: s in SOIL_TYPES
    ensures |IRRIGATION_SYSTEMS| == 4 && Distinct(IRRIGATION_SYSTEMS)
    ensures forall i: IrrigationSystem :: i in IRRIGATION_SYSTEMS
  {
    forall s: SoilType ensures s in SOIL_TYPES {
      assert s == SOIL_TYPES[0] || s == SOIL_TYPES[1] || s == SOIL_TYPES[2] || s == SOIL_TYPES[3];
    }
    forall i: IrrigationSystem ensures i in IRRIGATION_SYSTEMS {
      assert i == IRRIGATION_SYSTEMS[0] || i == IRRIGATION_SYSTEMS[1] || i == IRRIGATION_SYSTEMS[2] || i == IRRIGATION_SYSTEMS[3];
    }
  }

  /** The task icon components. */
  datatype TaskIcon = MaintenanceIcon | WaterIcon | WeedingIcon | TreatmentIcon | HarvestIcon

  const BLUE := "bg-blue-500"
  const CYAN := "bg-cyan-400"
  const YELLOW := "bg-yellow-500"
  const PURPLE := "bg-purple-500"
  const GREEN := "bg-green-600"
  const GRAY := "bg-gray-400"

  /** `getTaskIcon`: the lower-cased name is tested against the keywords in a
      fixed order and the first hit decides; no hit gives the maintenance
      icon. */
  function GetTaskIcon(taskName: string): TaskIcon
  {
    var lower := ToLower(taskName);
    if Includes(lower, "entretien") || Includes(lower, "préparation") then MaintenanceIcon
    else if Includes(lower, "arrosage") || Includes(lower, "irrigation") then WaterIcon
    else if Includes(lower, "désherbage") then WeedingIcon
    else if Includes(lower, "traitement") || Includes(lower, "fertilisation") then TreatmentIcon
    else if Includes(lower, "récolte") then HarvestIcon
    else MaintenanceIcon
  }

  /** `getTaskColor`: the same keyword order, giving a colour class; no hit
      gives gray. */
  function GetTaskColor(taskName: string): string
  {
    var lower := ToLower(taskName);
    if Includes(lower, "entretien") || Includes(lower, "préparation") then BLUE
    else if Includes(lower, "arrosage") || Includes(lower, "irrigation") then CYAN
    else if Includes(lower, "désherbage") then YELLOW
    else if Includes(lower, "traitement") || Includes(lower, "fertilisation") then PURPLE
    else if Includes(lower, "récolte") then GREEN
    else GRAY
  }

  // ---------------------------------------------------------------------------
  // The classifiers as one ordered keyword table, evaluated first match wins

  /** Rule i of the table holds the keywords of the i-th test of the chains. */
  const KEYWORD_RULES: seq<seq<string>> := [
    ["entretien", "préparation"],
    ["arrosage", "irrigation"],
    ["désherbage"],
    ["traitement", "fertilisation"],
    ["récolte"]
  ]

  /** The result of each rule, with the default as a sixth entry. */
  const COLOR_TABLE: seq<string> := [BLUE, CYAN, YELLOW, PURPLE, GREEN, GRAY]
  const ICON_TABLE: seq<TaskIcon> := [MaintenanceIcon, WaterIcon, WeedingIcon, TreatmentIcon, HarvestIcon, MaintenanceIcon]

  /** Some keyword of the rule occurs in the lower-cased name. */
  predicate MatchesRule(lower: string, rule: seq<string>)
    decreases |rule|
  {
    |rule| > 0 && (Includes(lower, rule[0]) || MatchesRule(lower, rule[1..]))
  }

  /** The rules of the table, spelled out as the tests of the chains. */
  lemma RulesSpelledOut(lower: string)
    ensures MatchesRule(lower, KEYWORD_RULES[0]) == (Includes(lower, "entretien") || Includes(lower, "préparation"))
    ensures MatchesRule(lower, KEYWORD_RULES[1]) == (Includes(lower, "arrosage") || Includes(lower, "irrigation"))
    ensures MatchesRule(lower, KEYWORD_RULES[2]) == Includes(lower, "désherbage")
    ensures MatchesRule(lower, KEYWORD_RULES[3]) == (Includes(lower, "traitement") || Includes(lower, "fertilisation"))
    ensures MatchesRule(lower, KEYWORD_RULES[4]) == Includes(lower, "récolte")
  {
    assert KEYWORD_RULES[0][1..][1..] == [];
    assert KEYWORD_RULES[1][1..][1..] == [];
    assert KEYWORD_RULES[2][1..] == [];
    assert KEYWORD_RULES[3][1..][1..] == [];
    assert KEYWORD_RULES[4][1..] == [];
  }

  /** The index of the first rule at or after `from` that matches, or
      `|rules|` when none does. */
  function FirstMatch(lower: string, rules: seq<seq<string>>, from: nat): (k: nat)
    requires from <= |rules|
    ensures from <= k <= |rules|
    ensures k < |rules| ==> MatchesRule(lower, rules[k])
    ensures forall j :: from <= j < k ==> !MatchesRule(lower, rules[j])
    decreases |rules| - from
  {
    if from == |rules| then from
    else if MatchesRule(lower, rules[from]) then from
    else FirstMatch(lower, rules, from + 1)
  }

  /** The rule a task name falls under; 5 is the default. */
  function RuleIndex(taskName: string): (k: nat)
    ensures k <= |KEYWORD_RULES|
  {
    FirstMatch(ToLower(taskName), KEYWORD_RULES, 0)
  }

  /** `getTaskColor` is the table's first matching rule. */
  lemma GetTaskColorIsFirstMatch(taskName: string)
    ensures GetTaskColor(taskName) == COLOR_TABLE[RuleIndex(taskName)]
  {
    RulesSpelledOut(ToLower(taskName));
  }

  /** `getTaskIcon` is the table's first matching rule. */
  lemma GetTaskIconIsFirstMatch(taskName: string)
    ensures GetTaskIcon(taskName) == ICON_TABLE[RuleIndex(taskName)]
  {
    RulesSpelledOut(ToLower(taskName));
  }

  /** A later rule never overrides an earlier one: a name matching rule i is
      classified by rule i or an earlier rule. */
  lemma EarlierRuleWins(taskName: string, i: nat)
    requires i < |KEYWORD_RULES| && MatchesRule(ToLower(taskName), KEYWORD_RULES[i])
    ensures RuleIndex(taskName) <= i
  {
  }

  /** First match wins: a name that mentions both irrigation and harvest, and
      no maintenance keyword, is coloured and drawn as irrigation. */
  lemma IrrigationBeatsHarvest(taskName: string)
    requires Includes(ToLower(taskName), "irrigation") && Includes(ToLower(taskName), "récolte")
    requires !Includes(ToLower(taskName), "entretien") && !Includes(ToLower(taskName), "préparation")
    ensures GetTaskColor(taskName) == CYAN && GetTaskIcon(taskName) == WaterIcon
  {
  }

  /** Classification ignores case: two names that agree letter for letter up
      to case get the same colour and icon, and so does a name and its
      lower-cased form. */
  lemma ClassificationIgnoresCase(a: string, b: string)
    requires |a| == |b| && forall i :: 0 <= i < |a| ==> ToLowerChar(a[i]) == ToLowerChar(b[i])
    ensures GetTaskColor(a) == GetTaskColor(b) && GetTaskIcon(a) == GetTaskIcon(b)
    ensures GetTaskColor(ToLower(a)) == GetTaskColor(a) && GetTaskIcon(ToLower(a)) == GetTaskIcon(a)
  {
    assert ToLower(a) == ToLower(b);
    ToLowerIdempotent(a);
  }

  /** The icon and the colour come from the same rule: two names have the same
      icon exactly when they have the same colour, except that the maintenance
      icon is shared by the blue rule and the gray default. */
  lemma IconAndColorAgree(a: string, b: string)
    ensures GetTaskIcon(a) == GetTaskIcon(b) <==>
              || GetTaskColor(a) == GetTaskColor(b)
              || (GetTaskColor(a) in {BLUE, GRAY} && GetTaskColor(b) in {BLUE, GRAY})
    ensures GetTaskIcon(a) == MaintenanceIcon <==> GetTaskColor(a) in {BLUE, GRAY}
  {
    GetTaskColorIsFirstMatch(a);
    GetTaskColorIsFirstMatch(b);
    GetTaskIconIsFirstMatch(a);
    GetTaskIconIsFirstMatch(b);
    TablesAgree(RuleIndex(a), RuleIndex(b));
  }

  /** Entry by entry, the icon table and the colour table make the same
      distinctions, except that the maintenance icon stands for both the
      blue rule and the gray default. */
  lemma TablesAgree(i: nat, j: nat)
    requires i < |ICON_TABLE| && j < |ICON_TABLE|
    ensures ICON_TABLE[i] == ICON_TABLE[j] <==>
              || COLOR_TABLE[i] == COLOR_TABLE[j]
              || (COLOR_TABLE[i] in {BLUE, GRAY} && COLOR_TABLE[j] in {BLUE, GRAY})
    ensures ICON_TABLE[i] == MaintenanceIcon <==> COLOR_TABLE[i] in {BLUE, GRAY}
  {
  }
}
