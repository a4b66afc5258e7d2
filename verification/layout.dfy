/** The output keys of the statblock markup and the fixed order in which
    the renderer emits them. */
module Layout {

  /** One output key each; the list sections (`saves:`, `traits:`, ...) are
      keys whose header line is followed by indented entry lines. */
  datatype Field =
    | Name | Size | Type | Subtype | Alignment
    | Columns | Ac | Hp | HitDice | Speed | Stats
    | Saves | SkillSaves
    | DamageVulnerabilities | DamageResistances | DamageImmunities | ConditionImmunities
    | Senses | Languages | Cr
    | Traits | Actions | LegendaryActions | Reactions | MythicActions

  /** Emission order. */
  const Order: seq<Field> := [
    Name, Size, Type, Subtype, Alignment,
    Columns, Ac, Hp, HitDice, Speed, Stats,
    Saves, SkillSaves,
    DamageVulnerabilities, DamageResistances, DamageImmunities, ConditionImmunities,
    Senses, Languages, Cr,
    Traits, Actions, LegendaryActions, Reactions, MythicActions
  ]

  /** Position of a field in the emission order. */
  function Rank(f: Field): (i: nat)
    ensures i < |Order|
  {
    match f
    case Name => 0
    case Size => 1
    case Type => 2
    case Subtype => 3
    case Alignment => 4
    case Columns => 5
    case Ac => 6
    case Hp => 7
    case HitDice => 8
    case Speed => 9
    case Stats => 10
    case Saves => 11
    case SkillSaves => 12
    case DamageVulnerabilities => 13
    case DamageResistances => 14
    case DamageImmunities => 15
    case ConditionImmunities => 16
    case Senses => 17
    case Languages => 18
    case Cr => 19
    case Traits => 20
    case Actions => 21
    case LegendaryActions => 22
    case Reactions => 23
    case MythicActions => 24
  }

  /** A field sits at its rank in the emission order. */
  lemma OrderAtRank(f: Field)
    ensures Order[Rank(f)] == f
  {
    match f
    case Name | Size | Type | Subtype | Alignment => OrderAtRankGroup0(f);
    case Columns | Ac | Hp | HitDice | Speed => OrderAtRankGroup1(f);
    case Stats | Saves | SkillSaves | DamageVulnerabilities | DamageResistances => OrderAtRankGroup2(f);
    case DamageImmunities | ConditionImmunities | Senses | Languages | Cr => OrderAtRankGroup3(f);
    case Traits | Actions | LegendaryActions | Reactions | MythicActions => OrderAtRankGroup4(f);
  }

  // The 25 cases are split over a few small lemmas so that no single proof
  // has to unfold the whole literal order at once.
  lemma OrderAtRankGroup0(f: Field)
    requires f.Name? || f.Size? || f.Type? || f.Subtype? || f.Alignment?
    ensures Order[Rank(f)] == f
  {
  }

  lemma OrderAtRankGroup1(f: Field)
    requires f.Columns? || f.Ac? || f.Hp? || f.HitDice? || f.Speed?
    ensures Order[Rank(f)] == f
  {
  }

  lemma OrderAtRankGroup2(f: Field)
    requires f.Stats? || f.Saves? || f.SkillSaves? || f.DamageVulnerabilities? || f.DamageResistances?
    ensures Order[Rank(f)] == f
  {
  }

  lemma OrderAtRankGroup3(f: Field)
    requires f.DamageImmunities? || f.ConditionImmunities? || f.Senses? || f.Languages? || f.Cr?
    ensures Order[Rank(f)] == f
  {
  }

  lemma OrderAtRankGroup4(f: Field)
    requires f.Traits? || f.Actions? || f.LegendaryActions? || f.Reactions? || f.MythicActions?
    ensures Order[Rank(f)] == f
  {
  }

  /** Every field occurs once in the order. */
  lemma RankOfOrder(i: nat)
    requires i < |Order|
    ensures Rank(Order[i]) == i
  {
  }

  /** Distinct fields have distinct ranks. */
  lemma RankInjective(f: Field, g: Field)
    requires Rank(f) == Rank(g)
    ensures f == g
  {
    OrderAtRank(f);
    OrderAtRank(g);
  }

  /** The key written before the colon of the field's line. */
  function Key(f: Field): string
  {
    match f
    case Name => "name"
    case Size => "size"
    case Type => "type"
    case Subtype => "subtype"
    case Alignment => "alignment"
    case Columns => "columns"
    case Ac => "ac"
    case Hp => "hp"
    case HitDice => "hit_dice"
    case Speed => "speed"
    case Stats => "stats"
    case Saves => "saves"
    case SkillSaves => "skillsaves"
    case DamageVulnerabilities => "damage_vulnerabilities"
    case DamageResistances => "damage_resistances"
    case DamageImmunities => "damage_immunities"
    case ConditionImmunities => "condition_immunities"
    case Senses => "senses"
    case Languages => "languages"
    case Cr => "cr"
    case Traits => "traits"
    case Actions => "actions"
    case LegendaryActions => "legendary_actions"
    case Reactions => "reactions"
    case MythicActions => "mythic_actions"
  }

  /** Reads a key back; inverse of `Key`. */
  function FieldOfKey(k: string): (f: Field)
  {
    match k
    case "name" => Name
    case "size" => Size
    case "type" => Type
    case "subtype" => Subtype
    case "alignment" => Alignment
    case "columns" => Columns
    case "ac" => Ac
    case "hp" => Hp
    case "hit_dice" => HitDice
    case "speed" => Speed
    case "stats" => Stats
    case "saves" => Saves
    case "skillsaves" => SkillSaves
    case "damage_vulnerabilities" => DamageVulnerabilities
    case "damage_resistances" => DamageResistances
    case "damage_immunities" => DamageImmunities
    case "condition_immunities" => ConditionImmunities
    case "senses" => Senses
    case "languages" => Languages
    case "cr" => Cr
    case "traits" => Traits
    case "actions" => Actions
    case "legendary_actions" => LegendaryActions
    case "reactions" => Reactions
    case _ => MythicActions
  }

  lemma FieldOfKeyOfField(f: Field)
    ensures FieldOfKey(Key(f)) == f
  {
    var i := Rank(f);
    if i < 5 {
      FieldOfKeyGroup0(f);
    } else if i < 10 {
      FieldOfKeyGroup1(f);
    } else if i < 15 {
      FieldOfKeyGroup2(f);
    } else if i < 20 {
      FieldOfKeyGroup3(f);
    } else {
      FieldOfKeyGroup4(f);
    }
  }

  // Split by rank, as for OrderAtRank, to keep each proof small.
  lemma FieldOfKeyGroup0(f: Field)
    requires 0 <= Rank(f) < 5
    ensures FieldOfKey(Key(f)) == f
  {
    match f
    case Name => assert FieldOfKey("name") == Name;
    case Size => assert FieldOfKey("size") == Size;
    case Type => assert FieldOfKey("type") == Type;
    case Subtype => assert FieldOfKey("subtype") == Subtype;
    case Alignment => assert FieldOfKey("alignment") == Alignment;
  }

  lemma FieldOfKeyGroup1(f: Field)
    requires 5 <= Rank(f) < 10
    ensures FieldOfKey(Key(f)) == f
  {
    match f
    case Columns => assert FieldOfKey("columns") == Columns;
    case Ac => assert FieldOfKey("ac") == Ac;
    case Hp => assert FieldOfKey("hp") == Hp;
    case HitDice => assert FieldOfKey("hit_dice") == HitDice;
    case Speed => assert FieldOfKey("speed") == Speed;
  }

  lemma FieldOfKeyGroup2(f: Field)
    requires 10 <= Rank(f) < 15
    ensures FieldOfKey(Key(f)) == f
  {
    match f
    case Stats => assert FieldOfKey("stats") == Stats;
    case Saves => assert FieldOfKey("saves") == Saves;
    case SkillSaves => assert FieldOfKey("skillsaves") == SkillSaves;
    case DamageVulnerabilities => assert FieldOfKey("damage_vulnerabilities") == DamageVulnerabilities;
    case DamageResistances => assert FieldOfKey("damage_resistances") == DamageResistances;
  }

  lemma FieldOfKeyGroup3(f: Field)
    requires 15 <= Rank(f) < 20
    ensures FieldOfKey(Key(f)) == f
  {
    match f
    case DamageImmunities => assert FieldOfKey("damage_immunities") == DamageImmunities;
    case ConditionImmunities => assert FieldOfKey("condition_immunities") == ConditionImmunities;
    case Senses => assert FieldOfKey("senses") == Senses;
    case Languages => assert FieldOfKey("languages") == Languages;
    case Cr => assert FieldOfKey("cr") == Cr;
  }

  lemma FieldOfKeyGroup4(f: Field)
    requires 20 <= Rank(f) < 25
    ensures FieldOfKey(Key(f)) == f
  {
    match f
    case Traits => assert FieldOfKey("traits") == Traits;
    case Actions => assert FieldOfKey("actions") == Actions;
    case LegendaryActions => assert FieldOfKey("legendary_actions") == LegendaryActions;
    case Reactions => assert FieldOfKey("reactions") == Reactions;
    case MythicActions => assert FieldOfKey("mythic_actions") == MythicActions;
  }

  /** Distinct fields have distinct keys. */
  lemma KeyInjective(f: Field, g: Field)
    requires Key(f) == Key(g)
    ensures f == g
  {
    FieldOfKeyOfField(f);
    FieldOfKeyOfField(g);
  }

  /** Keys are non-empty, begin with a lower-case letter and hold no colon
      or newline, so the key of a line can be read back as the text before
      its first colon. */
  lemma KeyShape(f: Field)
    ensures |Key(f)| > 0 && 'a' <= Key(f)[0] <= 'z'
    ensures ':' !in Key(f) && '\n' !in Key(f)
  {
    match f
    case Name | Size | Type | Subtype | Alignment => KeyShapeGroup0(f);
    case Columns | Ac | Hp | HitDice | Speed => KeyShapeGroup1(f);
    case Stats | Saves | SkillSaves => KeyShapeGroup2(f);
    case DamageVulnerabilities | DamageResistances => KeyShapeGroup3(f);
    case DamageImmunities | ConditionImmunities => KeyShapeGroup4(f);
    case Senses | Languages | Cr => KeyShapeGroup5(f);
    case Traits | Actions | LegendaryActions => KeyShapeGroup6(f);
    case Reactions | MythicActions => KeyShapeGroup7(f);
  }

  // Split into groups of a few fields, as above, to keep each proof small.
  lemma KeyShapeGroup0(f: Field)
    requires f.Name? || f.Size? || f.Type? || f.Subtype? || f.Alignment?
    ensures |Key(f)| > 0 && 'a' <= Key(f)[0] <= 'z'
    ensures ':' !in Key(f) && '\n' !in Key(f)
  {
  }

  lemma KeyShapeGroup1(f: Field)
    requires f.Columns? || f.Ac? || f.Hp? || f.HitDice? || f.Speed?
    ensures |Key(f)| > 0 && 'a' <= Key(f)[0] <= 'z'
    ensures ':' !in Key(f) && '\n' !in Key(f)
  {
  }

  lemma KeyShapeGroup2(f: Field)
    requires f.Stats? || f.Saves? || f.SkillSaves?
    ensures |Key(f)| > 0 && 'a' <= Key(f)[0] <= 'z'
    ensures ':' !in Key(f) && '\n' !in Key(f)
  {
  }

  lemma KeyShapeGroup3(f: Field)
    requires f.DamageVulnerabilities? || f.DamageResistances?
    ensures |Key(f)| > 0 && 'a' <= Key(f)[0] <= 'z'
    ensures ':' !in Key(f) && '\n' !in Key(f)
  {
  }

  lemma KeyShapeGroup4(f: Field)
    requires f.DamageImmunities? || f.ConditionImmunities?
    ensures |Key(f)| > 0 && 'a' <= Key(f)[0] <= 'z'
    ensures ':' !in Key(f) && '\n' !in Key(f)
  {
  }

  lemma KeyShapeGroup5(f: Field)
    requires f.Senses? || f.Languages? || f.Cr?
    ensures |Key(f)| > 0 && 'a' <= Key(f)[0] <= 'z'
    ensures ':' !in Key(f) && '\n' !in Key(f)
  {
  }

  lemma KeyShapeGroup6(f: Field)
    requires f.Traits? || f.Actions? || f.LegendaryActions?
    ensures |Key(f)| > 0 && 'a' <= Key(f)[0] <= 'z'
    ensures ':' !in Key(f) && '\n' !in Key(f)
  {
  }

  lemma KeyShapeGroup7(f: Field)
    requires f.Reactions? || f.MythicActions?
    ensures |Key(f)| > 0 && 'a' <= Key(f)[0] <= 'z'
    ensures ':' !in Key(f) && '\n' !in Key(f)
  {
  }
}
