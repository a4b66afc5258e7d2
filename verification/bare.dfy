/** Records that print no optional section: every list is empty and the
    type string does not match, as for a plain goblin. Such a record prints
    exactly the fences and its eight scalar lines. */
module BareRecords {
  import opened Record
  import opened Layout
  import opened Statblock
  import opened RenderStructure
  import opened RenderProperties

  /** Every list is empty and the type string does not match. */
  predicate Bare(r: CreatureRecord, ext: Externals)
  {
    && ext.matchType(r.typeLine).None?
    && |r.saves| == 0 && |r.skills| == 0
    && |r.damageVulnerabilities| == 0 && |r.damageResistances| == 0
    && |r.damageImmunities| == 0 && |r.conditionImmunities| == 0
    && |r.senses| == 0 && |r.languages| == 0
    && |r.traits| == 0 && |r.actions| == 0 && |r.legendaryActions| == 0
    && |r.reactions| == 0 && |r.mythicActions| == 0
  }

  /** Only the scalar fields print a line. */
  lemma BareBlockLength(r: CreatureRecord, ext: Externals, f: Field)
    requires Bare(r, ext)
    ensures BlockLength(r, ext, f) == if IsScalarField(f) then 1 else 0
  {
  }

  /** The scalar lines from `columns` to `stats` follow each other. */
  lemma BareScalarStarts(r: CreatureRecord, ext: Externals)
    requires Bare(r, ext)
    ensures Start(r, ext, Columns) == 2 && Start(r, ext, Ac) == 3 && Start(r, ext, Hp) == 4
    ensures Start(r, ext, HitDice) == 5 && Start(r, ext, Speed) == 6 && Start(r, ext, Stats) == 7
    ensures Start(r, ext, Saves) == 8
  {
    TypeStartsUnmatched(r, ext);
    StartStep(r, ext, Columns, Ac);
    StartStep(r, ext, Ac, Hp);
    StartStep(r, ext, Hp, HitDice);
    StartStep(r, ext, HitDice, Speed);
    StartStep(r, ext, Speed, Stats);
    StartStep(r, ext, Stats, Saves);
    BareBlockLength(r, ext, Columns);
    BareBlockLength(r, ext, Ac);
    BareBlockLength(r, ext, Hp);
    BareBlockLength(r, ext, HitDice);
    BareBlockLength(r, ext, Speed);
    BareBlockLength(r, ext, Stats);
  }

  /** An empty section's successor starts where the section would. */
  lemma BareSkip(r: CreatureRecord, ext: Externals, f: Field, g: Field)
    requires Bare(r, ext) && !IsScalarField(f) && Rank(g) == Rank(f) + 1
    ensures Start(r, ext, g) == Start(r, ext, f)
  {
    StartStep(r, ext, f, g);
    BareBlockLength(r, ext, f);
  }

  /** The empty sections take no lines: `cr` comes right after `stats`. */
  lemma BareSectionStarts(r: CreatureRecord, ext: Externals)
    requires Bare(r, ext)
    ensures Start(r, ext, Cr) == Start(r, ext, Saves)
  {
    BareSkip(r, ext, Saves, SkillSaves);
    BareSkip(r, ext, SkillSaves, DamageVulnerabilities);
    BareSkip(r, ext, DamageVulnerabilities, DamageResistances);
    BareSkip(r, ext, DamageResistances, DamageImmunities);
    BareSkip(r, ext, DamageImmunities, ConditionImmunities);
    BareSkip(r, ext, ConditionImmunities, Senses);
    BareSkip(r, ext, Senses, Languages);
    BareSkip(r, ext, Languages, Cr);
  }

  /** The fields after `cr` are the content sections. */
  lemma AfterCr(g: Field)
    requires Rank(Cr) < Rank(g)
    ensures IsContentField(g)
  {
  }

  /** Nothing is printed after `cr`: the closing fence follows it. */
  lemma BareClosing(r: CreatureRecord, ext: Externals)
    requires Bare(r, ext)
    ensures |Render(r, ext)| == Start(r, ext, Cr) + 2
  {
    BlockFits(r, ext, Cr);
    if Start(r, ext, Cr) + BlockLength(r, ext, Cr) < |Render(r, ext)| - 1 {
      var g := NextField(r, ext, Cr);
      StartOrder(r, ext, Cr, g);
      AfterCr(g);
    }
  }

  /** A bare record prints ten lines. */
  lemma BareLength(r: CreatureRecord, ext: Externals)
    requires Bare(r, ext)
    ensures |Render(r, ext)| == 10
  {
    BareScalarStarts(r, ext);
    BareSectionStarts(r, ext);
    BareClosing(r, ext);
  }

  /** A bare record opens with the fence, the name line and `columns: 2`,
      and closes with the fence at line 9. */
  lemma BareLinesOpen(r: CreatureRecord, ext: Externals)
    requires Bare(r, ext)
    ensures |Render(r, ext)| == 10
    ensures Render(r, ext)[0] == Open && Render(r, ext)[9] == Close
    ensures Render(r, ext)[1] == HeadLine(r, ext, Name) && Render(r, ext)[2] == HeadLine(r, ext, Columns)
  {
    BareScalarStarts(r, ext);
    BareLength(r, ext);
    RenderFences(r, ext);
    NameFirst(r, ext);
    ScalarAt(r, ext, Name);
    ScalarAt(r, ext, Columns);
  }

  /** Lines 3 and 4 of a bare record are the ac and hp lines. */
  lemma BareLinesPoints(r: CreatureRecord, ext: Externals)
    requires Bare(r, ext)
    ensures |Render(r, ext)| == 10
    ensures Render(r, ext)[3] == HeadLine(r, ext, Ac) && Render(r, ext)[4] == HeadLine(r, ext, Hp)
  {
    BareScalarStarts(r, ext);
    BareLength(r, ext);
    ScalarAt(r, ext, Ac);
    ScalarAt(r, ext, Hp);
  }

  /** Lines 5 and 6 of a bare record are the hit_dice and speed lines. */
  lemma BareLinesMovement(r: CreatureRecord, ext: Externals)
    requires Bare(r, ext)
    ensures |Render(r, ext)| == 10
    ensures Render(r, ext)[5] == HeadLine(r, ext, HitDice) && Render(r, ext)[6] == HeadLine(r, ext, Speed)
  {
    BareScalarStarts(r, ext);
    BareLength(r, ext);
    ScalarAt(r, ext, HitDice);
    ScalarAt(r, ext, Speed);
  }

  /** Lines 7 and 8 of a bare record are the stats and cr lines. */
  lemma BareLinesScores(r: CreatureRecord, ext: Externals)
    requires Bare(r, ext)
    ensures |Render(r, ext)| == 10
    ensures Render(r, ext)[7] == HeadLine(r, ext, Stats) && Render(r, ext)[8] == HeadLine(r, ext, Cr)
  {
    BareScalarStarts(r, ext);
    BareSectionStarts(r, ext);
    BareLength(r, ext);
    ScalarAt(r, ext, Stats);
    ScalarAt(r, ext, Cr);
  }

  /** A record with no list entries and an unmatched type string prints
      exactly its eight scalar keyed lines between the fences. */
  lemma BareRender(r: CreatureRecord, ext: Externals)
    requires Bare(r, ext)
    ensures |Render(r, ext)| == 10
    ensures Render(r, ext)[0] == Open && Render(r, ext)[9] == Close
    ensures Render(r, ext)[1] == HeadLine(r, ext, Name) && Render(r, ext)[2] == HeadLine(r, ext, Columns)
    ensures Render(r, ext)[3] == HeadLine(r, ext, Ac) && Render(r, ext)[4] == HeadLine(r, ext, Hp)
    ensures Render(r, ext)[5] == HeadLine(r, ext, HitDice) && Render(r, ext)[6] == HeadLine(r, ext, Speed)
    ensures Render(r, ext)[7] == HeadLine(r, ext, Stats) && Render(r, ext)[8] == HeadLine(r, ext, Cr)
  {
    BareLinesOpen(r, ext);
    BareLinesPoints(r, ext);
    BareLinesMovement(r, ext);
    BareLinesScores(r, ext);
  }
}
