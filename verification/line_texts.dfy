/** The text of each field's keyed line, independent of where it is
    printed. */
module LineTexts {
  import opened Text
  import TypePattern
  import opened Record
  import opened Layout
  import opened Statblock

  lemma NameText(r: CreatureRecord, ext: Externals)
    ensures HeadLine(r, ext, Name) == "name: " + r.name
  {
  }

  lemma ColumnsText(r: CreatureRecord, ext: Externals)
    ensures HeadLine(r, ext, Columns) == "columns: 2"
  {
  }

  lemma AcText(r: CreatureRecord, ext: Externals)
    ensures HeadLine(r, ext, Ac) == "ac: " + NatToString(r.ac.value)
  {
  }

  lemma HpText(r: CreatureRecord, ext: Externals)
    ensures HeadLine(r, ext, Hp) == "hp: " + NatToString(r.hp.value)
  {
  }

  lemma HitDiceText(r: CreatureRecord, ext: Externals)
    ensures HeadLine(r, ext, HitDice) == "hit_dice: " + Statblock.HitDice(r.hp.notes)
  {
    var h := Statblock.HitDice(r.hp.notes);
    assert Value(r, ext, HitDice) == " " + h;
  }

  lemma SpeedText(r: CreatureRecord, ext: Externals)
    ensures HeadLine(r, ext, Speed) == "speed: " + (if |r.speed| > 0 then r.speed[0] else "")
  {
  }

  lemma StatsText(r: CreatureRecord, ext: Externals)
    ensures HeadLine(r, ext, Stats) == "stats: [" + Join(Numerals(Scores(r.abilities))) + "]"
  {
  }

  lemma CrText(r: CreatureRecord, ext: Externals)
    ensures HeadLine(r, ext, Cr) == "cr: \"" + r.challenge + "\""
  {
  }

  /** The four type lines carry the title-cased capture groups. */
  lemma TypeTexts(r: CreatureRecord, ext: Externals, p: TypePattern.TypeParts)
    requires ext.matchType(r.typeLine) == TypePattern.Some(p)
    ensures HeadLine(r, ext, Size) == "size: " + ext.titleCase(p.size)
    ensures HeadLine(r, ext, Type) == "type: " + ext.titleCase(p.kind)
    ensures HeadLine(r, ext, Subtype) == "subtype: " + ext.titleCase(p.subtype)
    ensures HeadLine(r, ext, Alignment) == "alignment: " + ext.titleCase(p.alignment)
  {
    assert TypeGroup(r, ext, Size) == ext.titleCase(p.size);
    assert TypeGroup(r, ext, Type) == ext.titleCase(p.kind);
    assert TypeGroup(r, ext, Subtype) == ext.titleCase(p.subtype);
    assert TypeGroup(r, ext, Alignment) == ext.titleCase(p.alignment);
  }

  /** A list section's header carries nothing after the colon. */
  lemma SectionHeaderText(r: CreatureRecord, ext: Externals, f: Field)
    requires IsModifierField(f) || IsContentField(f)
    ensures HeadLine(r, ext, f) == Key(f) + ":"
  {
    match f
    case Saves | SkillSaves => assert Value(r, ext, f) == "";
    case Traits | Actions | LegendaryActions => assert Value(r, ext, f) == "";
    case Reactions | MythicActions => assert Value(r, ext, f) == "";
  }

  /** A plain list's line carries its entries joined by ", ", title-cased
      for senses only. */
  lemma PlainListText(r: CreatureRecord, ext: Externals, f: Field)
    requires IsPlainListField(f)
    ensures HeadLine(r, ext, f) == Key(f) + ": "
      + (if f.Senses? then ext.titleCase(Join(PlainList(r, f))) else Join(PlainList(r, f)))
  {
    var j := Join(PlainList(r, f));
    if f.Senses? {
      assert Value(r, ext, f) == " " + ext.titleCase(j);
    } else {
      assert Value(r, ext, f) == " " + j;
    }
  }

  /** The stats line reads back to the six scores: splitting the text
      between the brackets at ", " and parsing each piece gives Str, Dex,
      Con, Int, Wis and Cha in that order. */
  lemma StatsReadBack(a: Abilities)
    ensures |Split(Join(Numerals(Scores(a))))| == 6
    ensures forall i :: 0 <= i < 6 ==>
      && (forall c :: 0 <= c < |Split(Join(Numerals(Scores(a))))[i]| ==> IsDigit(Split(Join(Numerals(Scores(a))))[i][c]))
      && ParseNat(Split(Join(Numerals(Scores(a))))[i]) == Scores(a)[i]
  {
    var ns := Numerals(Scores(a));
    forall i | 0 <= i < |ns|
      ensures ',' !in ns[i]
    {
      assert forall c :: 0 <= c < |ns[i]| ==> IsDigit(ns[i][c]);
    }
    SplitJoin(ns);
    forall i | 0 <= i < 6
      ensures ParseNat(ns[i]) == Scores(a)[i]
    {
      ParseNatToString(Scores(a)[i]);
    }
  }
}
