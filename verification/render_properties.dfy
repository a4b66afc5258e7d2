/** Where the lines of the statblock are printed: the fences, the
    conditional type lines, the always-present scalar lines and the list
    sections. */
module RenderProperties {
  import opened Text
  import TypePattern
  import opened Record
  import opened Layout
  import opened Seqs
  import opened Statblock
  import opened RenderStructure
  import opened LineTexts

  lemma NameFirst(r: CreatureRecord, ext: Externals)
    ensures Start(r, ext, Name) == 1
    ensures BlockLength(r, ext, Name) == 1
  {
  }

  /** The output opens with the `statblock` fence and the name line, closes
      with the bare fence, and no line in between equals either fence. */
  lemma Frame(r: CreatureRecord, ext: Externals)
    ensures |Render(r, ext)| >= 3
    ensures Render(r, ext)[0] == "```statblock"
    ensures Render(r, ext)[1] == "name: " + r.name
    ensures Render(r, ext)[|Render(r, ext)| - 1] == "```"
    ensures forall k :: 0 < k < |Render(r, ext)| - 1 ==>
      Render(r, ext)[k] != "```statblock" && Render(r, ext)[k] != "```"
  {
    var out := Render(r, ext);
    RenderFences(r, ext);
    NameFirst(r, ext);
    HeadLineAt(r, ext, Name);
    NameText(r, ext);
    forall k | 0 < k < |out| - 1
      ensures out[k] != "```statblock" && out[k] != "```"
    {
      var f, j := LineAt(r, ext, k);
      SlotText(r, ext, f, j);
      assert out[k][0] != '`';
    }
  }

  lemma TypeBlockLength(r: CreatureRecord, ext: Externals, f: Field)
    requires IsTypeField(f)
    ensures BlockLength(r, ext, f) == if ext.matchType(r.typeLine).Some? then 1 else 0
  {
  }

  /** With a matching type string the name line is followed by one line per
      type field and then `columns`. */
  lemma TypeStartsMatched(r: CreatureRecord, ext: Externals)
    requires ext.matchType(r.typeLine).Some?
    ensures Start(r, ext, Size) == 2 && Start(r, ext, Type) == 3
    ensures Start(r, ext, Subtype) == 4 && Start(r, ext, Alignment) == 5
    ensures Start(r, ext, Columns) == 6
  {
    NameFirst(r, ext);
    StartStep(r, ext, Name, Size);
    StartStep(r, ext, Size, Type);
    StartStep(r, ext, Type, Subtype);
    StartStep(r, ext, Subtype, Alignment);
    StartStep(r, ext, Alignment, Columns);
    TypeBlockLength(r, ext, Size);
    TypeBlockLength(r, ext, Type);
    TypeBlockLength(r, ext, Subtype);
    TypeBlockLength(r, ext, Alignment);
  }

  /** Without a match `columns` directly follows the name line. */
  lemma TypeStartsUnmatched(r: CreatureRecord, ext: Externals)
    requires ext.matchType(r.typeLine).None?
    ensures Start(r, ext, Columns) == 2
  {
    NameFirst(r, ext);
    StartStep(r, ext, Name, Size);
    StartStep(r, ext, Size, Type);
    StartStep(r, ext, Type, Subtype);
    StartStep(r, ext, Subtype, Alignment);
    StartStep(r, ext, Alignment, Columns);
    TypeBlockLength(r, ext, Size);
    TypeBlockLength(r, ext, Type);
    TypeBlockLength(r, ext, Subtype);
    TypeBlockLength(r, ext, Alignment);
  }

  /** When the type string matches, the size, type, subtype and alignment
      lines follow the name line in that order, carrying the title-cased
      capture groups, and `columns: 2` comes right after them. */
  lemma TypeLinesMatched(r: CreatureRecord, ext: Externals, p: TypePattern.TypeParts)
    requires ext.matchType(r.typeLine) == TypePattern.Some(p)
    ensures |Render(r, ext)| > 7
    ensures Render(r, ext)[2] == "size: " + ext.titleCase(p.size)
    ensures Render(r, ext)[3] == "type: " + ext.titleCase(p.kind)
    ensures Render(r, ext)[4] == "subtype: " + ext.titleCase(p.subtype)
    ensures Render(r, ext)[5] == "alignment: " + ext.titleCase(p.alignment)
    ensures Render(r, ext)[6] == "columns: 2"
  {
    TypeStartsMatched(r, ext);
    TypeTexts(r, ext, p);
    ColumnsText(r, ext);
    HeadLineAt(r, ext, Size);
    HeadLineAt(r, ext, Type);
    HeadLineAt(r, ext, Subtype);
    HeadLineAt(r, ext, Alignment);
    HeadLineAt(r, ext, Columns);
  }

  /** When the type string does not match, `columns: 2` directly follows
      the name line and no size, type, subtype or alignment line is printed
      anywhere. */
  lemma TypeLinesUnmatched(r: CreatureRecord, ext: Externals)
    requires ext.matchType(r.typeLine).None?
    ensures |Render(r, ext)| > 3
    ensures Render(r, ext)[2] == "columns: 2"
    ensures forall k :: 0 <= k < |Render(r, ext)| && IsKeyed(Render(r, ext)[k]) ==>
      LineKey(Render(r, ext)[k]) !in ["size", "type", "subtype", "alignment"]
  {
    var out := Render(r, ext);
    TypeStartsUnmatched(r, ext);
    ColumnsText(r, ext);
    HeadLineAt(r, ext, Columns);
    forall k | 0 <= k < |out| && IsKeyed(out[k])
      ensures LineKey(out[k]) !in ["size", "type", "subtype", "alignment"]
    {
      var f := KeyedLineField(r, ext, k);
      TypeKey(f);
    }
  }

  /** The four type keys are exactly the keys of the type fields. */
  lemma TypeKey(f: Field)
    ensures Key(f) in ["size", "type", "subtype", "alignment"] <==> IsTypeField(f)
  {
    FieldOfKeyOfField(f);
  }

  /** The fields printed whatever the record holds. */
  lemma ScalarFields(f: Field)
    ensures IsScalarField(f) <==>
      f.Name? || f.Columns? || f.Ac? || f.Hp? || f.HitDice? || f.Speed? || f.Stats? || f.Cr?
  {
  }

  /** A field that is always present prints its keyed line at `Start(f)`,
      strictly between the fences. */
  lemma ScalarAt(r: CreatureRecord, ext: Externals, f: Field)
    requires IsScalarField(f)
    ensures 0 < Start(r, ext, f) < |Render(r, ext)| - 1
    ensures Render(r, ext)[Start(r, ext, f)] == HeadLine(r, ext, f)
  {
    HeadLineAt(r, ext, f);
  }

  /** The name, columns, ac, hp, hit_dice, speed, stats and cr lines are
      printed whatever the record holds, each once, in that order, and
      before the closing fence. */
  lemma ScalarLines(r: CreatureRecord, ext: Externals, f: Field, g: Field)
    requires IsScalarField(f) && IsScalarField(g) && Rank(f) < Rank(g)
    ensures 0 < Start(r, ext, f) < Start(r, ext, g) < |Render(r, ext)| - 1
    ensures Render(r, ext)[Start(r, ext, f)] == HeadLine(r, ext, f)
    ensures Render(r, ext)[Start(r, ext, g)] == HeadLine(r, ext, g)
  {
    ScalarAt(r, ext, f);
    ScalarAt(r, ext, g);
    StartMonotone(r, ext, f, g);
  }
}
