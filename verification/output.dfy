/** What the renderer's output depends on, and what reaches standard
    output: only the printed fields of the record matter, and when the
    record's text holds no newline of its own every `println!` writes
    exactly one physical line. */
module Output {
  import opened Text
  import Casing
  import TypePattern
  import opened Record
  import opened Layout
  import opened Statblock
  import opened RenderStructure

  // ---------------------------------------------------------------------
  // Fields the renderer reads.

  /** The two records agree on everything the renderer reads: the name,
      the type string, the armour-class value (not its notes), the hit
      points with their notes, the first speed entry, the ability scores,
      the challenge rating and every list section. */
  predicate SamePrinted(a: CreatureRecord, b: CreatureRecord)
  {
    && a.name == b.name && a.typeLine == b.typeLine
    && a.ac.value == b.ac.value && a.hp == b.hp
    && (|a.speed| > 0 <==> |b.speed| > 0)
    && (|a.speed| > 0 ==> a.speed[0] == b.speed[0])
    && a.abilities == b.abilities && a.challenge == b.challenge
    && a.saves == b.saves && a.skills == b.skills
    && a.damageVulnerabilities == b.damageVulnerabilities
    && a.damageResistances == b.damageResistances
    && a.damageImmunities == b.damageImmunities
    && a.conditionImmunities == b.conditionImmunities
    && a.senses == b.senses && a.languages == b.languages
    && a.traits == b.traits && a.actions == b.actions
    && a.legendaryActions == b.legendaryActions && a.reactions == b.reactions
    && a.mythicActions == b.mythicActions
  }

  lemma {:induction false} SameSlotsOf(a: CreatureRecord, b: CreatureRecord, ext: Externals, fs: seq<Field>)
    requires SamePrinted(a, b)
    ensures SlotsOf(a, ext, fs) == SlotsOf(b, ext, fs)
    decreases |fs|
  {
    if |fs| > 0 {
      SameSlotsOf(a, b, ext, fs[1..]);
      var f := fs[0];
      assert Present(a, ext, f) == Present(b, ext, f);
      assert EntryCount(a, f) == EntryCount(b, f);
    }
  }

  lemma SameText(a: CreatureRecord, b: CreatureRecord, ext: Externals, s: Slot)
    requires SamePrinted(a, b)
    ensures TextOf(a, ext, s) == TextOf(b, ext, s)
  {
    match s
    case Head(f) =>
      assert Value(a, ext, f) == Value(b, ext, f);
    case Entry(f, j) =>
      assert Entries(a, f) == Entries(b, f);
    case _ =>
  }

  /** Two records that agree on every printed field render identically. */
  lemma RenderReadsPrinted(a: CreatureRecord, b: CreatureRecord, ext: Externals)
    requires SamePrinted(a, b)
    ensures Render(a, ext) == Render(b, ext)
  {
    SameSlotsOf(a, b, ext, Order);
    var sk := Skeleton(a, ext);
    assert sk == Skeleton(b, ext);
    forall k | 0 <= k < |sk|
      ensures Render(a, ext)[k] == Render(b, ext)[k]
    {
      RenderAt(a, ext, k);
      RenderAt(b, ext, k);
      SameText(a, b, ext, sk[k]);
    }
  }

  /** Source metadata, description, player, version, image URL and bonus
      actions never influence the output. */
  lemma UnprintedFields(r: CreatureRecord, ext: Externals, source: string, description: string,
                        player: string, version: string, imageUrl: string,
                        bonusActions: seq<NameContent>)
    ensures Render(r.(source := source, description := description, player := player,
                      version := version, imageUrl := imageUrl, bonusActions := bonusActions), ext)
            == Render(r, ext)
  {
    RenderReadsPrinted(r.(source := source, description := description, player := player,
                          version := version, imageUrl := imageUrl, bonusActions := bonusActions), r, ext);
  }

  /** Only the first speed entry and the armour-class value are printed:
      the armour-class notes never matter, and neither do the speeds after
      the first when there is one. */
  lemma UnprintedDetails(r: CreatureRecord, ext: Externals, acNotes: string, moreSpeeds: seq<string>)
    ensures Render(r.(ac := r.ac.(notes := acNotes),
                      speed := if |r.speed| > 0 then [r.speed[0]] + moreSpeeds else r.speed), ext)
            == Render(r, ext)
  {
    RenderReadsPrinted(r.(ac := r.ac.(notes := acNotes),
                          speed := if |r.speed| > 0 then [r.speed[0]] + moreSpeeds else r.speed), r, ext);
  }

  // ---------------------------------------------------------------------
  // Physical lines.

  predicate AllNewlineFree(xs: seq<string>)
  {
    forall i :: 0 <= i < |xs| ==> NewlineFree(xs[i])
  }

  predicate ModifierNamesNewlineFree(l: seq<NameModifier>)
  {
    forall i :: 0 <= i < |l| ==> NewlineFree(l[i].name)
  }

  predicate ContentNamesNewlineFree(l: seq<NameContent>)
  {
    forall i :: 0 <= i < |l| ==> NewlineFree(l[i].name)
  }

  /** The record's printed text carries no newline of its own. Descriptions
      are exempt: the renderer escapes them. */
  predicate RecordNewlineFree(r: CreatureRecord)
  {
    && NewlineFree(r.name)
    && NewlineFree(r.hp.notes)
    && (|r.speed| > 0 ==> NewlineFree(r.speed[0]))
    && NewlineFree(r.challenge)
    && ModifierNamesNewlineFree(r.saves) && ModifierNamesNewlineFree(r.skills)
    && AllNewlineFree(r.damageVulnerabilities) && AllNewlineFree(r.damageResistances)
    && AllNewlineFree(r.damageImmunities) && AllNewlineFree(r.conditionImmunities)
    && AllNewlineFree(r.senses) && AllNewlineFree(r.languages)
    && ContentNamesNewlineFree(r.traits) && ContentNamesNewlineFree(r.actions)
    && ContentNamesNewlineFree(r.legendaryActions) && ContentNamesNewlineFree(r.reactions)
    && ContentNamesNewlineFree(r.mythicActions)
  }

  predicate PartsNewlineFree(p: TypePattern.TypeParts)
  {
    NewlineFree(p.size) && NewlineFree(p.kind) && NewlineFree(p.subtype) && NewlineFree(p.alignment)
  }

  /** The regex captures and title-casing introduce no newline. */
  ghost predicate ExternalsNewlineFree(ext: Externals)
  {
    && (forall s :: NewlineFree(s) ==> NewlineFree(ext.titleCase(s)))
    && (forall s :: ext.matchType(s).Some? ==> PartsNewlineFree(ext.matchType(s).value))
  }

  lemma NumeralNewlineFree(n: nat)
    ensures NewlineFree(NatToString(n))
  {
    var s := NatToString(n);
    assert forall i :: 0 <= i < |s| ==> IsDigit(s[i]);
  }

  lemma {:induction false} ModifierLinesNewlineFree(l: seq<NameModifier>)
    requires ModifierNamesNewlineFree(l)
    ensures AllNewlineFree(RenderModifierList(l))
  {
    if |l| > 0 {
      ModifierLinesNewlineFree(l[1..]);
      Casing.ToLowerNewlineFree(l[0].name);
      NumeralNewlineFree(l[0].modifier);
      var rest := RenderModifierList(l[1..]);
      assert RenderModifierList(l) == [ModifierLine(l[0])] + rest;
    }
  }

  lemma {:induction false} ContentLinesNewlineFree(l: seq<NameContent>)
    requires ContentNamesNewlineFree(l)
    ensures AllNewlineFree(RenderContentList(l))
  {
    if |l| > 0 {
      ContentLinesNewlineFree(l[1..]);
      EscapeNewlinesShape(l[0].content);
      var rest := RenderContentList(l[1..]);
      assert RenderContentList(l) == ContentLines(l[0]) + rest;
    }
  }

  /** Every entry line is free of newlines. */
  lemma EntriesNewlineFree(r: CreatureRecord, f: Field)
    requires RecordNewlineFree(r)
    ensures AllNewlineFree(Entries(r, f))
  {
    if IsModifierField(f) {
      ModifierLinesNewlineFree(ModifierList(r, f));
    } else if IsContentField(f) {
      ContentLinesNewlineFree(ContentList(r, f));
    }
  }

  lemma ScalarValueNewlineFree(r: CreatureRecord, f: Field)
    requires RecordNewlineFree(r)
    ensures NewlineFree(ScalarValue(r, f))
  {
    match f
    case Ac => NumeralNewlineFree(r.ac.value);
    case Hp => NumeralNewlineFree(r.hp.value);
    case Stats =>
      var ns := Numerals(Scores(r.abilities));
      forall i | 0 <= i < |ns|
        ensures NewlineFree(ns[i])
      {
        NumeralNewlineFree(Scores(r.abilities)[i]);
      }
      JoinNewlineFree(ns);
    case _ =>
  }

  lemma ValueNewlineFree(r: CreatureRecord, ext: Externals, f: Field)
    requires RecordNewlineFree(r) && ExternalsNewlineFree(ext)
    ensures NewlineFree(Value(r, ext, f))
  {
    if IsPlainListField(f) {
      JoinNewlineFree(PlainList(r, f));
      JoinNewlineFree(r.senses);
    } else if !IsTypeField(f) && !IsModifierField(f) && !IsContentField(f) {
      ScalarValueNewlineFree(r, f);
    }
  }

  /** Every keyed line is free of newlines. */
  lemma HeadLineNewlineFree(r: CreatureRecord, ext: Externals, f: Field)
    requires RecordNewlineFree(r) && ExternalsNewlineFree(ext)
    ensures NewlineFree(HeadLine(r, ext, f))
  {
    KeyShape(f);
    ValueNewlineFree(r, ext, f);
  }

  /** When the record's printed text and the library calls carry no
      newline, every printed line is one physical line: reading standard
      output back line by line gives exactly the rendered lines. */
  lemma PrintedOutput(r: CreatureRecord, ext: Externals)
    requires RecordNewlineFree(r) && ExternalsNewlineFree(ext)
    ensures forall k :: 0 <= k < |Render(r, ext)| ==> NewlineFree(Render(r, ext)[k])
    ensures ReadLines(Print(Render(r, ext))) == Render(r, ext)
  {
    var out := Render(r, ext);
    RenderFences(r, ext);
    forall k | 0 <= k < |out|
      ensures NewlineFree(out[k])
    {
      if 0 < k < |out| - 1 {
        var f, j := LineAt(r, ext, k);
        SlotText(r, ext, f, j);
        if j == 0 {
          HeadLineNewlineFree(r, ext, f);
        } else {
          EntriesNewlineFree(r, f);
        }
      }
    }
    ReadPrintedLines(out);
  }
}
