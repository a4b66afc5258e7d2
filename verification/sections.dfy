/** The list sections of the statblock: a header line `key:` followed by
    indented entries for saves, skills, traits and actions, and a single
    joined line for the plain string lists. */
module Sections {
  import opened Text
  import Casing
  import opened Record
  import opened Layout
  import opened Statblock
  import opened RenderStructure
  import opened LineTexts

  /** For a list section the header line `key:` is printed exactly when the
      field is present. */
  lemma {:induction false} HeaderPresence(r: CreatureRecord, ext: Externals, f: Field)
    requires IsModifierField(f) || IsContentField(f)
    ensures (Key(f) + ":" in Render(r, ext)) <==> Present(r, ext, f)
  {
    var out := Render(r, ext);
    var h := Key(f) + ":";
    KeyShape(f);
    assert h == Key(f) + ":" + "";
    IndexOfAfterPrefix(Key(f), ':', ":");
    assert IsKeyed(h) && LineKey(h) == Key(f);
    KeyedLinePresence(r, ext, f);
    if Present(r, ext, f) {
      HeadLineAt(r, ext, f);
      SectionHeaderText(r, ext, f);
      assert out[Start(r, ext, f)] == h;
    }
  }

  /** Entry `i` of a saves or skills list is printed `i + 1` lines below the
      header, lower-cased, as `  - name: modifier`. */
  lemma {:induction false} ModifierEntryAt(r: CreatureRecord, ext: Externals, f: Field, i: nat)
    requires IsModifierField(f) && i < |ModifierList(r, f)|
    ensures Start(r, ext, f) + 1 + i < |Render(r, ext)| - 1
    ensures Render(r, ext)[Start(r, ext, f) + 1 + i]
      == "  - " + Casing.ToLower(ModifierList(r, f)[i].name) + ": "
         + NatToString(ModifierList(r, f)[i].modifier)
  {
    EntryAt(r, ext, f, i);
    ModifierListAt(ModifierList(r, f), i);
  }

  /** A modifier section (`saves:`, `skillsaves:`) has its header exactly
      when its list is non-empty, followed by exactly one lower-cased
      `  - name: modifier` line per entry and then a line that is not
      indented. */
  lemma {:induction false} ModifierSection(r: CreatureRecord, ext: Externals, f: Field)
    requires IsModifierField(f)
    ensures (Key(f) + ":" in Render(r, ext)) <==> |ModifierList(r, f)| > 0
    ensures |ModifierList(r, f)| > 0 ==>
      var k, l := Start(r, ext, f), ModifierList(r, f);
      && 0 < k && k + |l| + 1 < |Render(r, ext)|
      && Render(r, ext)[k] == Key(f) + ":"
      && (forall i :: 0 <= i < |l| ==>
            Render(r, ext)[k + 1 + i]
              == "  - " + Casing.ToLower(l[i].name) + ": " + NatToString(l[i].modifier))
      && |Render(r, ext)[k + 1 + |l|]| > 0 && Render(r, ext)[k + 1 + |l|][0] != ' '
  {
    var out := Render(r, ext);
    var k, l := Start(r, ext, f), ModifierList(r, f);
    HeaderPresence(r, ext, f);
    if |l| > 0 {
      HeadLineAt(r, ext, f);
      SectionHeaderText(r, ext, f);
      AfterBlock(r, ext, f);
      forall i | 0 <= i < |l|
        ensures out[k + 1 + i] == "  - " + Casing.ToLower(l[i].name) + ": " + NatToString(l[i].modifier)
      {
        ModifierEntryAt(r, ext, f, i);
      }
    }
  }

  /** Entry `i` of a trait or action list is printed as two lines, `2i + 1`
      and `2i + 2` lines below the header: its quoted name, then its quoted
      description with newlines escaped. */
  lemma {:induction false} ContentEntryAt(r: CreatureRecord, ext: Externals, f: Field, i: nat)
    requires IsContentField(f) && i < |ContentList(r, f)|
    ensures Start(r, ext, f) + 2 + 2 * i < |Render(r, ext)| - 1
    ensures Render(r, ext)[Start(r, ext, f) + 1 + 2 * i]
      == "  - name: \"" + ContentList(r, f)[i].name + "\""
    ensures Render(r, ext)[Start(r, ext, f) + 2 + 2 * i]
      == "    desc: \"" + EscapeNewlines(ContentList(r, f)[i].content) + "\""
  {
    ContentNameAt(r, ext, f, i);
    ContentDescAt(r, ext, f, i);
  }

  lemma {:induction false} ContentNameAt(r: CreatureRecord, ext: Externals, f: Field, i: nat)
    requires IsContentField(f) && i < |ContentList(r, f)|
    ensures Start(r, ext, f) + 1 + 2 * i < |Render(r, ext)| - 1
    ensures Render(r, ext)[Start(r, ext, f) + 1 + 2 * i]
      == "  - name: \"" + ContentList(r, f)[i].name + "\""
  {
    ContentLineAt(r, ext, f, i, 0);
    ContentListAt(ContentList(r, f), i);
  }

  lemma {:induction false} ContentDescAt(r: CreatureRecord, ext: Externals, f: Field, i: nat)
    requires IsContentField(f) && i < |ContentList(r, f)|
    ensures Start(r, ext, f) + 2 + 2 * i < |Render(r, ext)| - 1
    ensures Render(r, ext)[Start(r, ext, f) + 2 + 2 * i]
      == "    desc: \"" + EscapeNewlines(ContentList(r, f)[i].content) + "\""
  {
    ContentLineAt(r, ext, f, i, 1);
    ContentListAt(ContentList(r, f), i);
  }

  /** Line `d` of entry `i` of a trait or action list. */
  lemma {:induction false} ContentLineAt(r: CreatureRecord, ext: Externals, f: Field, i: nat, d: nat)
    requires IsContentField(f) && i < |ContentList(r, f)| && d < 2
    ensures Start(r, ext, f) + 1 + 2 * i + d < |Render(r, ext)| - 1
    ensures Render(r, ext)[Start(r, ext, f) + 1 + 2 * i + d]
      == RenderContentList(ContentList(r, f))[2 * i + d]
  {
    assert Entries(r, f) == RenderContentList(ContentList(r, f));
    EntryAt(r, ext, f, 2 * i + d);
  }

  /** A content section (`traits:`, `actions:`, `legendary_actions:`,
      `reactions:`, `mythic_actions:`) has its header exactly when its list
      is non-empty, followed by exactly two lines per entry, the quoted name
      then the quoted, newline-escaped description, and then a line that is
      not indented. */
  lemma {:induction false} ContentSection(r: CreatureRecord, ext: Externals, f: Field)
    requires IsContentField(f)
    ensures (Key(f) + ":" in Render(r, ext)) <==> |ContentList(r, f)| > 0
    ensures |ContentList(r, f)| > 0 ==>
      var k, l := Start(r, ext, f), ContentList(r, f);
      && 0 < k && k + 2 * |l| + 1 < |Render(r, ext)|
      && Render(r, ext)[k] == Key(f) + ":"
      && (forall i :: 0 <= i < |l| ==>
            && Render(r, ext)[k + 1 + 2 * i] == "  - name: \"" + l[i].name + "\""
            && Render(r, ext)[k + 2 + 2 * i] == "    desc: \"" + EscapeNewlines(l[i].content) + "\"")
      && |Render(r, ext)[k + 1 + 2 * |l|]| > 0 && Render(r, ext)[k + 1 + 2 * |l|][0] != ' '
  {
    var out := Render(r, ext);
    var k, l := Start(r, ext, f), ContentList(r, f);
    HeaderPresence(r, ext, f);
    if |l| > 0 {
      HeadLineAt(r, ext, f);
      SectionHeaderText(r, ext, f);
      AfterBlock(r, ext, f);
      forall i | 0 <= i < |l|
        ensures out[k + 1 + 2 * i] == "  - name: \"" + l[i].name + "\""
        ensures out[k + 2 + 2 * i] == "    desc: \"" + EscapeNewlines(l[i].content) + "\""
      {
        ContentEntryAt(r, ext, f, i);
      }
    }
  }

  /** A plain string list (damage vulnerabilities, resistances, immunities,
      condition immunities, senses, languages) prints one line keyed by the
      list exactly when the list is non-empty: its entries joined by ", ",
      title-cased for senses only, with nothing indented under it. */
  lemma {:induction false} PlainListLine(r: CreatureRecord, ext: Externals, f: Field)
    requires IsPlainListField(f)
    ensures (exists k :: 0 <= k < |Render(r, ext)| && IsKeyed(Render(r, ext)[k])
               && LineKey(Render(r, ext)[k]) == Key(f))
            <==> |PlainList(r, f)| > 0
    ensures |PlainList(r, f)| > 0 ==>
      var k := Start(r, ext, f);
      && 0 < k < |Render(r, ext)| - 1
      && Render(r, ext)[k] == Key(f) + ": "
           + (if f.Senses? then ext.titleCase(Join(PlainList(r, f))) else Join(PlainList(r, f)))
      && |Render(r, ext)[k + 1]| > 0 && Render(r, ext)[k + 1][0] != ' '
  {
    KeyedLinePresence(r, ext, f);
    if |PlainList(r, f)| > 0 {
      PlainListAt(r, ext, f);
    }
  }

  /** Where a non-empty plain list's line is printed, and what follows it. */
  lemma {:induction false} PlainListAt(r: CreatureRecord, ext: Externals, f: Field)
    requires IsPlainListField(f) && |PlainList(r, f)| > 0
    ensures Start(r, ext, f) < |Render(r, ext)| - 1
    ensures Render(r, ext)[Start(r, ext, f)] == Key(f) + ": "
      + (if f.Senses? then ext.titleCase(Join(PlainList(r, f))) else Join(PlainList(r, f)))
    ensures |Render(r, ext)[Start(r, ext, f) + 1]| > 0 && Render(r, ext)[Start(r, ext, f) + 1][0] != ' '
  {
    HeadLineAt(r, ext, f);
    PlainListText(r, ext, f);
    AfterBlock(r, ext, f);
  }
}
