/** How the printed lines are laid out: every line between the fences is
    either a field's keyed line (`key:` ...) or an indented entry line of
    the section above it, and keyed lines appear once each, in emission
    order, exactly for the fields that are present. */
module RenderStructure {
  import opened Text
  import opened Record
  import opened Layout
  import opened Seqs
  import opened Statblock

  /** A line that starts with a key rather than with indentation or a fence. */
  predicate IsKeyed(line: string)
  {
    |line| > 0 && line[0] != ' ' && line[0] != '`'
  }

  /** The text before the first colon of a line. */
  function LineKey(line: string): string
  {
    line[..IndexOf(line, ':')]
  }

  lemma HeadLineKeyed(r: CreatureRecord, ext: Externals, f: Field)
    ensures IsKeyed(HeadLine(r, ext, f))
    ensures LineKey(HeadLine(r, ext, f)) == Key(f)
  {
    KeyShape(f);
    var v := Value(r, ext, f);
    assert HeadLine(r, ext, f) == Key(f) + (":" + v);
    IndexOfAfterPrefix(Key(f), ':', ":" + v);
  }

  lemma EntryIndented(r: CreatureRecord, f: Field, j: nat)
    requires j < |Entries(r, f)|
    ensures |Entries(r, f)[j]| > 0 && Entries(r, f)[j][0] == ' '
  {
    if IsModifierField(f) {
      var l := ModifierList(r, f);
      ModifierListAt(l, j);
      assert Entries(r, f)[j] == "  - " + Casing.ToLower(l[j].name) + ": " + NatToString(l[j].modifier);
    } else if IsContentField(f) {
      var l := ContentList(r, f);
      var i := j / 2;
      if j % 2 == 0 {
        assert j == 2 * i;
        ContentListAt(l, i);
        assert Entries(r, f)[j] == "  - name: \"" + l[i].name + "\"";
      } else {
        assert j == 2 * i + 1;
        ContentListAt(l, i);
        assert Entries(r, f)[j] == "    desc: \"" + EscapeNewlines(l[i].content) + "\"";
      }
    }
  }

  /** The slot at position `j` of field `f`'s group. */
  function SlotOf(f: Field, j: nat): Slot
  {
    if j == 0 then Head(f) else Entry(f, j - 1)
  }

  lemma SlotsAt(r: CreatureRecord, ext: Externals, f: Field, j: nat)
    requires j < BlockLength(r, ext, f)
    ensures Slots(r, ext, f)[j] == SlotOf(f, j)
  {
    if j > 0 {
      EntrySlotsAt(f, EntryCount(r, f), j - 1);
    }
  }

  /** A slot of a field's group prints the keyed line first and indented
      entry lines after it, and only present fields have slots. */
  lemma SlotText(r: CreatureRecord, ext: Externals, f: Field, j: nat)
    requires j < BlockLength(r, ext, f)
    ensures Present(r, ext, f)
    ensures j == 0 ==> TextOf(r, ext, SlotOf(f, j)) == HeadLine(r, ext, f)
    ensures j == 0 ==> IsKeyed(TextOf(r, ext, SlotOf(f, j)))
    ensures j > 0 ==> TextOf(r, ext, SlotOf(f, j)) == Entries(r, f)[j - 1]
    ensures j > 0 ==> |TextOf(r, ext, SlotOf(f, j))| > 0 && TextOf(r, ext, SlotOf(f, j))[0] == ' '
  {
    if j == 0 {
      HeadLineKeyed(r, ext, f);
    } else {
      EntryIndented(r, f, j - 1);
    }
  }

  /** Position in the printed output of the first line of field `f`'s
      block: one for the opening fence, plus the lines of every field
      emitted before `f`. */
  function Start(r: CreatureRecord, ext: Externals, f: Field): (s: nat)
    ensures s >= 1
  {
    1 + Offset(Blocks(r, ext), Rank(f))
  }

  /** Every slot between the fences belongs to the group of some field. */
  lemma SlotLocate(r: CreatureRecord, ext: Externals, k: nat) returns (f: Field, j: nat)
    requires 0 < k < |Skeleton(r, ext)| - 1
    ensures j < BlockLength(r, ext, f)
    ensures k == Start(r, ext, f) + j
    ensures Skeleton(r, ext)[k] == SlotOf(f, j)
  {
    var b;
    b, j := FramedLocate(Opening, Blocks(r, ext), Closing, k);
    f := Order[b];
    RankOfOrder(b);
    BlockOfField(r, ext, f);
    SlotsAt(r, ext, f, j);
  }

  /** Field `f`'s slots sit at `Start(f)` in the skeleton, before the
      closing fence. */
  lemma SlotAt(r: CreatureRecord, ext: Externals, f: Field, j: nat)
    requires j < BlockLength(r, ext, f)
    ensures Start(r, ext, f) + BlockLength(r, ext, f) <= |Skeleton(r, ext)| - 1
    ensures Skeleton(r, ext)[Start(r, ext, f) + j] == SlotOf(f, j)
  {
    BlockOfField(r, ext, f);
    FramedAt(Opening, Blocks(r, ext), Closing, Rank(f), j);
    SlotsAt(r, ext, f, j);
  }

  /** Every line between the fences is line `j` of some field's block. */
  lemma LineAt(r: CreatureRecord, ext: Externals, k: nat) returns (f: Field, j: nat)
    requires 0 < k < |Render(r, ext)| - 1
    ensures j < BlockLength(r, ext, f)
    ensures k == Start(r, ext, f) + j
    ensures Render(r, ext)[k] == TextOf(r, ext, SlotOf(f, j))
  {
    f, j := SlotLocate(r, ext, k);
    RenderAt(r, ext, k);
  }

  /** Every field's block ends before the closing fence. */
  lemma BlockFits(r: CreatureRecord, ext: Externals, f: Field)
    ensures Start(r, ext, f) + BlockLength(r, ext, f) <= |Render(r, ext)| - 1
  {
    BlockOfField(r, ext, f);
    FlattenSlice(Blocks(r, ext), Rank(f));
  }

  /** A present field's keyed line is printed at `Start(f)`. */
  lemma {:induction false} HeadLineAt(r: CreatureRecord, ext: Externals, f: Field)
    requires Present(r, ext, f)
    ensures Start(r, ext, f) + BlockLength(r, ext, f) <= |Render(r, ext)| - 1
    ensures Render(r, ext)[Start(r, ext, f)] == HeadLine(r, ext, f)
  {
    var k := Start(r, ext, f);
    SlotAt(r, ext, f, 0);
    RenderAt(r, ext, k);
    TextOfHead(r, ext, f);
  }

  lemma TextOfHead(r: CreatureRecord, ext: Externals, f: Field)
    ensures TextOf(r, ext, Head(f)) == HeadLine(r, ext, f)
  {
  }

  lemma TextOfEntry(r: CreatureRecord, ext: Externals, f: Field, j: nat)
    requires j < |Entries(r, f)|
    ensures TextOf(r, ext, Entry(f, j)) == Entries(r, f)[j]
  {
  }

  /** Entry `j` of a present field is printed `j + 1` lines below its
      keyed line. */
  lemma {:induction false} EntryAt(r: CreatureRecord, ext: Externals, f: Field, j: nat)
    requires Present(r, ext, f) && j < |Entries(r, f)|
    ensures Start(r, ext, f) + 1 + j < |Render(r, ext)| - 1
    ensures Render(r, ext)[Start(r, ext, f) + 1 + j] == Entries(r, f)[j]
  {
    var k := Start(r, ext, f) + 1 + j;
    SlotAt(r, ext, f, 1 + j);
    RenderAt(r, ext, k);
    TextOfEntry(r, ext, f, j);
  }

  /** The line at a present field's start is keyed. */
  lemma KeyedAt(r: CreatureRecord, ext: Externals, f: Field)
    requires Present(r, ext, f)
    ensures Start(r, ext, f) < |Render(r, ext)| - 1
    ensures IsKeyed(Render(r, ext)[Start(r, ext, f)])
  {
    HeadLineAt(r, ext, f);
    HeadLineKeyed(r, ext, f);
  }

  /** The next field in emission order starts where `f`'s block ends. */
  lemma StartStep(r: CreatureRecord, ext: Externals, f: Field, g: Field)
    requires Rank(g) == Rank(f) + 1
    ensures Start(r, ext, g) == Start(r, ext, f) + BlockLength(r, ext, f)
  {
    BlockOfField(r, ext, f);
    OffsetStep(Blocks(r, ext), Rank(f));
  }

  /** Blocks of later fields start after the blocks of earlier fields end. */
  lemma StartMonotone(r: CreatureRecord, ext: Externals, f: Field, g: Field)
    requires Rank(f) < Rank(g)
    ensures Start(r, ext, f) + BlockLength(r, ext, f) <= Start(r, ext, g)
  {
    BlockOfField(r, ext, f);
    OffsetMonotone(Blocks(r, ext), Rank(f), Rank(g));
  }

  /** A present field whose block starts earlier comes earlier in the
      emission order. */
  lemma StartOrder(r: CreatureRecord, ext: Externals, f: Field, g: Field)
    requires Present(r, ext, f) && Start(r, ext, f) < Start(r, ext, g)
    ensures Rank(f) < Rank(g)
  {
    if Rank(g) < Rank(f) {
      StartMonotone(r, ext, g, f);
    } else if Rank(g) == Rank(f) {
      RankInjective(f, g);
    }
  }

  /** A keyed line is the keyed line of a present field, at that field's start. */
  lemma KeyedLineIs(r: CreatureRecord, ext: Externals, k: nat) returns (f: Field)
    requires k < |Render(r, ext)| && IsKeyed(Render(r, ext)[k])
    ensures Present(r, ext, f)
    ensures k == Start(r, ext, f)
    ensures Render(r, ext)[k] == HeadLine(r, ext, f)
    ensures LineKey(Render(r, ext)[k]) == Key(f)
  {
    RenderFences(r, ext);
    assert Open[0] == '`' && Close[0] == '`';
    var j;
    f, j := LineAt(r, ext, k);
    SlotText(r, ext, f, j);
    HeadLineKeyed(r, ext, f);
  }

  /** The field whose keyed line is at `k`, without the line's text. */
  lemma KeyedLineField(r: CreatureRecord, ext: Externals, k: nat) returns (f: Field)
    requires k < |Render(r, ext)| && IsKeyed(Render(r, ext)[k])
    ensures Present(r, ext, f)
    ensures k == Start(r, ext, f)
    ensures LineKey(Render(r, ext)[k]) == Key(f)
  {
    f := KeyedLineIs(r, ext, k);
  }

  /** A line keyed `Key(f)` is printed exactly when `f` is present. */
  lemma KeyedLinePresence(r: CreatureRecord, ext: Externals, f: Field)
    ensures (exists k :: 0 <= k < |Render(r, ext)| && IsKeyed(Render(r, ext)[k]) && LineKey(Render(r, ext)[k]) == Key(f))
            <==> Present(r, ext, f)
  {
    var out := Render(r, ext);
    if Present(r, ext, f) {
      HeadLineAt(r, ext, f);
      HeadLineKeyed(r, ext, f);
      assert IsKeyed(out[Start(r, ext, f)]) && LineKey(out[Start(r, ext, f)]) == Key(f);
    }
    if k :| 0 <= k < |out| && IsKeyed(out[k]) && LineKey(out[k]) == Key(f) {
      var g := KeyedLineField(r, ext, k);
      KeyInjective(f, g);
    }
  }

  /** Keyed lines come in strictly increasing emission order; in particular
      no key is printed twice. */
  lemma KeyOrder(r: CreatureRecord, ext: Externals, k1: nat, k2: nat, f: Field, g: Field)
    requires k1 < k2 < |Render(r, ext)|
    requires IsKeyed(Render(r, ext)[k1]) && LineKey(Render(r, ext)[k1]) == Key(f)
    requires IsKeyed(Render(r, ext)[k2]) && LineKey(Render(r, ext)[k2]) == Key(g)
    ensures Rank(f) < Rank(g)
  {
    var f' := KeyedLineField(r, ext, k1);
    var g' := KeyedLineField(r, ext, k2);
    KeyInjective(f, f');
    KeyInjective(g, g');
    StartOrder(r, ext, f, g);
  }

  /** The field whose block follows `f`'s block, when one does. */
  lemma NextField(r: CreatureRecord, ext: Externals, f: Field) returns (g: Field)
    requires Start(r, ext, f) + BlockLength(r, ext, f) < |Render(r, ext)| - 1
    ensures Present(r, ext, g)
    ensures Start(r, ext, g) == Start(r, ext, f) + BlockLength(r, ext, f)
  {
    BlockOfField(r, ext, f);
    var c := FramedNext(Opening, Blocks(r, ext), Closing, Rank(f));
    g := Order[c];
    RankOfOrder(c);
    BlockOfField(r, ext, g);
  }

  /** The line right after field `f`'s block is not indented: it is the next
      keyed line or the closing fence. */
  lemma AfterBlock(r: CreatureRecord, ext: Externals, f: Field)
    requires Present(r, ext, f)
    ensures Start(r, ext, f) + BlockLength(r, ext, f) < |Render(r, ext)|
    ensures |Render(r, ext)[Start(r, ext, f) + BlockLength(r, ext, f)]| > 0
    ensures Render(r, ext)[Start(r, ext, f) + BlockLength(r, ext, f)][0] != ' '
  {
    var n := Start(r, ext, f) + BlockLength(r, ext, f);
    BlockFits(r, ext, f);
    if n < |Render(r, ext)| - 1 {
      var g := NextField(r, ext, f);
      KeyedAt(r, ext, g);
    } else {
      RenderFences(r, ext);
    }
  }
}
