/** The statblock renderer: the body of `main` after deserialisation, as a
    pure function from a creature record to the lines it prints. Each
    `println!` contributes one element of the result. */
module Statblock {
  import opened Text
  import Casing
  import TypePattern
  import opened Record
  import opened Layout
  import opened Seqs

  /** The two library calls the renderer makes whose code is not part of
      this model: the type-string regex's capture and the `titlecase` crate. */
  datatype Externals = Externals(
    matchType: string -> TypePattern.Option<TypePattern.TypeParts>,
    titleCase: string -> string
  )

  const Open: string := "```statblock"
  const Close: string := "```"

  predicate StartsWithParen(s: string)
  {
    |s| > 0 && s[0] == '('
  }

  predicate EndsWithParen(s: string)
  {
    |s| > 0 && s[|s| - 1] == ')'
  }

  /** `notes.strip_prefix("(").unwrap_or(notes).strip_suffix(")").unwrap_or(notes)`:
      when the suffix strip fails the ORIGINAL notes are returned, so a
      leading parenthesis without a closing one is kept. */
  function HitDice(notes: string): (r: string)
    ensures EndsWithParen(notes) && StartsWithParen(notes) ==> "(" + r + ")" == notes
    ensures EndsWithParen(notes) && !StartsWithParen(notes) ==> r + ")" == notes
    ensures !EndsWithParen(notes) ==> r == notes
  {
    var stripped := if StartsWithParen(notes) then notes[1..] else notes;
    if EndsWithParen(stripped) then stripped[..|stripped| - 1] else notes
  }

  /** One line per saving throw or skill, name lower-cased. */
  function RenderModifierList(l: seq<NameModifier>): (r: seq<string>)
    ensures |r| == |l|
  {
    if |l| == 0 then []
    else [ModifierLine(l[0])] + RenderModifierList(l[1..])
  }

  function ModifierLine(m: NameModifier): string
  {
    "  - " + Casing.ToLower(m.name) + ": " + NatToString(m.modifier)
  }

  /** Entry `i` of the list is printed as line `i`. */
  lemma {:induction false} ModifierListAt(l: seq<NameModifier>, i: nat)
    requires i < |l|
    ensures RenderModifierList(l)[i] == "  - " + Casing.ToLower(l[i].name) + ": " + NatToString(l[i].modifier)
  {
    if i > 0 {
      ModifierListAt(l[1..], i - 1);
    }
  }

  /** Two lines per trait or action: its quoted name, then its quoted,
      newline-escaped description. */
  function RenderContentList(l: seq<NameContent>): (r: seq<string>)
    ensures |r| == 2 * |l|
  {
    if |l| == 0 then []
    else ContentLines(l[0]) + RenderContentList(l[1..])
  }

  function ContentLines(c: NameContent): seq<string>
  {
    ["  - name: \"" + c.name + "\"", "    desc: \"" + EscapeNewlines(c.content) + "\""]
  }

  /** Entry `i` of the list is printed as lines `2i` and `2i + 1`. */
  lemma {:induction false} ContentListAt(l: seq<NameContent>, i: nat)
    requires i < |l|
    ensures RenderContentList(l)[2 * i] == "  - name: \"" + l[i].name + "\""
    ensures RenderContentList(l)[2 * i + 1] == "    desc: \"" + EscapeNewlines(l[i].content) + "\""
  {
    if i > 0 {
      ContentListAt(l[1..], i - 1);
    }
  }

  /** How the renderer treats a field. */
  datatype Kind = ScalarKind | TypeKind | ModifierKind | ContentKind | PlainKind

  function KindOf(f: Field): Kind
  {
    match f
    case Size | Type | Subtype | Alignment => TypeKind
    case Saves | SkillSaves => ModifierKind
    case Traits | Actions | LegendaryActions | Reactions | MythicActions => ContentKind
    case DamageVulnerabilities | DamageResistances | DamageImmunities | ConditionImmunities
       | Senses | Languages => PlainKind
    case _ => ScalarKind
  }

  predicate IsTypeField(f: Field) { KindOf(f) == TypeKind }
  predicate IsModifierField(f: Field) { KindOf(f) == ModifierKind }
  predicate IsContentField(f: Field) { KindOf(f) == ContentKind }
  predicate IsPlainListField(f: Field) { KindOf(f) == PlainKind }
  predicate IsScalarField(f: Field) { KindOf(f) == ScalarKind }

  function ModifierList(r: CreatureRecord, f: Field): seq<NameModifier>
    requires IsModifierField(f)
  {
    if f.Saves? then r.saves else r.skills
  }

  function ContentList(r: CreatureRecord, f: Field): seq<NameContent>
    requires IsContentField(f)
  {
    match f
    case Traits => r.traits
    case Actions => r.actions
    case LegendaryActions => r.legendaryActions
    case Reactions => r.reactions
    case MythicActions => r.mythicActions
  }

  function PlainList(r: CreatureRecord, f: Field): seq<string>
    requires IsPlainListField(f)
  {
    match f
    case DamageVulnerabilities => r.damageVulnerabilities
    case DamageResistances => r.damageResistances
    case DamageImmunities => r.damageImmunities
    case ConditionImmunities => r.conditionImmunities
    case Senses => r.senses
    case Languages => r.languages
  }

  /** The six ability scores in the order the stats line prints them:
      Str, Dex, Con, Int, Wis, Cha. */
  function Scores(a: Abilities): (s: seq<nat>)
    ensures |s| == 6
  {
    [a.str, a.dex, a.con, a.intl, a.wis, a.cha]
  }

  /** Whether the field's lines are printed: the four type lines when the
      type string matches, a list section when its list is non-empty, every
      other field always. */
  predicate Present(r: CreatureRecord, ext: Externals, f: Field)
  {
    if IsTypeField(f) then ext.matchType(r.typeLine).Some?
    else if IsModifierField(f) then |ModifierList(r, f)| > 0
    else if IsContentField(f) then |ContentList(r, f)| > 0
    else if IsPlainListField(f) then |PlainList(r, f)| > 0
    else true
  }

  /** Title-cased capture group of the type string (empty when it does not match). */
  function TypeGroup(r: CreatureRecord, ext: Externals, f: Field): string
    requires IsTypeField(f)
  {
    match ext.matchType(r.typeLine)
    case None => ""
    case Some(p) =>
      ext.titleCase(if f.Size? then p.size
                    else if f.Type? then p.kind
                    else if f.Subtype? then p.subtype
                    else p.alignment)
  }

  /** What follows the colon on the line of a field printed whatever the
      record holds. */
  function ScalarValue(r: CreatureRecord, f: Field): string
  {
    match f
    case Name => " " + r.name
    case Columns => " 2"
    case Ac => " " + NatToString(r.ac.value)
    case Hp => " " + NatToString(r.hp.value)
    case HitDice => " " + HitDice(r.hp.notes)
    case Speed => " " + (if |r.speed| > 0 then r.speed[0] else "")
    case Stats => " [" + Join(Numerals(Scores(r.abilities))) + "]"
    case Cr => " \"" + r.challenge + "\""
    case _ => ""
  }

  /** What follows the colon on a plain list's line: the entries joined,
      title-cased for senses only. */
  function PlainValue(r: CreatureRecord, ext: Externals, f: Field): string
    requires IsPlainListField(f)
  {
    if f.Senses? then " " + ext.titleCase(Join(r.senses)) else " " + Join(PlainList(r, f))
  }

  /** What follows the colon on the field's keyed line; nothing for a list
      section's header. */
  function Value(r: CreatureRecord, ext: Externals, f: Field): string
  {
    if IsTypeField(f) then " " + TypeGroup(r, ext, f)
    else if IsModifierField(f) || IsContentField(f) then ""
    else if IsPlainListField(f) then PlainValue(r, ext, f)
    else ScalarValue(r, f)
  }

  /** The field's keyed line: `key:` followed by its value. */
  function HeadLine(r: CreatureRecord, ext: Externals, f: Field): string
  {
    Key(f) + ":" + Value(r, ext, f)
  }

  /** How many entry lines the field prints under its keyed line. */
  function EntryCount(r: CreatureRecord, f: Field): nat
  {
    if IsModifierField(f) then |ModifierList(r, f)|
    else if IsContentField(f) then 2 * |ContentList(r, f)|
    else 0
  }

  /** The indented lines printed under a list section's header. */
  function Entries(r: CreatureRecord, f: Field): (es: seq<string>)
    ensures |es| == EntryCount(r, f)
  {
    if IsModifierField(f) then RenderModifierList(ModifierList(r, f))
    else if IsContentField(f) then RenderContentList(ContentList(r, f))
    else []
  }

  /** How many lines the field prints. */
  function BlockLength(r: CreatureRecord, ext: Externals, f: Field): nat
  {
    if Present(r, ext, f) then 1 + EntryCount(r, f) else 0
  }

  // ---------------------------------------------------------------------
  // The output, one `println!` per slot.

  /** What a printed line is: a fence, a field's keyed line, or entry line
      `index` under a field's keyed line. */
  datatype Slot = Opening | Closing | Head(field: Field) | Entry(field: Field, index: nat)

  /** Entry slots `0 .. n - 1` of field `f`. */
  function EntrySlots(f: Field, n: nat): (s: seq<Slot>)
    ensures |s| == n
  {
    if n == 0 then [] else EntrySlots(f, n - 1) + [Entry(f, n - 1)]
  }

  lemma {:induction false} EntrySlotsAt(f: Field, n: nat, j: nat)
    requires j < n
    ensures EntrySlots(f, n)[j] == Entry(f, j)
  {
    if j < n - 1 {
      EntrySlotsAt(f, n - 1, j);
    }
  }

  /** The slots of one field: its keyed line and its entries when it is
      present, nothing otherwise. */
  function Slots(r: CreatureRecord, ext: Externals, f: Field): (s: seq<Slot>)
    ensures |s| == BlockLength(r, ext, f)
  {
    if Present(r, ext, f) then [Head(f)] + EntrySlots(f, EntryCount(r, f)) else []
  }

  /** The slots of the given fields, in the given order. */
  function SlotsOf(r: CreatureRecord, ext: Externals, fs: seq<Field>): (bs: seq<seq<Slot>>)
    ensures |bs| == |fs|
  {
    if |fs| == 0 then [] else [Slots(r, ext, fs[0])] + SlotsOf(r, ext, fs[1..])
  }

  lemma {:induction false} SlotsOfAt(r: CreatureRecord, ext: Externals, fs: seq<Field>, i: nat)
    requires i < |fs|
    ensures SlotsOf(r, ext, fs)[i] == Slots(r, ext, fs[i])
  {
    if i > 0 {
      SlotsOfAt(r, ext, fs[1..], i - 1);
    }
  }

  /** One group of slots per field, in emission order. */
  function Blocks(r: CreatureRecord, ext: Externals): (bs: seq<seq<Slot>>)
    ensures |bs| == |Order|
  {
    SlotsOf(r, ext, Order)
  }

  /** Field `f`'s slots are the group at its rank. */
  lemma BlockOfField(r: CreatureRecord, ext: Externals, f: Field)
    ensures Blocks(r, ext)[Rank(f)] == Slots(r, ext, f)
  {
    OrderAtRank(f);
    SlotsOfAt(r, ext, Order, Rank(f));
  }

  /** Every slot of the output: the opening fence, every field's slots in
      emission order, and the closing fence. */
  function Skeleton(r: CreatureRecord, ext: Externals): (s: seq<Slot>)
    ensures |s| >= 2 && s[0] == Opening && s[|s| - 1] == Closing
  {
    Framed(Opening, Blocks(r, ext), Closing)
  }

  /** The text printed for a slot. An entry slot beyond the field's entries
      never occurs in a skeleton and prints nothing. */
  function TextOf(r: CreatureRecord, ext: Externals, s: Slot): string
  {
    match s
    case Opening => Open
    case Closing => Close
    case Head(f) => HeadLine(r, ext, f)
    case Entry(f, j) => if j < |Entries(r, f)| then Entries(r, f)[j] else ""
  }

  /** The texts of the given slots, in order. */
  function Texts(r: CreatureRecord, ext: Externals, ss: seq<Slot>): (out: seq<string>)
    ensures |out| == |ss|
  {
    if |ss| == 0 then [] else [TextOf(r, ext, ss[0])] + Texts(r, ext, ss[1..])
  }

  lemma {:induction false} TextsAt(r: CreatureRecord, ext: Externals, ss: seq<Slot>, k: nat)
    requires k < |ss|
    ensures Texts(r, ext, ss)[k] == TextOf(r, ext, ss[k])
  {
    if k > 0 {
      TextsAt(r, ext, ss[1..], k - 1);
    }
  }

  /** The printed statblock, one element per `println!`: the opening fence,
      every field's keyed line and entries in emission order, and the
      closing fence. Rendering never fails. */
  function Render(r: CreatureRecord, ext: Externals): (out: seq<string>)
    ensures |out| == |Skeleton(r, ext)|
  {
    Texts(r, ext, Skeleton(r, ext))
  }

  /** Line `k` of the output is the text of slot `k`. */
  lemma RenderAt(r: CreatureRecord, ext: Externals, k: nat)
    requires k < |Render(r, ext)|
    ensures Render(r, ext)[k] == TextOf(r, ext, Skeleton(r, ext)[k])
  {
    TextsAt(r, ext, Skeleton(r, ext), k);
  }

  /** The output opens and closes with the fences. */
  lemma RenderFences(r: CreatureRecord, ext: Externals)
    ensures |Render(r, ext)| >= 2
    ensures Render(r, ext)[0] == Open
    ensures Render(r, ext)[|Render(r, ext)| - 1] == Close
  {
    RenderAt(r, ext, 0);
    RenderAt(r, ext, |Render(r, ext)| - 1);
  }
}
