# Improved Initiative to Obsidian statblock — a Dafny model of the renderer

The tool reads one creature exported by Improved Initiative (a JSON file) and
prints it as an Obsidian `statblock` fenced block. This project models the part
of `src/main.rs` that runs after the JSON has been deserialised. That part
turns an `ImprovedInitiativeData` record into the lines its `println!` calls
write.

- `Record` mirrors the structs. `u64` fields are naturals below 2^64.
- `Statblock.Render(r, ext)` is the renderer as a total, pure function. It
  returns one string per `println!`, in order, and it never fails.
- The two calls into crates whose code is not part of this model are
  parameters, gathered in `Externals`:
  - `matchType` is the capture of the type-string regex;
  - `titleCase` is `titlecase::titlecase`.
- Inside the model, every output line comes from a *slot*: the opening fence,
  a field's keyed line, entry `j` under a field, or the closing fence.
  - `Skeleton` lists the slots, one block per field in emission order
    (`Layout.Order`). `Start(f)` is where field `f`'s block begins.
  - `Render` prints the text of each slot.
  - The order, presence and uniqueness lemmas are proved on the string-free
    skeleton and then carried over to the text.

Supporting modules:

- `Text`: decimal printing of naturals, `join(", ")`, the newline escape and
  the line-oriented `Print`/`ReadLines` pair.
- `Casing`: ASCII lower-casing.
- `TypePattern`: an ASCII model of the type pattern. It is proved sound and
  complete against the strings the pattern spells.
- `Seqs`: flattening of blocks.
- `Layout`: the field order and the printed keys.

On the hit-dice line, `strip_prefix("(").unwrap_or(notes).strip_suffix(")").unwrap_or(notes)`
falls back to the *original* notes whenever the closing parenthesis is
missing, so `"(2d6"` prints as `(2d6`. Stripping each side on its own would
print `2d6`. `HitDiceNotes.IndependentStrip` states that reading, and
`HitDiceNotes.HitDiceVsIndependentStrip` says exactly when the code differs
from it.

Whether title-casing is idempotent depends on the `titlecase` crate, which
the model keeps abstract.

## Model

| member | source | states |
|---|---|---|
| Statblock.Render | src/main.rs:131-234 | The statblock is a total function of the record and the two library calls: one line per slot of the skeleton, opening fence first, closing fence last |
| Statblock.RenderFences | src/main.rs:131-234 | The output has at least two lines, the first is "```statblock" and the last is "```" |
| RenderProperties.Frame | src/main.rs:131-234 | Line 0 is "```statblock", line 1 is `name: <name>`, the last line is "```", and no `println!` argument between them equals either fence, whatever text the record holds. `Output.PrintedOutput` gives the same for physical output lines when the text holds no newline |
| RenderProperties.NameFirst | src/main.rs:131-132 | The name line is the first line after the opening fence and is a single line |
| Statblock.HitDice | src/main.rs:143-151 | If the notes end with `)`: the result is the notes without that `)` and without a leading `(` when there is one. Otherwise the result is the notes unchanged |
| HitDiceNotes.IndependentStrip | src/main.rs:145-150 | The alternative reading that strips `(` and `)` each on its own; it never lengthens the notes, and on `(` without `)` it drops only the `(` |
| HitDiceNotes.HitDiceVsIndependentStrip | src/main.rs:145-150 | The code's strip equals independent stripping exactly when the notes do not start with `(` while lacking a closing `)` |
| HitDiceNotes.HitDiceExamples | src/main.rs:143-151 | "(8d10+24)" gives 8d10+24, "10" stays 10, "(2d6)" gives 2d6, and "(2d6" stays "(2d6" where independent stripping would give 2d6 |
| LineTexts.HitDiceText | src/main.rs:143-151 | The hit_dice line is `hit_dice: ` followed by the stripped notes |
| LineTexts.SpeedText | src/main.rs:152 | The speed line carries the first speed entry, or nothing after `speed: ` when the list is empty |
| LineTexts.NameText | src/main.rs:132 | The name line is `name: ` followed by the name |
| LineTexts.ColumnsText | src/main.rs:140 | The columns line is always `columns: 2` |
| LineTexts.AcText | src/main.rs:141 | The ac line prints the armour-class value in decimal; the notes are not printed |
| LineTexts.HpText | src/main.rs:142 | The hp line prints the hit-point value in decimal |
| LineTexts.StatsText | src/main.rs:153-161 | The stats line prints the six scores in the order Str, Dex, Con, Int, Wis, Cha, comma-separated inside brackets |
| LineTexts.StatsReadBack | src/main.rs:153-161 | Splitting the stats list at its separators gives six all-digit numerals that parse back to the six scores, in order |
| LineTexts.CrText | src/main.rs:198 | The cr line quotes the challenge rating |
| LineTexts.TypeTexts | src/main.rs:133-139 | On a match, the size, type, subtype and alignment lines carry the title-cased first, second, third and fourth capture |
| LineTexts.SectionHeaderText | src/main.rs:162-233 | A saves, skills or content section's header is its key followed by a colon and nothing else |
| LineTexts.PlainListText | src/main.rs:174-197 | A plain list's line is its key, then the entries joined with ", ", title-cased for senses only |
| RenderProperties.TypeBlockLength | src/main.rs:133-139 | Each of the four type lines is printed once when the type string matches and not at all otherwise |
| RenderProperties.TypeStartsMatched | src/main.rs:133-140 | On a match, size, type, subtype and alignment occupy lines 2 to 5, and columns follows at line 6 |
| RenderProperties.TypeStartsUnmatched | src/main.rs:133-140 | Without a match, columns directly follows the name line |
| RenderProperties.TypeLinesMatched | src/main.rs:133-140 | On a match, lines 2 to 5 are the four title-cased type lines in order, and line 6 is `columns: 2` |
| RenderProperties.TypeLinesUnmatched | src/main.rs:133-140 | Without a match, line 2 is `columns: 2`, no keyed line anywhere carries a type key, and rendering still completes |
| RenderProperties.TypeKey | src/main.rs:134-139 | The keys size, type, subtype and alignment belong exactly to the four type fields |
| RenderProperties.ScalarFields | src/main.rs:140-198 | The fields printed whatever the record holds are exactly name, columns, ac, hp, hit_dice, speed, stats and cr |
| RenderProperties.ScalarAt | src/main.rs:140-198 | Every such field's line is printed, strictly between the fences |
| RenderProperties.ScalarLines | src/main.rs:140-198 | Any two of those lines appear in emission order, each with its own text |
| RenderStructure.HeadLineKeyed | src/main.rs:131-234 | Every keyed line starts with a lower-case key, and reading the key back up to the first colon gives the field's key |
| RenderStructure.EntryIndented | src/main.rs:162-233 | Every entry line under a section header starts with a space |
| RenderStructure.KeyedLineIs | src/main.rs:131-234 | Every non-indented line other than a fence is the keyed line of a present field, printed at that field's start |
| RenderStructure.KeyedLinePresence | src/main.rs:131-234 | A line with a field's key exists if and only if the field is present |
| RenderStructure.KeyOrder | src/main.rs:131-234 | Keyed lines appear in emission order: an earlier line has a field of lower rank |
| RenderStructure.AfterBlock | src/main.rs:131-234 | The line right after a present field's block is not indented: a section's entries end where the next keyed line or the closing fence begins |
| Layout.KeyInjective | src/main.rs:131-234 | No two fields print the same key |
| Sections.HeaderPresence | src/main.rs:162-233 | The `saves:`, `skillsaves:`, `traits:`, `actions:`, `legendary_actions:`, `reactions:` and `mythic_actions:` headers appear if and only if their list is non-empty |
| Sections.ModifierSection | src/main.rs:162-173 | The saves or skills header appears iff the list is non-empty. Then each entry gives exactly one line, in order, with its name lower-cased and its modifier in decimal, and the section ends there |
| Sections.ModifierEntryAt | src/main.rs:164-166 | Entry i of saves or skills is line Start+1+i, printed as `  - <lower-cased name>: <modifier>` |
| Sections.ContentSection | src/main.rs:199-233 | A content section's header appears iff its list is non-empty. Then each entry gives exactly two lines, its quoted name then its quoted, newline-escaped description, and the section ends there |
| Sections.ContentEntryAt | src/main.rs:201-204 | Entry i of a content list prints as lines Start+1+2i (name) and Start+2+2i (escaped description) |
| Sections.ContentNameAt | src/main.rs:202 | Entry i's name line is `  - name: "<name>"` at line Start+1+2i |
| Sections.ContentDescAt | src/main.rs:203 | Entry i's description line is `    desc: "<escaped content>"` at line Start+2+2i |
| Sections.PlainListLine | src/main.rs:174-197 | A damage, condition, senses or languages line appears iff its list is non-empty; it is a single line with the entries joined by ", ", title-cased for senses only |
| Sections.PlainListAt | src/main.rs:174-197 | A non-empty plain list prints that one line at its start, and the next line is not indented |
| Statblock.RenderModifierList | src/main.rs:164-166 | A saves or skills list prints one line per entry |
| Statblock.ModifierListAt | src/main.rs:165 | Line i of a saves or skills list is entry i with its name lower-cased and its modifier in decimal |
| Statblock.RenderContentList | src/main.rs:201-204 | A content list prints two lines per entry |
| Statblock.ContentListAt | src/main.rs:202-203 | Lines 2i and 2i+1 of a content list are entry i's quoted name and quoted escaped description |
| Text.EscapeNewlinesShape | src/main.rs:203 | The escaped description contains no newline, and its length is the original length plus the number of newlines |
| Text.EscapeNewlinesIdentity | src/main.rs:210 | A description without newlines is printed unchanged |
| Text.UnescapeEscape | src/main.rs:217 | Turning every two-character `\n` back into a newline restores a description that contains no backslash |
| Text.EscapeNotInjective | src/main.rs:224 | A literal backslash-n and a real newline print the same, so escaping cannot be undone in general |
| Text.CountNewlinesZero | src/main.rs:231 | A string has no newline exactly when its newline count is zero |
| Text.Join | src/main.rs:177 | Joining with ", " is empty for an empty list; otherwise its length is the entries' lengths plus two per separator, and it starts with the first entry |
| Text.SplitJoin | src/main.rs:181 | Splitting a join at its ", " separators gives the entries back when no entry contains a comma |
| Text.JoinNewlineFree | src/main.rs:184 | Joining newline-free entries gives a newline-free line |
| Text.NatToString | src/main.rs:141 | A `u64` prints as a non-empty run of decimal digits with no leading zero |
| Text.ParseNatToString | src/main.rs:142 | Reading the printed digits back gives the number |
| Text.NatToStringInjective | src/main.rs:165 | Different numbers print differently |
| Text.ReadPrintedLines | src/main.rs:131-234 | Writing newline-free lines with a newline after each and reading the text back line by line gives the same lines |
| Casing.ToLower | src/main.rs:171 | Lower-casing keeps the length and lower-cases each character on its own |
| Casing.ToLowerIdempotent | src/main.rs:165 | Lower-casing twice is lower-casing once |
| TypePattern.MatchIff | src/main.rs:133 | The pattern matches exactly the strings spelled `<word> <word> (<words>), <words>` |
| TypePattern.MatchComplete | src/main.rs:133 | Every such string is matched, and its four groups are captured back |
| TypePattern.MatchSound | src/main.rs:133 | What is captured is well formed and spells the input back |
| TypePattern.MatchHasParen | src/main.rs:133 | A matched type string contains `(`, so "unusual creature" never matches |
| TypePattern.MatchNewlineFree | src/main.rs:133 | No captured group holds a newline |
| Output.RenderReadsPrinted | src/main.rs:131-234 | Two records that agree on every printed field render identically |
| Output.UnprintedFields | src/main.rs:56-109 | Source, Description, Player, Version, ImageURL and BonusActions never influence the output |
| Output.UnprintedDetails | src/main.rs:141-152 | For every record, the armour-class notes never influence the output, and when there is a speed entry, the entries after the first do not either |
| Output.PrintedOutput | src/main.rs:131-234 | When the record's printed text and the library calls introduce no newline, every line is one physical line, and reading standard output back line by line gives exactly the rendered lines |
| BareRecords.BareRender | src/main.rs:131-234 | A record whose lists are all empty and whose type string does not match prints exactly ten lines: the fences around name, columns, ac, hp, hit_dice, speed, stats and cr |
| BareRecords.BareLength | src/main.rs:162-233 | Such a record prints ten lines: no empty section contributes any |

## Left out

- Argument parsing, logger setup and reading the input file
  (src/main.rs:7-13, 111-127): process and file plumbing.
- JSON deserialisation and its error paths (src/main.rs:128-129). The record
  is taken as already parsed.
- The `regex` and `titlecase` crates: their code is not part of this model,
  so `Render` takes them as the function parameters in `Externals`.
  - `TypePattern.Match` models the pattern with ASCII word characters. The
    real `\w` is Unicode-aware.
  - Title-casing is not modelled at all: no lemma about `Render` depends on
    what `ext.titleCase` does, beyond adding no newline in `Output.PrintedOutput`.
  - `Regex::new(...).unwrap()` cannot fail on the constant pattern and is not
    modelled.
- `to_lowercase` is modelled on ASCII letters only (`Casing.ToLower`); Unicode
  case mappings are not modelled.
- Writing to standard output is modelled as the sequence of printed lines.
  `Text.Print` joins them with a newline after each. Buffering and I/O errors
  are not modelled.
- Statblock.RenderModifierList: its own contract gives only the line count.
  The text of each line is stated by Statblock.ModifierListAt.
- Statblock.RenderContentList: its own contract gives only the line count.
  The text of each line is stated by Statblock.ContentListAt.
- A goblin given as literal strings is not written out line by line. The
  general BareRecords.BareRender covers it together with the per-line lemmas
  LineTexts.NameText to LineTexts.CrText.
