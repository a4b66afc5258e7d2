/** The already-deserialised creature record (`ImprovedInitiativeData` and
    the small records it is built from). Field names follow the JSON keys
    they are read from, renamed where a key is a Dafny keyword or not a
    plain identifier (`Type` is `typeLine`, `Int` is `intl`, `ImageURL` is
    `imageUrl`); `u64` values are naturals below 2^64. */
module Record {

  type U64 = n: nat | n < 0x1_0000_0000_0000_0000

  /** `{"Value": .., "Notes": ..}`, used for armour class and hit points. */
  datatype ValueData = ValueData(value: U64, notes: string)

  /** A saving throw or skill: `{"Name": .., "Modifier": ..}`. */
  datatype NameModifier = NameModifier(name: string, modifier: U64)

  /** A trait or action: `{"Name": .., "Content": ..}`. */
  datatype NameContent = NameContent(name: string, content: string)

  /** The six ability scores. */
  datatype Abilities = Abilities(str: U64, dex: U64, con: U64, intl: U64, wis: U64, cha: U64)

  datatype CreatureRecord = CreatureRecord(
    source: string,
    description: string,
    player: string,
    version: string,
    imageUrl: string,
    name: string,
    typeLine: string,
    ac: ValueData,
    hp: ValueData,
    speed: seq<string>,
    abilities: Abilities,
    saves: seq<NameModifier>,
    skills: seq<NameModifier>,
    damageVulnerabilities: seq<string>,
    damageResistances: seq<string>,
    damageImmunities: seq<string>,
    conditionImmunities: seq<string>,
    senses: seq<string>,
    languages: seq<string>,
    challenge: string,
    traits: seq<NameContent>,
    actions: seq<NameContent>,
    bonusActions: seq<NameContent>,
    reactions: seq<NameContent>,
    legendaryActions: seq<NameContent>,
    mythicActions: seq<NameContent>
  )
}
