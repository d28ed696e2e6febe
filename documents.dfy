/**
 * The documents of an Adventure, both as the source rule set stores them and
 * as the converters leave them. Only the fields the converters read or write
 * are modelled. A field the source code dereferences unconditionally is a
 * plain field here; a field it reaches only through optional chaining is an
 * `Option` or a `JsString`; a field it dereferences only on one branch is an
 * `Option` whose absence is the `Failure` that branch throws.
 */
module Documents {
  import opened Wrappers
  import opened JsValues
  import opened Values
  import opened Rewrites

  /** A document id: one read from the store, or a fresh one from `generateId` (its value is not modelled). */
  datatype DocId = Stored(id: string) | Generated

  /** The error a conversion throws: a field one branch dereferences is missing. */
  datatype Failure =
    | MissingProperties(item: string)  // a weapon without `system.properties`
    | MissingArmor(item: string)       // an armor item without `system.armor`
    | MissingAbility(ability: string)  // an actor without the ability a die is computed from

  /** An active effect: its `disabled` switch and the fields a conversion copies unchanged. */
  datatype Effect = Effect(disabled: bool, data: map<string, Json>)

  /** A token placed on a scene, or an actor's prototype token. */
  datatype Token = Token(
    actorData: Json,
    textureSrc: JsString,   // texture.src
    bar1: JsString,         // bar1.attribute
    bar2: JsString,         // bar2.attribute
    sightRange: real,       // sight.range
    lightBright: real,      // light.bright
    lightDim: real,         // light.dim
    flags: Flags)

  // ---------------------------------------------------------------------------
  // Items

  datatype Description = Description(value: JsString, unidentified: JsString)

  datatype DamagePart = DamagePart(formula: JsString, damageType: JsString)

  datatype Damage = Damage(parts: Option<seq<DamagePart>>)

  datatype ArmorData = ArmorData(armorType: JsString)

  /** The `system` block of a source item. */
  datatype SourceItemData = SourceItemData(
    description: Option<Description>,
    armor: Option<ArmorData>,
    actionType: JsString,
    properties: Option<map<string, bool>>,
    damage: Option<Damage>,
    rangeValue: Option<real>,        // range?.value; None when missing or null
    ability: JsString,
    proficient: Json,                // JNull when missing
    weight: Option<Json>,
    price: Option<Json>,
    quantity: Option<Json>,
    source: Option<Json>,
    rarity: JsString,
    baseItem: JsString)

  /** An extra action of a target weapon; `rof` and `shotsUsed` are always null. */
  datatype ExtraAction = ExtraAction(key: DocId, name: string, skillMod: string, skillOverride: string, actionType: string)

  datatype WeaponStats = WeaponStats(
    skill: string,
    additional: seq<ExtraAction>,
    ap: string,
    currentShots: string,
    shots: string,
    damage: string,
    equipStatus: int,
    minStr: string,
    notes: string,
    parry: int,
    range: string,
    rof: string,
    isHeavyWeapon: bool,
    autoReload: bool)

  datatype Locations = Locations(head: bool, torso: bool, arms: bool, legs: bool)

  datatype ArmorStats = ArmorStats(
    armor: int,
    isHeavyArmor: bool,
    isNaturalArmor: bool,
    locations: Locations,
    minStr: string,
    notes: string,
    toughness: string,
    equipStatus: int)

  /** The `system` block of a converted item; the weapon and armor blocks are spread into it when present. */
  datatype TargetItemData = TargetItemData(
    description: string,
    isArcaneBackground: bool,
    weight: Option<Json>,
    price: Option<Json>,
    quantity: Option<Json>,
    source: Option<Json>,
    category: string,
    isAmmo: bool,
    equippable: bool,
    weapon: Option<WeaponStats>,
    armor: Option<ArmorStats>)

  datatype ItemSystem =
    | SourceItem(src: SourceItemData)
    | TargetItem(tgt: TargetItemData)
    | SkillItem(attribute: Option<string>, die: Die, isCoreSkill: bool)
    | SpecialAbility(subtype: string)

  /** An item; `itemType` is `None` once an unknown source type has been mapped to `undefined`. */
  datatype Item = Item(
    id: DocId,
    name: string,
    img: JsString,
    itemType: Option<string>,
    system: ItemSystem,
    flags: Flags,
    effects: seq<Effect>)

  // ---------------------------------------------------------------------------
  // Actors

  datatype Ability = Ability(value: real)

  datatype Skill = Skill(ability: string, value: Option<real>, prof: Option<real>)

  datatype Senses = Senses(darkvision: real, blindsight: real)

  datatype SourceAttributes = SourceAttributes(
    spellcasting: JsString,
    senses: Senses,
    walk: Option<real>,             // movement?.walk
    prof: Option<real>)

  datatype CreatureType = CreatureType(value: JsString, subtype: JsString, swarm: JsString, custom: JsString)

  datatype SourceDetails = SourceDetails(
    spellLevel: Option<real>,
    creatureType: CreatureType,
    alignment: JsString,
    cr: Option<real>,
    biography: JsString,            // biography?.value
    background: JsString,
    personalityTrait: JsString,     // details.trait
    ideal: JsString,
    bond: JsString,
    flaw: JsString,
    appearance: JsString,
    race: JsString)

  datatype Languages = Languages(value: Option<seq<string>>, custom: JsString)

  datatype SourceTraits = SourceTraits(languages: Option<Languages>, size: JsString)

  /** The `system` block of a source actor. */
  datatype SourceActorData = SourceActorData(
    abilities: map<string, Ability>,
    skills: map<string, Skill>,
    attributes: SourceAttributes,
    details: SourceDetails,
    traits: SourceTraits,
    descriptionValue: JsString)     // description?.value

  datatype TargetDetails = TargetDetails(notes: string, appearance: string, biography: string, archetype: string, species: string)

  datatype TargetAttributes = TargetAttributes(agility: Die, smarts: Die, spirit: Die, strength: Die, vigor: Die)

  datatype Speed = Speed(runningDie: int, runningMod: int, value: int, adjusted: int)

  /** Size, scale, the size label (`caption`, present only for a listed size) and speed. */
  datatype Stats = Stats(size: int, scale: int, caption: Option<string>, speed: Speed)

  /** The `system` block of a converted actor. */
  datatype TargetActorData = TargetActorData(
    additionalStats: map<string, AdditionalStat>,
    details: TargetDetails,
    attributes: TargetAttributes,
    stats: Stats,
    wildcard: bool)

  datatype ActorSystem = SourceActor(src: SourceActorData) | TargetActor(tgt: TargetActorData)

  datatype Actor = Actor(
    id: string,
    name: string,
    img: JsString,
    actorType: string,
    system: ActorSystem,
    prototypeToken: Token,
    items: seq<Item>,
    flags: Flags,
    effects: seq<Effect>)

  // ---------------------------------------------------------------------------
  // Scenes, journals, tables, macros, playlists

  /** A tile or a map note: an image and flags. */
  datatype Placeable = Placeable(textureSrc: JsString, flags: Flags)

  datatype Grid = Grid(gridType: int, distance: real, units: string)

  datatype Light = Light(bright: real, dim: real)     // config.bright, config.dim

  datatype AmbientSound = AmbientSound(radius: real)

  datatype Scene = Scene(
    id: string,
    name: string,
    background: string,              // background.src
    foreground: JsString,
    thumb: JsString,
    tokens: seq<Token>,
    notes: seq<Placeable>,
    tiles: seq<Placeable>,
    grid: Grid,
    lights: seq<Light>,
    sounds: seq<AmbientSound>,
    flags: Flags)

  datatype PageText = PageText(content: JsString)

  datatype Page = Page(id: string, name: string, pageType: string, text: Option<PageText>, flags: Flags)

  datatype Journal = Journal(id: string, name: string, pages: seq<Page>, flags: Flags)

  datatype TableResult = TableResult(img: string, text: string, flags: Flags)

  datatype RollTable = RollTable(id: string, name: string, img: JsString, results: seq<TableResult>, flags: Flags)

  datatype Macro = Macro(id: string, name: string, img: JsString, macroType: string, command: JsString, flags: Flags)

  datatype Track = Track(path: string, flags: Flags)

  datatype Playlist = Playlist(id: string, name: string, sounds: seq<Track>, flags: Flags)

  /** The aggregate record: one Adventure document with all its collections. */
  datatype Adventure = Adventure(
    id: string,
    name: string,
    img: string,
    actors: seq<Actor>,
    items: seq<Item>,
    journal: seq<Journal>,
    scenes: seq<Scene>,
    tables: seq<RollTable>,
    macros: seq<Macro>,
    playlists: seq<Playlist>,
    flags: Flags)

  // ---------------------------------------------------------------------------
  // Source-schema documents

  predicate IsSourceItem(item: Item) {
    item.system.SourceItem?
  }

  predicate AllSourceItems(items: seq<Item>) {
    forall i :: 0 <= i < |items| ==> IsSourceItem(items[i])
  }

  predicate IsSourceActor(actor: Actor) {
    actor.system.SourceActor? && AllSourceItems(actor.items)
  }

  /** An Adventure as the source rule set stores it: every actor and item block is a source block. */
  predicate IsSourceAdventure(adv: Adventure) {
    AllSourceItems(adv.items) && forall i :: 0 <= i < |adv.actors| ==> IsSourceActor(adv.actors[i])
  }

  /** Every effect is switched off and otherwise unchanged, in the same order. */
  predicate EffectsDisabled(before: seq<Effect>, after: seq<Effect>) {
    |after| == |before| && forall i :: 0 <= i < |before| ==> after[i] == before[i].(disabled := true)
  }

  /** No truthy flag bundle is left under the source module name. */
  predicate FlagsMigrated(flags: Flags, src: string) {
    !CarriesBundle(flags, src)
  }
}
