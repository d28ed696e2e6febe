/**
 * convertItem: a source item becomes an item of the target rule set. The
 * type goes through the item-type table, the weapon and armor blocks are
 * rebuilt from the source fields, text is rewritten, flags move to the
 * target module and every effect is switched off.
 */
module ItemConversion {
  import opened Wrappers
  import opened JsValues
  import opened Strings
  import opened Tables
  import opened Values
  import opened Rewrites
  import opened Documents

  // ---------------------------------------------------------------------------
  // getItemType

  /** Equipment whose armor type is `trinket`. */
  predicate IsTrinket(itemType: Option<string>, src: SourceItemData) {
    itemType == Some("equipment") && src.armor.Some? && src.armor.value.armorType == Str("trinket")
  }

  /** getItemType: trinkets become gear; any other type is looked up, and an unlisted one becomes undefined. */
  function GetItemType(itemType: Option<string>, src: SourceItemData): (r: Option<string>)
    ensures IsTrinket(itemType, src) ==> r == Some("gear")
    ensures !IsTrinket(itemType, src) ==> (r.Some? <==> itemType.Some? && itemType.value in ItemTypes)
    ensures !IsTrinket(itemType, src) && r.Some? ==> r.value == ItemTypes[itemType.value]
    ensures r.Some? ==> r.value in TargetItemTypes
  {
    if IsTrinket(itemType, src) then Some("gear")
    else if itemType.None? then None
    else LookupItemType(itemType.value)
  }

  /** Every listed source type has a target type; spells become powers, features edges. */
  lemma GetItemTypeCoversTable(src: SourceItemData)
    ensures forall t :: t in ItemTypes ==> GetItemType(Some(t), src).Some?
    ensures GetItemType(Some("spell"), src) == Some("power")
    ensures GetItemType(Some("feat"), src) == Some("edge")
    ensures GetItemType(Some("loot"), src) == Some("gear")
  {
  }

  // ---------------------------------------------------------------------------
  // convertEffect

  /** convertEffect: the same effect, switched off. */
  function ConvertEffect(e: Effect): (r: Effect)
    ensures r.disabled && r.data == e.data
  {
    e.(disabled := true)
  }

  function ConvertEffects(effects: seq<Effect>): (r: seq<Effect>)
    ensures EffectsDisabled(effects, r)
  {
    if effects == [] then []
    else [ConvertEffect(effects[0])] + ConvertEffects(effects[1..])
  }

  // ---------------------------------------------------------------------------
  // The weapon block

  /** `properties?.[key] ?? false`, for a block that may have no properties at all. */
  predicate OptProp(props: Option<map<string, bool>>, key: string) {
    props.Some? && Prop(props.value, key)
  }

  /** `damage?.parts?.[0]?.[0]`: the first damage formula. */
  function FirstFormula(src: SourceItemData): JsString {
    if src.damage.None? || src.damage.value.parts.None? || |src.damage.value.parts.value| == 0 then Undefined
    else src.damage.value.parts.value[0].formula
  }

  /** The attack skill of a weapon: melee attacks use Fighting, ranged ones Shooting, anything else Athletics. */
  function WeaponSkill(actionType: JsString): (skill: string)
    ensures skill == "Fighting" <==> actionType == Str("mwak")
    ensures skill == "Shooting" <==> actionType == Str("rwak")
    ensures skill == "Fighting" || skill == "Shooting" || skill == "Athletics"
  {
    if actionType == Str("mwak") then "Fighting"
    else if actionType == Str("rwak") then "Shooting"
    else "Athletics"
  }

  /** The extra action of a thrown melee weapon. */
  const ThrowAction: ExtraAction := ExtraAction(Generated, "Throw", "", "Athletics", "skill")

  /**
   * The weapon block. A weapon whose source block has no `properties` cannot
   * be converted: the source dereferences them unconditionally on this branch.
   */
  function WeaponStatsOf(name: string, src: SourceItemData): (r: Result<WeaponStats, Failure>)
    ensures r.Err? <==> src.properties.None?
    ensures r.Err? ==> r.error == MissingProperties(name)
  {
    if src.properties.None? then Err(MissingProperties(name))
    else
      var props := src.properties.value;
      var formula := FirstFormula(src);
      Ok(WeaponStats(
        skill := WeaponSkill(src.actionType),
        additional := if src.actionType == Str("mwak") && Prop(props, "thr") then [ThrowAction] else [],
        ap := if Prop(props, "mgc") then "1" else "0",
        currentShots := "0",
        shots := "0",
        damage := if formula.Str? then ReplaceFirst(formula.value, "@mod", "@str") else "",
        equipStatus := 4,
        minStr := if formula.Str? then LeadingDie(formula.value).GetOr("d4") else "d4",
        notes := CreateNotes(props),
        parry := 0,
        range := if src.rangeValue.Some? && src.rangeValue.value != 0.0 then GetRange(src.rangeValue.value) else "",
        rof := "0",
        isHeavyWeapon := Prop(props, "hvy"),
        autoReload := !Prop(props, "lod") && !Prop(props, "rel")))
  }

  /** The weapon block's fields, read off the source properties, action type, damage and range. */
  lemma WeaponStatsContent(name: string, src: SourceItemData)
    requires src.properties.Some?
    ensures var w := WeaponStatsOf(name, src).value; var props := src.properties.value;
      && w.skill == WeaponSkill(src.actionType)
      && (w.additional == [ThrowAction] <==> src.actionType == Str("mwak") && Prop(props, "thr"))
      && (w.additional == [] <==> !(src.actionType == Str("mwak") && Prop(props, "thr")))
      && (w.ap == "1" <==> Prop(props, "mgc"))
      && (w.ap == "0" <==> !Prop(props, "mgc"))
      && w.notes == CreateNotes(props)
      && (FirstFormula(src).Str? ==> w.damage == ReplaceFirst(FirstFormula(src).value, "@mod", "@str"))
      && (!FirstFormula(src).Str? ==> w.damage == "")
      && (w.minStr == "d4" || (|w.minStr| >= 2 && w.minStr[0] == 'd' && AllDigits(w.minStr[1..])))
      && (FirstFormula(src).Str? && LeadingDie(FirstFormula(src).value).Some? ==>
            w.minStr == LeadingDie(FirstFormula(src).value).value)
      && (!FirstFormula(src).Str? || LeadingDie(FirstFormula(src).value).None? ==> w.minStr == "d4")
      && (src.rangeValue.None? || src.rangeValue.value == 0.0 ==> w.range == "")
      && (src.rangeValue.Some? && src.rangeValue.value != 0.0 ==> w.range == GetRange(src.rangeValue.value))
      && w.isHeavyWeapon == Prop(props, "hvy")
      && w.autoReload == (!Prop(props, "lod") && !Prop(props, "rel"))
      && w.currentShots == "0" && w.shots == "0" && w.rof == "0"
      && w.equipStatus == 4 && w.parry == 0
  {
  }

  // ---------------------------------------------------------------------------
  // The armor block

  /** The armor bonus of an armor type: light 2, medium 3, heavy 4, anything else 0. */
  function ArmorBonus(armorType: JsString): (bonus: int)
    ensures bonus == 2 <==> armorType == Str("light")
    ensures bonus == 3 <==> armorType == Str("medium")
    ensures bonus == 4 <==> armorType == Str("heavy")
    ensures bonus == 0 <==> !(armorType in {Str("light"), Str("medium"), Str("heavy")})
  {
    if armorType == Str("light") then 2
    else if armorType == Str("medium") then 3
    else if armorType == Str("heavy") then 4
    else 0
  }

  /** The minimum strength die of an armor type: d6, d8, d10, or d4 for anything else. */
  function ArmorMinStr(armorType: JsString): (die: string)
    ensures ArmorBonus(armorType) > 0 ==> die == "d" + NatToDecimal(2 * ArmorBonus(armorType) + 2)
    ensures ArmorBonus(armorType) == 0 ==> die == "d4"
  {
    if armorType == Str("light") then "d6"
    else if armorType == Str("medium") then "d8"
    else if armorType == Str("heavy") then "d10"
    else "d4"
  }

  /**
   * The armor block. An armor item whose source block has no `armor` cannot
   * be converted: the source dereferences it unconditionally on this branch.
   */
  function ArmorStatsOf(name: string, src: SourceItemData): (r: Result<ArmorStats, Failure>)
    ensures r.Err? <==> src.armor.None?
    ensures r.Err? ==> r.error == MissingArmor(name)
    ensures r.Ok? ==> var a := r.value; var t := src.armor.value.armorType;
      && a.armor == ArmorBonus(t) && a.minStr == ArmorMinStr(t)
      && a.locations == Locations(head := false, torso := true, arms := true, legs := false)
      && !a.isHeavyArmor && !a.isNaturalArmor
      && a.notes == "" && a.toughness == "" && a.equipStatus == 3
  {
    if src.armor.None? then Err(MissingArmor(name))
    else
      var t := src.armor.value.armorType;
      Ok(ArmorStats(ArmorBonus(t), false, false, Locations(false, true, true, false), ArmorMinStr(t), "", "", 3))
  }

  // ---------------------------------------------------------------------------
  // convertItem

  /** `description?.unidentified`. */
  function Unidentified(src: SourceItemData): JsString {
    if src.description.None? then Undefined else src.description.value.unidentified
  }

  /** `description?.value ?? ''`. */
  function DescriptionText(src: SourceItemData): string {
    if src.description.None? then "" else src.description.value.value.Or("")
  }

  /**
   * The converted description: the secret part followed by the public part.
   * A missing or null secret part is spliced in as the text "undefined" or "null".
   */
  function ItemDescription(src: SourceItemData, cfg: Conversion): (d: string)
    ensures var rest := FixupText(DescriptionText(src), cfg);
      && (Unidentified(src).Truthy() ==>
            d == "<section class=\"secret\">" + cfg.fixupDcs(Unidentified(src).value) + "</section>" + rest)
      && (Unidentified(src) == Undefined ==> d == "undefined" + rest)
      && (Unidentified(src) == Null ==> d == "null" + rest)
      && (Unidentified(src) == Str("") ==> d == rest)
  {
    Secret(Unidentified(src), cfg).Show() + FixupText(DescriptionText(src), cfg)
  }

  /** The conversion cannot fail: weapons carry properties and armor carries an armor block. */
  predicate ItemConvertible(item: Item)
    requires IsSourceItem(item)
  {
    var t := GetItemType(item.itemType, item.system.src);
    (t == Some("weapon") ==> item.system.src.properties.Some?)
    && (t == Some("armor") ==> item.system.src.armor.Some?)
  }

  /** What a successful conversion produces from a convertible source item. */
  predicate ItemConverted(item: Item, out: Item, cfg: Conversion)
    requires IsSourceItem(item)
  {
    var src := item.system.src; var t := GetItemType(item.itemType, src);
    && out.id == item.id && out.name == item.name
    && out.img == ReplacePaths(item.img, cfg)
    && out.itemType == t
    && out.flags == FixFlags(item.flags, cfg.srcName, cfg.targetName)
    && EffectsDisabled(item.effects, out.effects)
    && out.system.TargetItem?
    && var sys := out.system.tgt;
    && sys.description == ItemDescription(src, cfg)
    && sys.isArcaneBackground == (t == Some("edge") && Lower(item.name) == "spellcasting")
    && sys.weight == src.weight && sys.price == src.price
    && sys.quantity == src.quantity && sys.source == src.source
    && sys.category == src.rarity.Show() + " " + src.baseItem.Or("")
    && sys.isAmmo == OptProp(src.properties, "amm")
    && sys.equippable == (src.armor.Some? && src.armor.value.armorType.Truthy())
    && (sys.weapon.Some? <==> t == Some("weapon"))
    && (sys.weapon.Some? ==> WeaponStatsOf(item.name, src) == Ok(sys.weapon.value))
    && (sys.armor.Some? <==> t == Some("armor"))
    && (sys.armor.Some? ==> ArmorStatsOf(item.name, src) == Ok(sys.armor.value))
  }

  /** convertItem. */
  function ConvertItem(item: Item, cfg: Conversion): (r: Result<Item, Failure>)
    requires IsSourceItem(item)
    ensures r.Ok? <==> ItemConvertible(item)
    ensures r.Err? ==> r.error in {MissingProperties(item.name), MissingArmor(item.name)}
  {
    var src := item.system.src;
    var t := GetItemType(item.itemType, src);
    var weapon :- if t == Some("weapon") then (var w :- WeaponStatsOf(item.name, src); Ok(Some(w))) else Ok(None);
    var armor :- if t == Some("armor") then (var a :- ArmorStatsOf(item.name, src); Ok(Some(a))) else Ok(None);
    Ok(Item(
      id := item.id,
      name := item.name,
      img := ReplacePaths(item.img, cfg),
      itemType := t,
      system := TargetItem(TargetItemData(
        description := ItemDescription(src, cfg),
        isArcaneBackground := t == Some("edge") && Lower(item.name) == "spellcasting",
        weight := src.weight,
        price := src.price,
        quantity := src.quantity,
        source := src.source,
        category := src.rarity.Show() + " " + src.baseItem.Or(""),
        isAmmo := OptProp(src.properties, "amm"),
        equippable := src.armor.Some? && src.armor.value.armorType.Truthy(),
        weapon := weapon,
        armor := armor)),
      flags := FixFlags(item.flags, cfg.srcName, cfg.targetName),
      effects := ConvertEffects(item.effects)))
  }
  /** The converted item: type mapped, text and paths rewritten, weapon and armor blocks rebuilt, flags moved, effects off. */
  lemma ConvertItemResult(item: Item, cfg: Conversion)
    requires IsSourceItem(item) && ItemConvertible(item)
    ensures ItemConverted(item, ConvertItem(item, cfg).value, cfg)
  {
  }


  /** `items.map(convertItem)`: every item converted in order; the first failure aborts the whole list. */
  function ConvertItems(items: seq<Item>, cfg: Conversion): (r: Result<seq<Item>, Failure>)
    requires AllSourceItems(items)
    ensures r.Ok? <==> forall i :: 0 <= i < |items| ==> ItemConvertible(items[i])
    ensures r.Ok? ==> |r.value| == |items| && forall i :: 0 <= i < |items| ==> ConvertItem(items[i], cfg) == Ok(r.value[i])
    ensures r.Err? ==>
      exists k :: (0 <= k < |items| && ConvertItem(items[k], cfg) == Err(r.error)
                   && forall i :: 0 <= i < k ==> ItemConvertible(items[i]))
  {
    var f := (item: Item) requires IsSourceItem(item) => ConvertItem(item, cfg);
    assert forall i :: 0 <= i < |items| ==> f(items[i]) == ConvertItem(items[i], cfg);
    MapResult(items, f)
  }
}
