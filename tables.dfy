/**
 * The fixed lookup tables of the conversion from the source rule set (D&D 5e)
 * to the target rule set (Savage Worlds): item types, the skills each target
 * skill is drawn from, the attribute each target skill is rolled with, and the
 * creature sizes.
 */
module Tables {
  import opened Wrappers

  /** ITEM_TYPE: source item type to target item type. */
  const ItemTypes: map<string, string> := map[
    "background" := "ability",
    "backpack" := "gear",
    "class" := "edge",
    "consumable" := "gear",
    "equipment" := "armor",
    "feat" := "edge",
    "loot" := "gear",
    "spell" := "power",
    "subclass" := "edge",
    "tool" := "gear",
    "weapon" := "weapon"
  ]

  /** The item types of the target rule set that the table can produce. */
  const TargetItemTypes: set<string> := {"ability", "gear", "edge", "armor", "power", "weapon"}

  /**
   * SKILL_MAP, in declaration order: each target skill with the source skills
   * (by their three-letter keys) it is drawn from.
   */
  const SkillSources: seq<(string, seq<string>)> := [
    ("Athletics", ["acr", "ath"]),
    ("Survival", ["ani", "sur"]),
    ("Occult", ["arc"]),
    ("Persuasion", ["dec", "per"]),
    ("Academics", ["his", "rel"]),
    ("Notice", ["ins", "prc", "inv"]),
    ("Intimidation", ["itm"]),
    ("Healing", ["med"]),
    ("Science", ["nat"]),
    ("Performance", ["prf"]),
    ("Thievery", ["slt"]),
    ("Stealth", ["ste"]),
    ("Common Knowledge", ["arc", "rel", "nat"]),
    ("Taunt", ["itm", "per"])
  ]

  /**
   * SKILL_ATTR_MAP: the attribute a target skill is rolled with. The key for
   * Common Knowledge is spelled "Common Knwoledge", so that skill finds none.
   */
  const SkillAttributes: map<string, string> := map[
    "Academics" := "smarts",
    "Athletics" := "agility",
    "Common Knwoledge" := "smarts",
    "Faith" := "spirit",
    "Fighting" := "agility",
    "Healing" := "smarts",
    "Intimidation" := "spirit",
    "Notice" := "smarts",
    "Occult" := "smarts",
    "Performance" := "spirit",
    "Persuasion" := "spirit",
    "Science" := "smarts",
    "Shooting" := "agility",
    "Spellcasting" := "smarts",
    "Stealth" := "agility",
    "Survival" := "smarts",
    "Taunt" := "smarts",
    "Thievery" := "agility"
  ]

  /** The target skills that are core skills of the target rule set. */
  const CoreSkills: seq<string> := ["Athletics", "Notice", "Persuasion", "Stealth", "Common Knowledge"]

  datatype SizeEntry = SizeEntry(size: int, scale: int, caption: string)

  /** SIZE_MAP: source size code to target size, scale and display label (`caption`). */
  const Sizes: map<string, SizeEntry> := map[
    "tiny" := SizeEntry(-4, -6, "Tiny"),
    "sm" := SizeEntry(-2, -2, "Small"),
    "med" := SizeEntry(0, 0, "Medium"),
    "lg" := SizeEntry(4, 2, "Large"),
    "huge" := SizeEntry(8, 4, "Huge"),
    "grg" := SizeEntry(12, 6, "Gargantuan")
  ]

  /** `ITEM_TYPE[t]`: `None` (undefined) for a type the table does not list. */
  function LookupItemType(t: string): (r: Option<string>)
    ensures r.Some? <==> t in ItemTypes
    ensures r.Some? ==> r.value in TargetItemTypes
  {
    if t in ItemTypes then Some(ItemTypes[t]) else None
  }

  /** `SKILL_ATTR_MAP[name]`. */
  function SkillAttribute(name: string): Option<string> {
    if name in SkillAttributes then Some(SkillAttributes[name]) else None
  }

  /** `SIZE_MAP[code]`. */
  function LookupSize(code: string): (r: Option<SizeEntry>)
    ensures r.Some? ==> r.value.caption != "" && -4 <= r.value.size <= 12
  {
    if code in Sizes then Some(Sizes[code]) else None
  }

  /** Every target skill is drawn from at least one source skill, and no target skill is listed twice. */
  lemma SkillSourcesWellFormed()
    ensures forall k :: 0 <= k < |SkillSources| ==> |SkillSources[k].1| > 0
    ensures forall i, j :: 0 <= i < j < |SkillSources| ==> SkillSources[i].0 != SkillSources[j].0
  {
  }

  /** The misspelt key leaves Common Knowledge without an attribute; every other aggregated skill has one. */
  lemma CommonKnowledgeHasNoAttribute()
    ensures SkillAttribute("Common Knowledge") == None
    ensures forall k :: 0 <= k < |SkillSources| && SkillSources[k].0 != "Common Knowledge" ==>
      SkillAttribute(SkillSources[k].0).Some?
  {
  }
}
