/**
 * convertActor: a source actor becomes an actor of the target rule set.
 * Ability scores become trait dice, source skills are aggregated into target
 * skills, weapon and spellcasting abilities add Fighting, Shooting and
 * Spellcasting or Faith, senses become special abilities, and the owned items
 * are converted with convertItem.
 */
module ActorConversion {
  import opened Wrappers
  import opened JsValues
  import opened Strings
  import opened Tables
  import opened Values
  import opened Rewrites
  import opened Documents
  import opened ItemConversion
  import opened SceneConversion

  /** A numeric field that is present and truthy (not zero). */
  predicate NumTruthy(x: Option<real>) {
    x.Some? && x.value != 0.0
  }

  function Max(a: real, b: real): real {
    if a >= b then a else b
  }

  // ---------------------------------------------------------------------------
  // Abilities

  /**
   * getAbilityValue on `abilities[key]`: the score shifted so that 10 becomes 1.
   * An ability that is not there is dereferenced all the same and fails.
   */
  function AbilityValue(abilities: map<string, Ability>, key: string): (r: Result<real, Failure>)
    ensures r.Ok? <==> key in abilities
    ensures r.Ok? ==> r.value + 9.0 == abilities[key].value
    ensures r.Err? ==> r.error == MissingAbility(key)
  {
    if key in abilities then Ok(abilities[key].value - 9.0) else Err(MissingAbility(key))
  }

  /** The trait die of an ability score. */
  function ScoreDie(score: real): Die {
    ConvertValue(score - 9.0, 0)
  }

  /** The usual ability scores map to d4 (10 and below), d6 (12), d8 (14), d10 (16) and d12 (18 to 20). */
  lemma ScoreDieExamples()
    ensures ScoreDie(10.0) == Die(4, 0) && ScoreDie(11.0) == Die(4, 0)
    ensures ScoreDie(12.0) == Die(6, 0) && ScoreDie(14.0) == Die(8, 0)
    ensures ScoreDie(16.0) == Die(10, 0) && ScoreDie(18.0) == Die(12, 0)
    ensures ScoreDie(20.0) == Die(12, 0) && ScoreDie(23.0) == Die(12, 1)
  {
  }

  /** A higher ability score never gives a smaller die or a smaller modifier. */
  lemma ScoreDieMonotone(s1: real, s2: real)
    requires s1 <= s2
    ensures ScoreDie(s1).sides <= ScoreDie(s2).sides
    ensures ScoreDie(s1).modifier <= ScoreDie(s2).modifier
  {
    ConvertValueMonotone(s1 - 9.0, s2 - 9.0, 0);
  }

  /** getAbilityModifier: the classic modifier, half the distance from 10 rounded down; 0 for a missing ability. */
  function AbilityModifier(abilities: map<string, Ability>, name: string): (m: int)
    ensures name !in abilities ==> m == 0
    ensures name in abilities ==> (2 * m) as real <= abilities[name].value - 10.0 < (2 * m + 2) as real
  {
    if name in abilities then ((abilities[name].value - 10.0) / 2.0).Floor else 0
  }

  // ---------------------------------------------------------------------------
  // Skill values

  /** The proficiency bonus implied by a challenge rating. */
  function CrProficiency(cr: real): int {
    Ceil(Max(cr, 1.0) / 4.0) + 1
  }

  /** Challenge ratings up to 4 give +2, 5 to 8 give +3, 9 to 12 give +4, and the bonus never falls as the rating rises. */
  lemma CrProficiencyBands(cr: real, cr2: real)
    ensures cr <= 4.0 ==> CrProficiency(cr) == 2
    ensures 4.0 < cr <= 8.0 ==> CrProficiency(cr) == 3
    ensures 8.0 < cr <= 12.0 ==> CrProficiency(cr) == 4
    ensures cr <= cr2 ==> CrProficiency(cr) <= CrProficiency(cr2)
  {
  }

  /**
   * getProfBonus: an explicit skill bonus wins; otherwise the proficiency
   * multiplier of the skill times the actor's proficiency bonus, or the bonus
   * its challenge rating implies.
   */
  function ProfBonus(src: SourceActorData, skill: Skill): (b: real)
    ensures NumTruthy(skill.prof) ==> b == skill.prof.value
    ensures !NumTruthy(skill.prof) && skill.value.GetOr(0.0) == 0.0 ==> b == 0.0
    ensures !NumTruthy(skill.prof) && NumTruthy(src.attributes.prof) ==>
      b == src.attributes.prof.value * skill.value.GetOr(0.0)
    ensures !NumTruthy(skill.prof) && !NumTruthy(src.attributes.prof) && NumTruthy(src.details.cr) ==>
      b == CrProficiency(src.details.cr.value) as real * skill.value.GetOr(0.0)
    ensures !NumTruthy(skill.prof) && !NumTruthy(src.attributes.prof) && !NumTruthy(src.details.cr) ==> b == 0.0
  {
    if NumTruthy(skill.prof) then skill.prof.value
    else
      var multiplier := skill.value.GetOr(0.0);
      if NumTruthy(src.attributes.prof) then src.attributes.prof.value * multiplier
      else if NumTruthy(src.details.cr) then CrProficiency(src.details.cr.value) as real * multiplier
      else 0.0
  }

  /** getSkillValue: ability modifier plus proficiency bonus; 0 for a skill the actor does not have. */
  function SkillValue(src: SourceActorData, name: string): (v: real)
    ensures name !in src.skills ==> v == 0.0
    ensures name in src.skills ==>
      v == AbilityModifier(src.abilities, src.skills[name].ability) as real + ProfBonus(src, src.skills[name])
  {
    if name in src.skills then
      AbilityModifier(src.abilities, src.skills[name].ability) as real + ProfBonus(src, src.skills[name])
    else 0.0
  }

  /** `Math.max` over the values of several source skills. */
  function BestSkillValue(src: SourceActorData, names: seq<string>): (v: real)
    requires |names| > 0
    ensures exists k :: 0 <= k < |names| && v == SkillValue(src, names[k])
    ensures forall k :: 0 <= k < |names| ==> SkillValue(src, names[k]) <= v
  {
    if |names| == 1 then SkillValue(src, names[0])
    else
      var rest := BestSkillValue(src, names[1..]);
      var k :| 0 <= k < |names[1..]| && rest == SkillValue(src, names[1..][k]);
      assert names[1..][k] == names[k + 1];
      Max(SkillValue(src, names[0]), rest)
  }

  // ---------------------------------------------------------------------------
  // Skill items

  /** createSkill: a skill item with its attribute, its die and whether it is a core skill. */
  function CreateSkill(name: string, value: real, modifier: int): (r: Item)
    ensures r.name == name && r.itemType == Some("skill") && r.id == Generated
    ensures r.system.SkillItem? && r.system.die == ConvertValue(value, modifier)
    ensures r.system.isCoreSkill <==> name in CoreSkills
    ensures r.system.attribute.Some? <==> name in SkillAttributes
    ensures name in SkillAttributes ==> r.system.attribute == Some(SkillAttributes[name])
    ensures r.flags.None? && r.effects == []
  {
    Item(Generated, name, Str(""), Some("skill"), SkillItem(SkillAttribute(name), ConvertValue(value, modifier), name in CoreSkills), None, [])
  }

  /** The skill every converted actor gets: d4 at a -2 penalty, rolled with no attribute. */
  const UnskilledAttempt: Item := CreateSkill("Unskilled Attempt", 0.0, -2)

  lemma UnskilledAttemptDie()
    ensures UnskilledAttempt.system.die == Die(4, -2)
    ensures UnskilledAttempt.system.attribute == None && !UnskilledAttempt.system.isCoreSkill
  {
  }

  /** Common Knowledge is a core skill but, through the misspelt table key, gets no attribute. */
  lemma CommonKnowledgeSkill(value: real)
    ensures CreateSkill("Common Knowledge", value, 0).system.isCoreSkill
    ensures CreateSkill("Common Knowledge", value, 0).system.attribute == None
  {
    CommonKnowledgeHasNoAttribute();
  }

  /** Items created as skills, carrying no flags and no effects. */
  predicate AllSkillItems(items: seq<Item>) {
    forall k :: 0 <= k < |items| ==> items[k].system.SkillItem? && items[k].flags.None? && items[k].effects == []
  }

  lemma AllSkillItemsConcat(a: seq<Item>, b: seq<Item>)
    requires AllSkillItems(a) && AllSkillItems(b)
    ensures AllSkillItems(a + b)
  {
  }

  /** The skill item a table entry yields: its best source value, when that is positive. */
  function AggregatedSkill(src: SourceActorData, entry: (string, seq<string>)): Item
    requires |entry.1| > 0
  {
    CreateSkill(entry.0, BestSkillValue(src, entry.1), 0)
  }

  /** A table entry whose best source value is positive (`Math.max` of no values is never positive). */
  predicate Trained(src: SourceActorData, entry: (string, seq<string>)) {
    |entry.1| > 0 && BestSkillValue(src, entry.1) > 0.0
  }

  /** The target skills aggregated from the source skills, in table order; one whose best value is not positive is dropped. */
  function AggregatedSkills(src: SourceActorData, table: seq<(string, seq<string>)>): (r: seq<Item>)
    ensures |r| <= |table|
    ensures AllSkillItems(r)
  {
    if table == [] then []
    else
      var head := if Trained(src, table[0]) then [AggregatedSkill(src, table[0])] else [];
      AllSkillItemsConcat(head, AggregatedSkills(src, table[1..]));
      head + AggregatedSkills(src, table[1..])
  }

  /** Every trained table entry yields its skill item. */
  lemma {:induction false} AggregatedSkillsComplete(src: SourceActorData, table: seq<(string, seq<string>)>)
    ensures forall j :: 0 <= j < |table| && Trained(src, table[j]) ==> AggregatedSkill(src, table[j]) in AggregatedSkills(src, table)
  {
    if table != [] {
      AggregatedSkillsComplete(src, table[1..]);
      var r := AggregatedSkills(src, table);
      var rest := AggregatedSkills(src, table[1..]);
      assert r[|r| - |rest|..] == rest;
      forall j | 0 <= j < |table| && Trained(src, table[j])
        ensures AggregatedSkill(src, table[j]) in r
      {
        if j == 0 {
          assert r[0] == AggregatedSkill(src, table[0]);
        } else {
          assert table[1..][j - 1] == table[j];
          assert AggregatedSkill(src, table[j]) in rest;
        }
      }
    }
  }

  /** The item is the skill item of a trained entry of the table. */
  predicate FromTrainedEntry(src: SourceActorData, table: seq<(string, seq<string>)>, item: Item) {
    exists j :: 0 <= j < |table| && Trained(src, table[j]) && item == AggregatedSkill(src, table[j])
  }

  /** Every skill item comes from a trained table entry. */
  lemma {:induction false} AggregatedSkillsSound(src: SourceActorData, table: seq<(string, seq<string>)>)
    ensures forall k :: 0 <= k < |AggregatedSkills(src, table)| ==>
      FromTrainedEntry(src, table, AggregatedSkills(src, table)[k])
  {
    if table != [] {
      var tail := table[1..];
      AggregatedSkillsSound(src, tail);
      var r := AggregatedSkills(src, table);
      var rest := AggregatedSkills(src, tail);
      var h := |r| - |rest|;
      assert r[h..] == rest;
      forall k | 0 <= k < |r|
        ensures FromTrainedEntry(src, table, r[k])
      {
        if k < h {
          assert r[k] == AggregatedSkill(src, table[0]);
        } else {
          assert rest[k - h] == r[k];
          assert FromTrainedEntry(src, tail, rest[k - h]);
          var j :| 0 <= j < |tail| && Trained(src, tail[j]) && rest[k - h] == AggregatedSkill(src, tail[j]);
          assert tail[j] == table[j + 1];
        }
      }
    }
  }

  // ---------------------------------------------------------------------------
  // Fighting, Shooting, Spellcasting, Faith

  /** The aggregated skills of the SKILL_MAP table. */
  function TargetSkills(src: SourceActorData): (r: seq<Item>)
    ensures AllSkillItems(r)
  {
    AggregatedSkills(src, SkillSources)
  }

  /** A weapon the actor is proficient with, making attacks of the given kind. */
  predicate IsProficientWeapon(item: Item, actionType: string)
    requires IsSourceItem(item)
  {
    item.itemType == Some("weapon") && item.system.src.actionType == Str(actionType)
    && item.system.src.proficient.Truthy()
  }

  /** `items.find(...)`: the position of the first proficient weapon of the given kind. */
  function FindWeapon(items: seq<Item>, actionType: string): (r: Option<nat>)
    requires AllSourceItems(items)
    ensures r.Some? ==> (r.value < |items| && IsProficientWeapon(items[r.value], actionType)
                         && forall i :: 0 <= i < r.value ==> !IsProficientWeapon(items[i], actionType))
    ensures r.None? ==> forall i :: 0 <= i < |items| ==> !IsProficientWeapon(items[i], actionType)
  {
    if items == [] then None
    else if IsProficientWeapon(items[0], actionType) then Some(0)
    else
      match FindWeapon(items[1..], actionType)
      case None => None
      case Some(k) => Some(k + 1)
  }

  /** The ability Fighting is rolled with: the melee weapon's own ability, else dex for a finesse weapon, else str. */
  function MeleeAbility(items: seq<Item>): (key: string)
    requires AllSourceItems(items)
    ensures FindWeapon(items, "mwak").None? ==> key == "str"
    ensures FindWeapon(items, "mwak").Some? ==>
      var w := items[FindWeapon(items, "mwak").value].system.src;
      && (w.ability.Truthy() ==> key == w.ability.value)
      && (!w.ability.Truthy() ==> key == (if OptProp(w.properties, "fin") then "dex" else "str"))
  {
    match FindWeapon(items, "mwak")
    case None => "str"
    case Some(k) =>
      var w := items[k].system.src;
      if w.ability.Truthy() then w.ability.value
      else if OptProp(w.properties, "fin") then "dex" else "str"
  }

  /** The ability Shooting is rolled with: the ranged weapon's own ability, else dex. */
  function RangedAbility(items: seq<Item>): (key: string)
    requires AllSourceItems(items)
    ensures FindWeapon(items, "rwak").None? ==> key == "dex"
    ensures FindWeapon(items, "rwak").Some? ==>
      var w := items[FindWeapon(items, "rwak").value].system.src;
      key == (if w.ability.Truthy() then w.ability.value else "dex")
  {
    match FindWeapon(items, "rwak")
    case None => "dex"
    case Some(k) =>
      var w := items[k].system.src;
      if w.ability.Truthy() then w.ability.value else "dex"
  }

  predicate IsSpellcaster(src: SourceActorData) {
    src.details.spellLevel.Some? && src.details.spellLevel.value > 0.0
  }

  /** The arcane skill of a spellcaster: Spellcasting for int or cha casters, Faith for wis casters. */
  function CastingSkillName(src: SourceActorData): (r: Option<string>)
    ensures r == Some("Spellcasting") <==>
      IsSpellcaster(src) && src.attributes.spellcasting in {Str("int"), Str("cha")}
    ensures r == Some("Faith") <==> IsSpellcaster(src) && src.attributes.spellcasting == Str("wis")
    ensures r.None? <==> !IsSpellcaster(src) || !(src.attributes.spellcasting in {Str("int"), Str("cha"), Str("wis")})
  {
    var sc := src.attributes.spellcasting;
    if IsSpellcaster(src) && (sc == Str("int") || sc == Str("cha")) then Some("Spellcasting")
    else if IsSpellcaster(src) && sc == Str("wis") then Some("Faith")
    else None
  }

  /** The Spellcasting or Faith skill, rolled with the spellcasting ability. */
  function CastingSkills(src: SourceActorData): (r: Result<seq<Item>, Failure>)
    ensures CastingSkillName(src).None? ==> r == Ok([])
    ensures CastingSkillName(src).Some? ==>
      var key := src.attributes.spellcasting.value;
      && (r.Ok? <==> key in src.abilities)
      && (r.Ok? ==> r.value == [CreateSkill(CastingSkillName(src).value, src.abilities[key].value - 9.0, 0)])
      && (r.Err? ==> r.error == MissingAbility(key))
  {
    match CastingSkillName(src)
    case None => Ok([])
    case Some(name) =>
      var v :- AbilityValue(src.abilities, src.attributes.spellcasting.value);
      Ok([CreateSkill(name, v, 0)])
  }

  /** The abilities the skill items are rolled with: the two attack abilities and the spellcasting one. */
  function SkillAbilities(actor: Actor): set<string>
    requires IsSourceActor(actor)
  {
    var src := actor.system.src;
    {MeleeAbility(actor.items), RangedAbility(actor.items)}
    + (if CastingSkillName(src).Some? then {src.attributes.spellcasting.value} else {})
  }

  /** Fighting and Shooting, rolled with the melee and ranged abilities. */
  function AttackSkills(actor: Actor): (r: Result<seq<Item>, Failure>)
    requires IsSourceActor(actor)
    ensures var a := actor.system.src.abilities;
      r.Ok? <==> MeleeAbility(actor.items) in a && RangedAbility(actor.items) in a
    ensures r.Ok? ==> var a := actor.system.src.abilities;
      r.value == [CreateSkill("Fighting", a[MeleeAbility(actor.items)].value - 9.0, 0),
                  CreateSkill("Shooting", a[RangedAbility(actor.items)].value - 9.0, 0)]
    ensures r.Err? ==>
      && r.error.MissingAbility?
      && r.error.ability in {MeleeAbility(actor.items), RangedAbility(actor.items)}
      && r.error.ability !in actor.system.src.abilities
  {
    var src := actor.system.src;
    var fighting :- AbilityValue(src.abilities, MeleeAbility(actor.items));
    var shooting :- AbilityValue(src.abilities, RangedAbility(actor.items));
    Ok([CreateSkill("Fighting", fighting, 0), CreateSkill("Shooting", shooting, 0)])
  }

  /** All skill items of a converted actor, in the order the source pushes them; the last is the unskilled attempt. */
  function ActorSkills(actor: Actor): (r: Result<seq<Item>, Failure>)
    requires IsSourceActor(actor)
    ensures r.Ok? <==> SkillAbilities(actor) <= actor.system.src.abilities.Keys
    ensures r.Err? ==>
      r.error.MissingAbility? && r.error.ability in SkillAbilities(actor) && r.error.ability !in actor.system.src.abilities
  {
    var src := actor.system.src;
    var attacks := AttackSkills(actor);
    var casting := CastingSkills(src);
    if attacks.Err? then
      assert !(SkillAbilities(actor) <= src.abilities.Keys) by {
        assert attacks.error.ability in SkillAbilities(actor);
      }
      Err(attacks.error)
    else if casting.Err? then
      assert src.attributes.spellcasting.value in SkillAbilities(actor);
      Err(casting.error)
    else
      assert SkillAbilities(actor) <= src.abilities.Keys;
      Ok(TargetSkills(src) + attacks.value + casting.value + [UnskilledAttempt])
  }

  /** Every skill item is created as a skill and carries no flags and no effects. */
  lemma ActorSkillsAreSkillItems(actor: Actor)
    requires IsSourceActor(actor) && ActorSkills(actor).Ok?
    ensures AllSkillItems(ActorSkills(actor).value)
  {
    var src := actor.system.src;
    var attacks := AttackSkills(actor).value;
    var casting := CastingSkills(src).value;
    assert ActorSkills(actor).value == TargetSkills(src) + attacks + casting + [UnskilledAttempt];
    AllSkillItemsConcat(TargetSkills(src), attacks);
    AllSkillItemsConcat(TargetSkills(src) + attacks, casting);
    AllSkillItemsConcat(TargetSkills(src) + attacks + casting, [UnskilledAttempt]);
  }

  /**
   * The skill items in the order the source pushes them: the aggregated
   * skills, Fighting and Shooting, Spellcasting or Faith for a caster, and the
   * unskilled attempt last.
   */
  lemma ActorSkillsOrder(actor: Actor)
    requires IsSourceActor(actor) && ActorSkills(actor).Ok?
    ensures AttackSkills(actor).Ok? && CastingSkills(actor.system.src).Ok?
    ensures var v := ActorSkills(actor).value;
      var n := |TargetSkills(actor.system.src)|;
      var casting := CastingSkills(actor.system.src).value;
      && |v| == n + 3 + |casting|
      && v[..n] == TargetSkills(actor.system.src)
      && v[n..n + 2] == AttackSkills(actor).value
      && v[n + 2..|v| - 1] == casting
      && v[|v| - 1] == UnskilledAttempt
  {
    var src := actor.system.src;
    var targets := TargetSkills(src);
    var attacks := AttackSkills(actor).value;
    var casting := CastingSkills(src).value;
    var v := ActorSkills(actor).value;
    assert v == targets + attacks + casting + [UnskilledAttempt];
    var n := |targets|;
    assert v[..n] == targets;
    assert v[n..n + 2] == attacks;
    assert v[n + 2..|v| - 1] == casting;
  }

  // ---------------------------------------------------------------------------
  // Attributes

  /** The five trait dice; spirit takes the better of wisdom and charisma. */
  function TargetAttributesOf(src: SourceActorData): (r: Result<TargetAttributes, Failure>)
    ensures r.Ok? <==> {"dex", "int", "wis", "cha", "str", "con"} <= src.abilities.Keys
    ensures r.Ok? ==> var a := src.abilities;
      && r.value.agility == ScoreDie(a["dex"].value)
      && r.value.smarts == ScoreDie(a["int"].value)
      && r.value.spirit == ScoreDie(Max(a["wis"].value, a["cha"].value))
      && r.value.strength == ScoreDie(a["str"].value)
      && r.value.vigor == ScoreDie(a["con"].value)
    ensures r.Err? ==>
      r.error.MissingAbility? && r.error.ability in {"dex", "int", "wis", "cha", "str", "con"} && r.error.ability !in src.abilities
  {
    var agility :- AbilityValue(src.abilities, "dex");
    var smarts :- AbilityValue(src.abilities, "int");
    var wis :- AbilityValue(src.abilities, "wis");
    var cha :- AbilityValue(src.abilities, "cha");
    var strength :- AbilityValue(src.abilities, "str");
    var vigor :- AbilityValue(src.abilities, "con");
    assert Max(wis, cha) == Max(src.abilities["wis"].value, src.abilities["cha"].value) - 9.0;
    Ok(TargetAttributes(ConvertValue(agility, 0), ConvertValue(smarts, 0), ConvertValue(Max(wis, cha), 0),
      ConvertValue(strength, 0), ConvertValue(vigor, 0)))
  }

  /** Spirit is never a smaller die than either wisdom or charisma would give alone. */
  lemma SpiritTakesBetter(wis: real, cha: real)
    ensures ScoreDie(wis).sides <= ScoreDie(Max(wis, cha)).sides
    ensures ScoreDie(cha).sides <= ScoreDie(Max(wis, cha)).sides
  {
    ScoreDieMonotone(wis, Max(wis, cha));
    ScoreDieMonotone(cha, Max(wis, cha));
  }

  // ---------------------------------------------------------------------------
  // Additional stats

  /** The custom languages: split at `;`, trimmed, empty entries dropped. */
  function CustomLanguages(parts: seq<string>): (r: seq<string>)
    ensures |r| <= |parts|
    ensures forall k :: 0 <= k < |r| ==> r[k] != "" && !IsSpace(r[k][0]) && !IsSpace(r[k][|r[k]| - 1])
  {
    if parts == [] then []
    else
      var t := Trim(parts[0]);
      (if t != "" then [t] else []) + CustomLanguages(parts[1..])
  }

  /** Exactly the parts that are not blank once trimmed are kept, in their trimmed form. */
  lemma {:induction false} CustomLanguagesMembers(parts: seq<string>)
    ensures forall k :: 0 <= k < |parts| && Trim(parts[k]) != "" ==> Trim(parts[k]) in CustomLanguages(parts)
    ensures forall w :: w in CustomLanguages(parts) ==> exists k :: 0 <= k < |parts| && Trim(parts[k]) == w
    decreases |parts|
  {
    if parts != [] {
      var rest := parts[1..];
      CustomLanguagesMembers(rest);
      var t := Trim(parts[0]);
      assert CustomLanguages(parts) == (if t != "" then [t] else []) + CustomLanguages(rest);
      forall k | 1 <= k < |parts| ensures parts[k] == rest[k - 1] { }
      forall w | w in CustomLanguages(parts) ensures exists k :: 0 <= k < |parts| && Trim(parts[k]) == w
      {
        if w != t || t == "" {
          assert w in CustomLanguages(rest);
          var j :| 0 <= j < |rest| && Trim(rest[j]) == w;
          assert Trim(parts[j + 1]) == w;
        }
      }
    }
  }

  /** The custom list of a concatenation is the concatenation of the custom lists: the order of the parts is kept. */
  lemma {:induction false} CustomLanguagesAppend(a: seq<string>, b: seq<string>)
    ensures CustomLanguages(a + b) == CustomLanguages(a) + CustomLanguages(b)
    decreases |a|
  {
    if a == [] {
      assert a + b == b;
    } else {
      assert (a + b)[1..] == a[1..] + b;
      CustomLanguagesAppend(a[1..], b);
    }
  }

  /** A single part gives its trimmed text, or nothing when that is blank. */
  lemma CustomLanguagesSingle(part: string)
    ensures CustomLanguages([part]) == if Trim(part) != "" then [Trim(part)] else []
  {
    assert [part][1..] == [];
  }

  /** The languages listed on the actor, or none when there is no list. */
  function ListedLanguages(src: SourceActorData): seq<string> {
    var langs := src.traits.languages;
    if langs.Some? && langs.value.value.Some? then langs.value.value.value else []
  }

  /** The custom languages of the actor, or none when its custom text is missing or empty. */
  function CustomLanguagesOf(src: SourceActorData): seq<string> {
    var langs := src.traits.languages;
    var custom := if langs.Some? then langs.value.custom else Undefined;
    if custom.Truthy() then CustomLanguages(Split(custom.value, ';')) else []
  }

  /** The languages: the listed ones followed by the custom ones. */
  function LanguageList(src: SourceActorData): (r: seq<string>)
    ensures |r| == |ListedLanguages(src)| + |CustomLanguagesOf(src)|
    ensures r[..|ListedLanguages(src)|] == ListedLanguages(src)
    ensures r[|ListedLanguages(src)|..] == CustomLanguagesOf(src)
  {
    ListedLanguages(src) + CustomLanguagesOf(src)
  }

  /** The type shown for a creature: its custom type when that is truthy, else its type, capitalised. */
  function TypeName(ct: CreatureType): string {
    Capitalize(if ct.custom.Truthy() then ct.custom else ct.value).Show()
  }

  /** The creature type label: an optional swarm prefix, the capitalised type and an optional subtype. */
  function CreatureTypeText(ct: CreatureType): (r: string)
    ensures var swarm := LookupSize(ct.swarm.Show());
      var prefix := if swarm.Some? then "Swarm of " + swarm.value.caption + " " else "";
      var suffix := if ct.subtype.Truthy() then " (" + ct.subtype.value + ")" else "";
      && |r| == |prefix| + |TypeName(ct)| + |suffix|
      && r[..|prefix|] == prefix
      && r[|prefix|..|prefix| + |TypeName(ct)|] == TypeName(ct)
      && r[|r| - |suffix|..] == suffix
  {
    var swarm := LookupSize(ct.swarm.Show());
    var prefix := if swarm.Some? then "Swarm of " + swarm.value.caption + " " else "";
    var suffix := if ct.subtype.Truthy() then " (" + ct.subtype.value + ")" else "";
    var r := prefix + TypeName(ct) + suffix;
    assert r[..|prefix|] == prefix;
    assert r[|prefix|..|prefix| + |TypeName(ct)|] == TypeName(ct);
    r
  }

  /** Without a type, custom type or subtype the label reads "undefined", as the template literal prints it. */
  lemma CreatureTypeMissing(ct: CreatureType)
    requires ct.value == Undefined && !ct.custom.Truthy() && !ct.subtype.Truthy()
    requires LookupSize(ct.swarm.Show()).None?
    ensures CreatureTypeText(ct) == "undefined"
  {
  }

  /** The four createAdditionalStatWithKey results spread into one object, later keys last. */
  function MergeStats(languages: string, align: Option<Json>, creatureType: string, cr: Option<Json>)
    : map<string, AdditionalStat>
  {
    CreateAdditionalStat("languages", "Languages", Some(JStr(languages)))
    + CreateAdditionalStat("align", "Alignment", align)
    + CreateAdditionalStat("type", "Creature Type", Some(JStr(creatureType)))
    + CreateAdditionalStat("cr", "CR", cr)
  }

  /** The four keys are distinct, so each present entry is the one built for it. */
  lemma MergeStatsSpec(languages: string, align: Option<Json>, creatureType: string, cr: Option<Json>)
    ensures var m := MergeStats(languages, align, creatureType, cr);
      && m.Keys <= {"languages", "align", "type", "cr"}
      && ("languages" in m <==> languages != "")
      && ("align" in m <==> align.Some? && align.value.Truthy())
      && ("type" in m <==> creatureType != "")
      && ("cr" in m <==> cr.Some? && cr.value.Truthy())
      && ("languages" in m ==> m["languages"] == AdditionalStat("Languages", JStr(languages), "String", false, false))
      && ("align" in m ==> m["align"] == AdditionalStat("Alignment", align.value, "String", false, false))
      && ("type" in m ==> m["type"] == AdditionalStat("Creature Type", JStr(creatureType), "String", false, false))
      && ("cr" in m ==> m["cr"] == AdditionalStat("CR", cr.value, "String", false, false))
  {
    var l := CreateAdditionalStat("languages", "Languages", Some(JStr(languages)));
    var a := CreateAdditionalStat("align", "Alignment", align);
    var t := CreateAdditionalStat("type", "Creature Type", Some(JStr(creatureType)));
    var c := CreateAdditionalStat("cr", "CR", cr);
    assert "languages" !in a && "languages" !in t && "languages" !in c;
    assert "align" !in t && "align" !in c && "type" !in c;
  }

  /** The challenge rating as the JSON value it is stored as. */
  function CrJson(cr: Option<real>): Option<Json> {
    if cr.Some? then Some(JNum(cr.value)) else None
  }

  /** The additional stats: languages, alignment, creature type and challenge rating. */
  function AdditionalStats(src: SourceActorData): map<string, AdditionalStat> {
    MergeStats(Join(LanguageList(src), ", "), src.details.alignment.ToJson(),
      CreatureTypeText(src.details.creatureType), CrJson(src.details.cr))
  }

  /** Each additional stat is present only when its value is truthy, and no other key appears. */
  lemma AdditionalStatsKeys(src: SourceActorData)
    ensures AdditionalStats(src).Keys <= {"languages", "align", "type", "cr"}
    ensures "languages" in AdditionalStats(src) <==> Join(LanguageList(src), ", ") != ""
    ensures "align" in AdditionalStats(src) <==> src.details.alignment.Truthy()
    ensures "type" in AdditionalStats(src) <==> CreatureTypeText(src.details.creatureType) != ""
    ensures "cr" in AdditionalStats(src) <==> NumTruthy(src.details.cr)
  {
    MergeStatsSpec(Join(LanguageList(src), ", "), src.details.alignment.ToJson(),
      CreatureTypeText(src.details.creatureType), CrJson(src.details.cr));
  }

  /** Each additional stat that is present carries its label and the value it was built from. */
  lemma AdditionalStatsValues(src: SourceActorData)
    ensures var r := AdditionalStats(src);
      && ("languages" in r ==>
            r["languages"] == AdditionalStat("Languages", JStr(Join(LanguageList(src), ", ")), "String", false, false))
      && ("align" in r ==>
            (src.details.alignment.Str? &&
             r["align"] == AdditionalStat("Alignment", JStr(src.details.alignment.value), "String", false, false)))
      && ("type" in r ==>
            r["type"] == AdditionalStat("Creature Type", JStr(CreatureTypeText(src.details.creatureType)), "String", false, false))
      && ("cr" in r ==>
            (src.details.cr.Some? && r["cr"] == AdditionalStat("CR", JNum(src.details.cr.value), "String", false, false)))
  {
    MergeStatsSpec(Join(LanguageList(src), ", "), src.details.alignment.ToJson(),
      CreatureTypeText(src.details.creatureType), CrJson(src.details.cr));
  }

  // ---------------------------------------------------------------------------
  // Details

  /** The indentation the biography template carries on each of its lines. */
  const Indent: string := "                "

  /** The biography template: each section on its own indented line, a missing or empty one left blank. */
  function BiographyTemplate(d: SourceDetails): string {
    var sep := "\n" + Indent;
    sep + d.biography.Or("") + sep + d.background.Or("") + sep + d.personalityTrait.Or("")
    + sep + d.ideal.Or("") + sep + d.bond.Or("") + sep + d.flaw.Or("") + sep
  }

  /** The template's length, its first line (the biography) and its last two (the flaw, then an empty line). */
  lemma BiographyTemplateShape(d: SourceDetails)
    ensures var r := BiographyTemplate(d);
      && |r| == 7 * (1 + |Indent|) + |d.biography.Or("")| + |d.background.Or("")| + |d.personalityTrait.Or("")|
           + |d.ideal.Or("")| + |d.bond.Or("")| + |d.flaw.Or("")|
      && (var first := "\n" + Indent + d.biography.Or(""); r[..|first|] == first)
      && (var last := "\n" + Indent + d.flaw.Or("") + "\n" + Indent; r[|r| - |last|..] == last)
  {
  }

  /** The six biography sections in the order the template lists them; a missing one is empty. */
  function BiographySections(d: SourceDetails): seq<string> {
    [d.biography.Or(""), d.background.Or(""), d.personalityTrait.Or(""), d.ideal.Or(""), d.bond.Or(""), d.flaw.Or("")]
  }

  lemma JoinCons(x: string, rest: seq<string>, sep: string)
    requires rest != []
    ensures Join([x] + rest, sep) == x + sep + Join(rest, sep)
  {
    assert ([x] + rest)[1..] == rest;
  }

  /** Six lines between an empty first and an empty last piece: each line is opened by the separator. */
  lemma JoinSixLines(lines: seq<string>, sep: string)
    requires |lines| == 6
    ensures Join([""] + lines + [""], sep)
      == sep + lines[0] + sep + lines[1] + sep + lines[2] + sep + lines[3] + sep + lines[4] + sep + lines[5] + sep
  {
    var all := [""] + lines + [""];
    assert all[7..] == [""];
    JoinCons(lines[5], all[7..], sep);
    assert all[6..] == [lines[5]] + all[7..];
    JoinCons(lines[4], all[6..], sep);
    assert all[5..] == [lines[4]] + all[6..];
    JoinCons(lines[3], all[5..], sep);
    assert all[4..] == [lines[3]] + all[5..];
    JoinCons(lines[2], all[4..], sep);
    assert all[3..] == [lines[2]] + all[4..];
    JoinCons(lines[1], all[3..], sep);
    assert all[2..] == [lines[1]] + all[3..];
    JoinCons(lines[0], all[2..], sep);
    assert all[1..] == [lines[0]] + all[2..];
    JoinCons("", all[1..], sep);
    assert all == [""] + all[1..];
  }

  /**
   * The template has seven lines, each opened by a line break and the indentation:
   * biography, background, trait, ideal, bond and flaw in that order, then an empty one.
   */
  lemma BiographyLines(d: SourceDetails)
    ensures BiographyTemplate(d) == Join([""] + BiographySections(d) + [""], "\n" + Indent)
  {
    JoinSixLines(BiographySections(d), "\n" + Indent);
  }

  /** The details block: notes, appearance and biography through the free-text rewrite, no archetype, the race as species. */
  function TargetDetailsOf(src: SourceActorData, cfg: Conversion): (r: TargetDetails)
    ensures r.notes == FixupText(src.descriptionValue.Or(""), cfg)
    ensures r.appearance == FixupText(src.details.appearance.Or(""), cfg)
    ensures r.biography == FixupText(BiographyTemplate(src.details), cfg)
    ensures r.archetype == "" && r.species == src.details.race.Or("")
  {
    TargetDetails(
      notes := FixupText(src.descriptionValue.Or(""), cfg),
      appearance := FixupText(src.details.appearance.Or(""), cfg),
      biography := FixupText(BiographyTemplate(src.details), cfg),
      archetype := "",
      species := src.details.race.Or(""))
  }

  // ---------------------------------------------------------------------------
  // Stats

  /** The walking speed in inches: feet over five, rounded; 30 feet when none is given. */
  function SpeedInches(walk: Option<real>): int {
    Round((if NumTruthy(walk) then walk.value else 30.0) / 5.0)
  }

  /** The speed block: the running die grows by one step for every two inches above six. */
  function SpeedOf(walk: Option<real>): (s: Speed)
    ensures s.value == SpeedInches(walk) && s.adjusted == s.value && s.runningMod == 0
    ensures 2 * (s.runningDie - 6) <= s.value - 6 < 2 * (s.runningDie - 6) + 2
  {
    var inches := SpeedInches(walk);
    Speed(6 + (inches - 6) / 2, 0, inches, inches)
  }

  /** A creature without a walking speed moves 6 inches with a d6 running die; 40 feet is 8 inches and one step more; 25 feet is 5 inches and one step less. */
  lemma SpeedExamples()
    ensures SpeedOf(None) == Speed(6, 0, 6, 6)
    ensures SpeedOf(Some(0.0)) == Speed(6, 0, 6, 6)
    ensures SpeedOf(Some(40.0)) == Speed(7, 0, 8, 8)
    ensures SpeedOf(Some(25.0)) == Speed(5, 0, 5, 5)
  {
  }

  /** The stats block: size and scale from the size table (0 and 0 for an unlisted size), and the speed. */
  function StatsOf(src: SourceActorData): (r: Stats)
    ensures LookupSize(src.traits.size.Show()).Some? ==>
      var e := LookupSize(src.traits.size.Show()).value;
      r.size == e.size && r.scale == e.scale && r.caption == Some(e.caption)
    ensures LookupSize(src.traits.size.Show()).None? ==> r.size == 0 && r.scale == 0 && r.caption.None?
    ensures r.speed == SpeedOf(src.attributes.walk)
  {
    match LookupSize(src.traits.size.Show())
    case Some(e) => Stats(e.size, e.scale, Some(e.caption), SpeedOf(src.attributes.walk))
    case None => Stats(0, 0, None, SpeedOf(src.attributes.walk))
  }

  // ---------------------------------------------------------------------------
  // Senses

  /** A special ability item for a sense. */
  function SpecialItem(name: string): Item {
    Item(Generated, name, Str(""), Some("ability"), SpecialAbility("special"), None, [])
  }

  /** The sense items: Darkvision once, and Blindsense twice (the source pushes it in two identical blocks). */
  function SenseItems(senses: Senses): (r: seq<Item>)
    ensures |r| == (if senses.darkvision != 0.0 then 1 else 0) + (if senses.blindsight != 0.0 then 2 else 0)
    ensures senses.blindsight != 0.0 ==> r[|r| - 2..] == [SpecialItem("Blindsense"), SpecialItem("Blindsense")]
    ensures senses.darkvision != 0.0 ==> r[0] == SpecialItem("Darkvision")
    ensures forall k :: 0 <= k < |r| ==>
      r[k].system == SpecialAbility("special") && r[k].flags.None? && r[k].effects == []
  {
    (if senses.darkvision != 0.0 then [SpecialItem("Darkvision")] else [])
    + (if senses.blindsight != 0.0 then [SpecialItem("Blindsense")] else [])
    + (if senses.blindsight != 0.0 then [SpecialItem("Blindsense")] else [])
  }

  // ---------------------------------------------------------------------------
  // convertActor

  /** The abilities the conversion dereferences. */
  function RequiredAbilities(actor: Actor): set<string>
    requires IsSourceActor(actor)
  {
    SkillAbilities(actor) + {"dex", "int", "wis", "cha", "str", "con"}
  }

  /** The conversion cannot fail: every ability it reads is there and every owned item converts. */
  predicate ActorConvertible(actor: Actor)
    requires IsSourceActor(actor)
  {
    RequiredAbilities(actor) <= actor.system.src.abilities.Keys
    && forall i :: 0 <= i < |actor.items| ==> ItemConvertible(actor.items[i])
  }

  /** The document shell of a converted actor: identity kept, paths and flags rewritten, effects off, items assembled. */
  predicate ActorShellConverted(actor: Actor, out: Actor, cfg: Conversion)
    requires IsSourceActor(actor) && ActorConvertible(actor)
  {
    var src := actor.system.src;
    && out.id == actor.id && out.name == actor.name && out.actorType == actor.actorType
    && out.img == ReplacePaths(actor.img, cfg)
    && out.prototypeToken == ConvertToken(actor.prototypeToken, cfg)
    && out.flags == FixFlags(actor.flags, cfg.srcName, cfg.targetName)
    && EffectsDisabled(actor.effects, out.effects)
    && out.items == ConvertItems(actor.items, cfg).value + ActorSkills(actor).value + SenseItems(src.attributes.senses)
    && out.system.TargetActor?
  }

  /** The system block of a converted actor: dice, derived statistics and text computed from the source block. */
  predicate ActorSystemConverted(actor: Actor, out: Actor, cfg: Conversion)
    requires IsSourceActor(actor) && ActorConvertible(actor)
  {
    var src := actor.system.src;
    && out.system.TargetActor?
    && Ok(out.system.tgt.attributes) == TargetAttributesOf(src)
    && out.system.tgt.additionalStats == AdditionalStats(src)
    && out.system.tgt.details == TargetDetailsOf(src, cfg)
    && out.system.tgt.stats == StatsOf(src)
    && !out.system.tgt.wildcard
  }

  /** convertActor. */
  function ConvertActor(actor: Actor, cfg: Conversion): (r: Result<Actor, Failure>)
    requires IsSourceActor(actor)
    ensures r.Ok? <==> ActorConvertible(actor)
    ensures ActorSkills(actor).Err? ==> r == Err(ActorSkills(actor).error)
    ensures ActorSkills(actor).Ok? && TargetAttributesOf(actor.system.src).Err? ==>
      r == Err(TargetAttributesOf(actor.system.src).error)
  {
    var src := actor.system.src;
    var skills := ActorSkills(actor);
    var attributes := TargetAttributesOf(src);
    var items := ConvertItems(actor.items, cfg);
    if skills.Err? then
      assert !(SkillAbilities(actor) <= src.abilities.Keys);
      Err(skills.error)
    else if attributes.Err? then
      assert !({"dex", "int", "wis", "cha", "str", "con"} <= src.abilities.Keys);
      Err(attributes.error)
    else if items.Err? then Err(items.error)
    else
      assert RequiredAbilities(actor) <= src.abilities.Keys;
      var out := Actor(
        id := actor.id,
        name := actor.name,
        img := ReplacePaths(actor.img, cfg),
        actorType := actor.actorType,
        system := TargetActor(TargetActorData(
          additionalStats := AdditionalStats(src),
          details := TargetDetailsOf(src, cfg),
          attributes := attributes.value,
          stats := StatsOf(src),
          wildcard := false)),
        prototypeToken := ConvertToken(actor.prototypeToken, cfg),
        items := items.value + skills.value + SenseItems(src.attributes.senses),
        flags := FixFlags(actor.flags, cfg.srcName, cfg.targetName),
        effects := ConvertEffects(actor.effects));
      Ok(out)
  }

  /** The converted actor keeps its identity, rewrites paths and flags, switches effects off and gets converted, skill and sense items. */
  lemma ConvertActorShell(actor: Actor, cfg: Conversion)
    requires IsSourceActor(actor) && ActorConvertible(actor)
    ensures ActorShellConverted(actor, ConvertActor(actor, cfg).value, cfg)
  {
    assert ActorSkills(actor).Ok? && TargetAttributesOf(actor.system.src).Ok? && ConvertItems(actor.items, cfg).Ok?;
  }

  /** The converted actor's system block holds the dice, statistics and text computed from the source block. */
  lemma ConvertActorSystem(actor: Actor, cfg: Conversion)
    requires IsSourceActor(actor) && ActorConvertible(actor)
    ensures ActorSystemConverted(actor, ConvertActor(actor, cfg).value, cfg)
  {
    var src := actor.system.src;
    assert ActorSkills(actor).Ok? && TargetAttributesOf(src).Ok? && ConvertItems(actor.items, cfg).Ok?;
    var system := ConvertActor(actor, cfg).value.system;
    assert system == TargetActor(TargetActorData(
      AdditionalStats(src), TargetDetailsOf(src, cfg), TargetAttributesOf(src).value, StatsOf(src), false));
  }

  /**
   * A missing ability is reported before any item failure: the skills and
   * attributes are computed before the owned items are converted.
   */
  lemma ConvertActorMissingAbilityFirst(actor: Actor, cfg: Conversion)
    requires IsSourceActor(actor)
    requires !(RequiredAbilities(actor) <= actor.system.src.abilities.Keys)
    ensures ConvertActor(actor, cfg).Err?
    ensures var e := ConvertActor(actor, cfg).error;
      e.MissingAbility? && e.ability in RequiredAbilities(actor) && e.ability !in actor.system.src.abilities
  {
    var src := actor.system.src;
    if ActorSkills(actor).Ok? {
      assert SkillAbilities(actor) <= src.abilities.Keys;
      assert !({"dex", "int", "wis", "cha", "str", "con"} <= src.abilities.Keys);
      assert TargetAttributesOf(src).Err?;
    }
  }
}
