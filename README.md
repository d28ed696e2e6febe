# foundry-adventure-converter, modelled in Dafny

The converter takes a Foundry VTT adventure module written for the D&D 5e
game system and rewrites it for the Savage Worlds (SWADE) system. Two parts
of it are modelled here.

The first part is the document conversion in `src/updateDatabases.ts`. Every
Adventure record stored in the module's compendium packs gets the same
treatment:

- Its module paths and flag bundles are moved from the source module name to
  the target module name.
- Its items are re-typed, and their weapon and armour blocks are rebuilt.
- Its actors get SWADE trait dice, skills, derived statistics and sense
  abilities computed from their 5e abilities, skills, proficiencies and
  traits.
- Its scenes are rescaled from feet to inches.
- Its journals, roll tables, playlists and macros have their paths, text,
  flags and API calls rewritten.

The second part is the manifest rewrite in `src/updateModuleJson.ts`. It
renames the copied module after its directory, appends the target id to the
title and to the pack labels, points the system relationship at the target,
and makes the module non-updatable.

Files, in dependency order:

- `wrappers.dfy`: `Option`, `Result` and `MapResult`, the fallible `map` whose first failure aborts.
- `jsvalues.dfy`: JSON values and `string | null | undefined` fields, with JavaScript truthiness and template-literal rendering.
- `strings.dfy`: the string built-ins the converters call (`replace`, `split`, `join`, `trim`, number printing), each defined once with its contract.
- `tables.dfy`: the four lookup tables (item types, skill sources, skill attributes, sizes).
- `values.dfy`: the small value helpers (`convertValue`, `dcToModifier`, `getRange`, `createNotes`, `createAdditionalStatWithKey`, `capitalize`).
- `rewrites.dfy`: `replacePaths`, `fixFlags`, `fixupDcs` and `secret`, plus the conversion configuration.
- `documents.dfy`: the document datatypes, in their source and target forms.
- `items.dfy`, `scenes.dfy`, `actors.dfy`, `records.dfy`: the converters.
- `adventure.dfy`: `convertAdventure`, both as a function on values and as the in-place, step-by-step update of a stored record (`AdventureRecord`).
- `manifest.dfy`: `updateModuleJson` (`Manifest.Update`) and its pure parts.

Conventions:

- A JavaScript number read from a document is a `real`. `Math.floor`, `Math.ceil` and `Math.round` are written out.
- A field the code dereferences without `?.` is a plain field. Where that field can be missing on one branch, its absence is the `Failure` (the `TypeError`) that the branch throws.

## Model

| member | source | states |
|---|---|---|
| Tables.LookupItemType | src/updateDatabases.ts:7-19 | a type has a target type exactly when the table lists it, and every target type is one the target system knows |
| Tables.LookupSize | src/updateDatabases.ts:59-66 | every listed size has a non-empty label and a size between -4 and 12 |
| Tables.SkillSourcesWellFormed | src/updateDatabases.ts:21-36 | every target skill draws on at least one source skill, and no target skill is listed twice |
| Tables.CommonKnowledgeHasNoAttribute | src/updateDatabases.ts:38-57 | the misspelt key leaves Common Knowledge without an attribute, while every other aggregated skill has one |
| Values.Ceil | src/updateDatabases.ts:430 | `Math.ceil`: the least integer not below the argument |
| Values.Round | src/updateDatabases.ts:528 | `Math.round`: the nearest integer, with halves rounded up |
| Values.ConvertValue | src/updateDatabases.ts:424-431 | the die is d4/d6/d8/d10/d12 exactly on the bands ≤2, ≤4, ≤6, ≤8 and above; up to 8 the modifier passes through; above 8 it becomes `ceil((value-11)/3)` plus the modifier |
| Values.ConvertValueMonotone | src/updateDatabases.ts:424-431 | neither the die size nor the modifier decreases as the value grows |
| Values.ConvertValueNoBonusUpToEleven | src/updateDatabases.ts:430 | values from just above 8 to 11 give a d12 with the modifier unchanged |
| Values.ConvertValueBonusStep | src/updateDatabases.ts:430 | above 8, three more points of value give exactly one more point of modifier |
| Values.DcModifier | src/updateDatabases.ts:222-230 | the modifier is +4, +2, 0, -2, -4 or -8 exactly on the bands ≤7, ≤12, ≤17, ≤22, ≤27 and above |
| Values.DcModifierAntitone | src/updateDatabases.ts:222-230 | a higher difficulty never gives a better modifier |
| Values.DcTitleOf | src/updateDatabases.ts:223-229 | the difficulty printed in the span's title attribute reads back as the number printed |
| Values.DcToModifier | src/updateDatabases.ts:222-230 | the rendered span's title reads back as the difficulty, and the span shows that difficulty's modifier label |
| Values.DcModifierExamples | src/updateDatabases.ts:225-229 | DC 15 shows a bare die, DC 25 gives -4, and DC 30 shows "-8" with no die |
| Values.GetRange | src/updateDatabases.ts:300-306 | the range is empty exactly when the range in feet floors to one square (5 ft) |
| Values.GetRangeBands | src/updateDatabases.ts:300-306 | otherwise the three bands read back as the base, twice the base and four times the base |
| Values.NoteWords | src/updateDatabases.ts:288-296 | each of magic, adamantine, alchemical silver, reach and two hands is listed exactly when its property flag is set, and nothing else is listed |
| Values.NoteWordsOrdered | src/updateDatabases.ts:289-296 | the notes are entries of the list magic, adamantine, alchemical silver, reach, two hands taken at strictly increasing positions: they keep that order and no note appears twice |
| Values.CreateNotes | src/updateDatabases.ts:288-298 | the notes are the collected words joined with ", ", and they are empty exactly when none of the five property flags is set |
| Values.CreateNotesExample | src/updateDatabases.ts:288-298 | reach and two hands alone give "reach, two hands" |
| Values.CreateAdditionalStat | src/updateDatabases.ts:479-491 | the key is present exactly when the value is truthy, no other key appears, and the entry is a String stat with that label and value |
| Values.Capitalize | src/updateDatabases.ts:216-220 | a falsy value is returned as it is; otherwise the text keeps its length and all but its first character, and the first character is its upper-case form (a–z become A–Z, any other character is kept) |
| Rewrites.ModuleDir | src/updateDatabases.ts:235 | the path pattern of a module is never empty |
| Rewrites.ReplacePaths | src/updateDatabases.ts:232-236 | a falsy text is returned as it is; a string has every `modules/<src>/` replaced by `modules/<target>/`; the result is a string exactly when the input is |
| Rewrites.ReplacePathsNoMatch | src/updateDatabases.ts:232-236 | a text that mentions no source module path is unchanged |
| Rewrites.ReplacePathsFirst | src/updateDatabases.ts:235 | the first source module path in a text becomes the target module path |
| Rewrites.FixFlags | src/updateDatabases.ts:273-280 | flags without a truthy source bundle are unchanged; otherwise the bundle moves to the target key, the source key is deleted, and every other key is kept |
| Rewrites.FixFlagsMovesBundle | src/updateDatabases.ts:273-280 | with distinct module names, no truthy bundle is left under the source name, and a bundle that was there now sits under the target name |
| Rewrites.FixFlagsSameName | src/updateDatabases.ts:276-277 | with equal names, the delete undoes the assignment and the bundle is lost |
| Rewrites.FixupDcs | src/updateDatabases.ts:254-256 | a falsy text is returned as it is; any other text goes through the free-text rewrite |
| Rewrites.FixupText | src/updateDatabases.ts:254-256 | the empty string is kept; any other string goes through the free-text rewrite |
| Rewrites.Secret | src/updateDatabases.ts:282-286 | a falsy text is returned as it is; a truthy one is rewritten and wrapped in a secret section |
| ItemConversion.GetItemType | src/updateDatabases.ts:308-312 | a trinket is gear; any other type is looked up, and an unlisted type gives undefined, not an error |
| ItemConversion.GetItemTypeCoversTable | src/updateDatabases.ts:308-312 | every listed source type gets a target type; spells become powers, feats edges and loot gear |
| ItemConversion.ConvertEffect | src/updateDatabases.ts:314-319 | the effect is disabled and all its other fields are kept |
| ItemConversion.ConvertEffects | src/updateDatabases.ts:326 | every effect is disabled, with count and order kept |
| ItemConversion.WeaponSkill | src/updateDatabases.ts:344-347 | melee attacks use Fighting, ranged attacks Shooting, and anything else Athletics |
| ItemConversion.WeaponStatsOf | src/updateDatabases.ts:328-363 | the weapon block fails, as `createNotes` does, exactly when the weapon has no `properties` |
| ItemConversion.WeaponStatsContent | src/updateDatabases.ts:330-362 | the weapon block's fields: a Throw action exactly for thrown melee weapons; AP 1 for magic weapons; damage with `@mod` turned into `@str`; minimum strength from the leading die or d4; the range, heavy and reload flags; and the constants |
| ItemConversion.ArmorBonus | src/updateDatabases.ts:368-372 | light armour gives 2, medium 3, heavy 4, and anything else 0 |
| ItemConversion.ArmorMinStr | src/updateDatabases.ts:381-385 | the minimum strength die is d6/d8/d10 for light/medium/heavy armour, and d4 otherwise |
| ItemConversion.ArmorStatsOf | src/updateDatabases.ts:365-390 | the armour block fails exactly when the item has no `armor` block; otherwise it holds the bonus, minimum strength, torso-and-arms locations and the constants |
| ItemConversion.ItemDescription | src/updateDatabases.ts:393 | the description is the secret section of the unidentified text followed by the rewritten description; a missing or null unidentified text is spliced in as "undefined" or "null", and an empty one adds nothing |
| ItemConversion.ConvertItem | src/updateDatabases.ts:321-408 | the item converts exactly when a weapon has properties and armour has an armour block; otherwise the error names the item |
| ItemConversion.ConvertItemResult | src/updateDatabases.ts:321-408 | the converted item has its type mapped, image path rewritten, flags moved and effects off; it has a rebuilt system block, with weapon stats for weapons and armour stats for armour |
| ItemConversion.ConvertItems | src/updateDatabases.ts:723 | the list converts exactly when every item does, and then element by element in order; otherwise the error is the first failing item's |
| SceneConversion.ConvertToken | src/updateDatabases.ts:410-422 | no actor overrides and no bar bindings; texture path rewritten; flags moved; light and sight ranges divided by five, keeping bright within dim |
| SceneConversion.ConvertPlaceable | src/updateDatabases.ts:702-712 | the texture path is rewritten, and the flags are the result of moving the bundle off the source module onto the target |
| SceneConversion.ConvertScene | src/updateDatabases.ts:682-717 | identity kept; paths and flags rewritten; an inch grid; lights and sounds scaled down; tiles, notes and tokens converted one by one in order; no source-module flags left in the scene |
| SceneConversion.ConvertSceneLightExample | src/updateDatabases.ts:691-695 | a 30 ft / 60 ft light becomes 6 / 12 inches |
| ActorConversion.AbilityValue | src/updateDatabases.ts:448-450 | the ability score minus nine; a missing ability is the error the dereference throws |
| ActorConversion.ScoreDieExamples | src/updateDatabases.ts:556-561 | scores 10, 12, 14, 16 and 18 give d4, d6, d8, d10 and d12, and 23 gives d12+1 |
| ActorConversion.ScoreDieMonotone | src/updateDatabases.ts:556-561 | a higher ability score never gives a smaller die or modifier |
| ActorConversion.AbilityModifier | src/updateDatabases.ts:452-458 | a missing ability gives 0; otherwise the modifier is half the distance from 10, rounded down |
| ActorConversion.CrProficiencyBands | src/updateDatabases.ts:467 | challenge ratings up to 4 give +2, up to 8 give +3 and up to 12 give +4; the bonus never falls as the rating rises |
| ActorConversion.ProfBonus | src/updateDatabases.ts:460-470 | a truthy skill `prof` wins; otherwise the actor's proficiency or the challenge-rating bonus is multiplied by the skill's proficiency level; otherwise 0 |
| ActorConversion.SkillValue | src/updateDatabases.ts:472-477 | a missing skill gives 0; otherwise its ability modifier plus its proficiency bonus |
| ActorConversion.BestSkillValue | src/updateDatabases.ts:499 | the value is the maximum of the source skills' values, attained by one of them |
| ActorConversion.CreateSkill | src/updateDatabases.ts:433-446 | a skill item named as asked, with the converted die, the attribute the table lists for that name (none for an unlisted name) and the core-skill flag exactly for the five core skills |
| ActorConversion.UnskilledAttemptDie | src/updateDatabases.ts:520 | the unskilled attempt rolls d4-2, has no attribute and is not a core skill |
| ActorConversion.CommonKnowledgeSkill | src/updateDatabases.ts:440-442 | Common Knowledge is a core skill but gets no attribute |
| ActorConversion.AggregatedSkills | src/updateDatabases.ts:497-501 | at most one skill item per table entry, each created as a skill |
| ActorConversion.AggregatedSkillsComplete | src/updateDatabases.ts:497-501 | every table entry whose best source value is positive yields its skill item |
| ActorConversion.AggregatedSkillsSound | src/updateDatabases.ts:497-501 | every skill item comes from a table entry whose best source value is positive |
| ActorConversion.TargetSkills | src/updateDatabases.ts:497-501 | the aggregated skills are all skill items |
| ActorConversion.FindWeapon | src/updateDatabases.ts:503-504 | the first owned proficient weapon of the given attack kind, or none when no owned item is one |
| ActorConversion.MeleeAbility | src/updateDatabases.ts:506 | the melee weapon's own ability if set; otherwise dex for a finesse weapon and str otherwise |
| ActorConversion.RangedAbility | src/updateDatabases.ts:507 | the ranged weapon's own ability if set, and dex otherwise |
| ActorConversion.CastingSkillName | src/updateDatabases.ts:512-518 | Spellcasting exactly for int or cha spellcasters, Faith exactly for wis spellcasters, and none otherwise |
| ActorConversion.CastingSkills | src/updateDatabases.ts:512-518 | no skill for a non-caster; otherwise that one skill, rolled with the casting ability, or the error when that ability is missing |
| ActorConversion.AttackSkills | src/updateDatabases.ts:509-510 | Fighting and Shooting, rolled with the melee and ranged abilities; the error names the first of them that is missing |
| ActorConversion.ActorSkills | src/updateDatabases.ts:497-520 | the skills can be built exactly when the attack and casting abilities exist; otherwise the error names the missing ability |
| ActorConversion.ActorSkillsAreSkillItems | src/updateDatabases.ts:497-520 | every skill item pushed is a skill with no flags and no effects |
| ActorConversion.ActorSkillsOrder | src/updateDatabases.ts:497-520 | the order pushed: the aggregated skills, then Fighting and Shooting, then the casting skill if any, then the unskilled attempt |
| ActorConversion.TargetAttributesOf | src/updateDatabases.ts:555-561 | the five dice exist exactly when all six abilities do; each die is its ability's, with spirit taking the better of wis and cha; otherwise the error names a missing ability |
| ActorConversion.SpiritTakesBetter | src/updateDatabases.ts:558 | spirit is never a smaller die than wisdom or charisma alone would give |
| ActorConversion.CustomLanguages | src/updateDatabases.ts:524 | at most one language per `;`-separated part; each is non-empty, with no white space at either end |
| Strings.TrimExamples | src/updateDatabases.ts:524 | `trim` removes a Unicode space separator (U+3000) at the end, as it does an ASCII space |
| ActorConversion.CustomLanguagesMembers | src/updateDatabases.ts:524 | a language is kept exactly when it is the trimmed text of some part and that text is not empty |
| ActorConversion.CustomLanguagesAppend | src/updateDatabases.ts:524 | the parts are processed one after the other: the languages of two runs of parts are the first run's followed by the second's |
| ActorConversion.CustomLanguagesSingle | src/updateDatabases.ts:524 | one part gives its trimmed text, or nothing when that is empty |
| ActorConversion.LanguageList | src/updateDatabases.ts:522-524 | the listed languages (none when there is no list) come first, followed by the custom ones, and nothing else |
| ActorConversion.CreatureTypeText | src/updateDatabases.ts:526-527 | the label is "Swarm of <size> " for a listed swarm size (nothing otherwise), then the custom type or else the type, capitalised, then " (<subtype>)" for a truthy subtype (nothing otherwise) |
| ActorConversion.CreatureTypeMissing | src/updateDatabases.ts:527 | with no type, custom type or subtype, the label reads "undefined" |
| ActorConversion.AdditionalStatsKeys | src/updateDatabases.ts:531-536 | languages, alignment, creature type and CR are each present exactly when their value is truthy, and no other key appears |
| ActorConversion.AdditionalStatsValues | src/updateDatabases.ts:531-536 | a present entry carries its label and its value: the languages joined with ", ", the alignment text, the creature type label and the CR number |
| ActorConversion.BiographyTemplateShape | src/updateDatabases.ts:541-548 | the template is the six sections (empty when missing) plus seven indented line breaks and nothing else; it opens with the biography line and closes with the flaw line and a last indented line break |
| ActorConversion.BiographyLines | src/updateDatabases.ts:541-548 | the template is an empty line, then biography, background, trait, ideal, bond and flaw in that order, then an empty line, each line opened by a line break and the indentation |
| ActorConversion.TargetDetailsOf | src/updateDatabases.ts:537-554 | notes, appearance and the biography template go through the free-text rewrite (a missing text as ""), there is no archetype, and the species is the race or "" |
| ActorConversion.SpeedOf | src/updateDatabases.ts:562-570 | the speed is the walking speed in inches; the running die grows one step per two inches above six |
| ActorConversion.SpeedExamples | src/updateDatabases.ts:528-569 | no walking speed gives 6 inches and d6; 40 ft gives 8 inches and d7; 25 ft gives 5 inches |
| ActorConversion.StatsOf | src/updateDatabases.ts:562-570 | size and scale come from the size table (0 and 0 for an unlisted size), and the speed comes from the walking speed |
| ActorConversion.SenseItems | src/updateDatabases.ts:581-618 | Darkvision once for darkvision; Blindsense twice for blindsight; each a special ability |
| ActorConversion.ConvertActor | src/updateDatabases.ts:493-621 | the actor converts exactly when every ability it reads exists and every owned item converts; a missing ability is reported before a failing item |
| ActorConversion.ConvertActorShell | src/updateDatabases.ts:574-618 | identity kept; image, token and flags rewritten; effects off; items are the converted own items, then the skill items, then the sense items |
| ActorConversion.ConvertActorSystem | src/updateDatabases.ts:530-572 | the system block holds the additional stats, rewritten texts, trait dice, size, scale and speed computed from the source block, and is not a wild card |
| ActorConversion.ConvertActorMissingAbilityFirst | src/updateDatabases.ts:509-561 | an actor lacking an ability the conversion reads fails, and the error names one of those abilities |
| RecordConversion.ConvertPage | src/updateDatabases.ts:645-651 | a page with truthy text has its paths and text rewritten, and any other page keeps its text; the flags are the page's flags with the bundle moved |
| RecordConversion.ConvertJournal | src/updateDatabases.ts:642-654 | identity kept; flags moved; pages converted one by one in order; no source-module flags left |
| RecordConversion.ConvertResult | src/updateDatabases.ts:672-677 | image path rewritten; text has its paths rewritten and then goes through the free-text rewrite; empty text stays empty; the flags are the result's flags with the bundle moved |
| RecordConversion.ConvertTable | src/updateDatabases.ts:668-680 | identity kept; image and flags rewritten; results converted one by one in order; no source-module flags left |
| RecordConversion.ConvertTrack | src/updateDatabases.ts:659-663 | the sound path is rewritten, and the flags are the sound's flags with the bundle moved |
| RecordConversion.ConvertPlaylist | src/updateDatabases.ts:656-666 | identity kept; flags moved; sounds converted one by one in order; no source-module flags left |
| RecordConversion.ApiCallAt | src/updateDatabases.ts:634 | a match is `get`, `set`, `getFlag` or `register`, then `(`, a quote, the module name and a quote |
| RecordConversion.ApiCallAtCallPrefix | src/updateDatabases.ts:634 | every such call prefix, with either kind of quote, is recognised |
| RecordConversion.RenameApiCallsRenamesCall | src/updateDatabases.ts:634 | a call prefix naming the source module at the point the scan has reached is renamed to the target module, keeping the call name and quotes, and the scan goes on after it |
| RecordConversion.RenameApiCallsNoCall | src/updateDatabases.ts:634 | a command with no call naming the source module is unchanged |
| RecordConversion.RenameApiCallsSameName | src/updateDatabases.ts:634 | renaming a module to itself changes nothing |
| RecordConversion.ConvertMacro | src/updateDatabases.ts:623-640 | identity kept; image path rewritten; a shipped replacement overrides the command; the command has its API calls renamed when truthy; flags moved |
| RecordConversion.ConvertMacroSameName | src/updateDatabases.ts:623-640 | converting into the same module name leaves a macro without a replacement with its command unchanged |
| AdventureConversion.ConvertActors | src/updateDatabases.ts:722 | the actor list converts exactly when every actor does, and then element by element in order |
| AdventureConversion.ConvertJournals | src/updateDatabases.ts:724 | every journal converted, in order |
| AdventureConversion.ConvertMacros | src/updateDatabases.ts:725 | every macro converted, in order |
| AdventureConversion.ConvertPlaylists | src/updateDatabases.ts:726 | every playlist converted, in order |
| AdventureConversion.ConvertScenes | src/updateDatabases.ts:727 | every scene converted, in order |
| AdventureConversion.ConvertTables | src/updateDatabases.ts:728 | every roll table converted, in order |
| AdventureConversion.AdventureConvertibleParts | src/updateDatabases.ts:722-723 | the adventure converts exactly when its actor list and its item list do |
| AdventureConversion.ConvertAdventure | src/updateDatabases.ts:719-731 | the adventure converts exactly when every actor and every item does; an actor failure is reported before an item failure |
| AdventureConversion.ConvertAdventureResult | src/updateDatabases.ts:719-731 | identity kept; image and flags rewritten; all seven collections converted element by element in order |
| AdventureConversion.ConvertItemMigrates | src/updateDatabases.ts:321-408 | a converted item carries no source-module flags and no active effect, and has the target system block |
| AdventureConversion.ConvertItemsMigrate | src/updateDatabases.ts:723 | every converted item is migrated in that sense |
| AdventureConversion.SkillItemsMigrated | src/updateDatabases.ts:433-446 | created skill items carry no flags and no effects |
| AdventureConversion.SenseItemsMigrated | src/updateDatabases.ts:581-618 | created sense items carry no flags and no effects |
| AdventureConversion.ConvertedActorItemsMigrate | src/updateDatabases.ts:578-579 | owned, skill and sense items alike carry no source-module flags and no active effect |
| AdventureConversion.ActorShellMigrates | src/updateDatabases.ts:574-579 | a converted actor, its prototype token and its items carry no source-module flags and no active effect |
| AdventureConversion.ConvertActorMigrates | src/updateDatabases.ts:493-621 | the same for the actor convertActor returns |
| AdventureConversion.ConvertActorsMigrate | src/updateDatabases.ts:722 | the same for every actor of the list |
| AdventureConversion.CollectionsMigrate | src/updateDatabases.ts:724-728 | converted journals, macros, playlists, scenes and tables carry no source-module flags anywhere |
| AdventureConversion.ConvertAdventureMigrates | src/updateDatabases.ts:719-731 | no flag bundle anywhere in a converted adventure is left under the source module name, and no effect is active |
| AdventureConversion.AdventureRecord.RewriteShell | src/updateDatabases.ts:720-721 | only the image path and the flags of the record change, and both are rewritten |
| AdventureConversion.AdventureRecord.ConvertActorList | src/updateDatabases.ts:722 | the actor list is replaced by the converted list when every actor converts; otherwise the record is unchanged and the failure returned |
| AdventureConversion.AdventureRecord.ConvertItemList | src/updateDatabases.ts:723 | the same for the item list |
| AdventureConversion.AdventureRecord.ConvertDocuments | src/updateDatabases.ts:724-728 | only the journal, macros, playlists, scenes and tables change, each replaced by its converted list |
| AdventureConversion.AdventureRecord.Convert | src/updateDatabases.ts:719-731 | the record ends as `convertAdventure`'s result exactly when the adventure converts; on a failure the error is the conversion's, the image and flags are already rewritten, and the actors are too if they converted |
| ManifestUpdate.LastSegment | src/updateModuleJson.ts:6 | the last segment of a path holds no separator |
| ManifestUpdate.LastSegmentSpec | src/updateModuleJson.ts:6 | the last segment is the suffix after the last separator, or the whole path when there is none |
| ManifestUpdate.StripTrailingSlashesSpec | src/updateModuleJson.ts:6 | only a run of trailing separators is removed |
| ManifestUpdate.Basename | src/updateModuleJson.ts:6 | the module name holds no separator |
| ManifestUpdate.BasenameEmpty | src/updateModuleJson.ts:6 | the name is empty exactly when the path consists only of separators |
| ManifestUpdate.BasenameOfChild | src/updateModuleJson.ts:6 | a module directory `<dir>/<name>`, with or without trailing separators, is named `<name>` |
| ManifestUpdate.RetargetSystems | src/updateModuleJson.ts:13-16 | an entry whose id is the source system id is replaced by the whole target config; every other entry is kept; length and order are preserved |
| ManifestUpdate.RetargetSystemsDropsSource | src/updateModuleJson.ts:13-16 | when the target id differs, no entry names the source system afterwards |
| ManifestUpdate.RetargetSystemsNamesTarget | src/updateModuleJson.ts:13-16 | every entry that named the source system now names the target |
| ManifestUpdate.Suffixed | src/updateModuleJson.ts:12 | the text as a template literal prints it, followed by " (<target id>)" |
| ManifestUpdate.SuffixedUndefined | src/updateModuleJson.ts:12 | a missing title prints as "undefined" before the suffix |
| ManifestUpdate.RelabelPack | src/updateModuleJson.ts:17-21 | the label gets the suffix; `system` is set to the target id; every other key and value is kept; a pack with its label held apart from its other keys stays so |
| ManifestUpdate.RelabelPacks | src/updateModuleJson.ts:17-21 | every pack relabelled, with count and order kept |
| ManifestUpdate.Manifest.Update | src/updateModuleJson.ts:11-23 | id becomes the directory name; title, systems and packs are rewritten as above; `protected` becomes false; the misspelt `mainfest` becomes "" and `manifest` is left as it was |

## Left out

- Database access, not modelled because it is I/O and concurrency: the nedb find, remove, insert and compaction in `convertAdventureDb`, and the loop in `updateDatabases` over the manifest's Adventure packs (`src/updateDatabases.ts:733-762`). The parallel `Promise.all` is also left out. Each record's conversion is modelled as one call.
- Reading and writing `module.json` in `updateModuleJson`, which is I/O.
- `join` of the manifest path.
- Node's `path.basename` on Windows-style paths, with backslash separators and drive letters. Only POSIX paths are modelled.
- The regular-expression pipeline of `fixupDcs` and `replaceSkillName` (`src/updateDatabases.ts:238-271`). It is the parameter `Conversion.fixupDcs`. Only its guard, which returns a falsy text unchanged, is modelled. Nothing is claimed about what the pipeline does to a text.
- The hand-written macro files under `extras/macros`, which are read from disk. They are the map `Conversion.macroOverrides`, keyed by macro id.
- `generateId`: created items and extra actions carry the placeholder id `Generated`. The random ids are not modelled.
- Floating point: document numbers are exact reals, so rounding of `/ 5` and `/ 3` is not modelled. `NaN` and infinities are not modelled either.
- ActorConversion.AbilityValue: an ability without a `value` is not modelled. The `?? 10` default of `getAbilityValue` (src/updateDatabases.ts:449) is therefore absent, and abilities always carry a number.
- In-place mutation of nested documents is modelled on values. Each converter is a function from the old document to the new one. This is equivalent because every caller stores the result back where the document came from, and documents read from the store share no objects. Only the Adventure record itself (`AdventureRecord`) and the manifest (`Manifest`) are classes updated field by field.
- AdventureConversion.AdventureRecord.ConvertActorList: on a failure the model leaves the actor list as it was. The source has by then already rewritten, in place, the actors before the failing one and part of the failing one. The same holds for `ConvertItemList` and items. The failed record is never written back to the store, so this partial state is not observable.
- Fields the code never reads are not modelled: the rest of a document's JSON that is copied through unchanged.
- The unknown item type: the code maps an unknown type to `undefined` and carries on (`src/updateDatabases.ts:311`); `GetItemType` gives `None`.
- ManifestUpdate.Manifest.Update: a manifest without `relationships` or `packs` makes the source throw a `TypeError`. The model takes both as present. Systems entries and packs are modelled as JSON objects, so a `null` entry, which would also throw, cannot occur.
- Rewrites.ReplacePaths: takes both module names as literal text. The source builds its regular expression from the source name without escaping it, and puts the target name into a replacement string, where `$` sequences are expanded (`src/updateDatabases.ts:235`). A source name containing `.`, `+`, `(` or another pattern character, or a target name containing `$&` or `$1`, therefore behaves differently in the source than in the model.
- RecordConversion.RenameApiCalls: takes both module names as literal text in the same way. The source pastes the source name unescaped into the call pattern and the target name into the replacement string (`src/updateDatabases.ts:634`), with the same consequences for pattern characters and `$` sequences.
- Tables.LookupItemType and Tables.LookupSize: `ITEM_TYPE` and `SIZE_MAP` are plain objects, so in the source a key such as `constructor` or `toString` finds an `Object.prototype` member (`src/updateDatabases.ts:311`, `526`, `563`). The model gives `None` for every key the tables do not list.
- Case mapping in `capitalize` and `toLowerCase` covers ASCII letters only. Unicode case mapping is not modelled.
- Not part of this model: `src/replaceModuleName.ts`, `src/copyModule.ts`, `src/generateId.ts`, `src/index.ts` and the macro scripts under `extras/`.
