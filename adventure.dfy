/**
 * convertAdventure: the aggregate conversion of one Adventure document. Every
 * collection is mapped through its converter in a fixed order; the first
 * actor or item that cannot be converted aborts the whole document.
 */
module AdventureConversion {
  import opened Wrappers
  import opened JsValues
  import opened Rewrites
  import opened Documents
  import opened ItemConversion
  import opened SceneConversion
  import opened RecordConversion
  import opened ActorConversion

  /** `actors.map(convertActor)`: every actor converted in order; the first failure aborts the list. */
  function ConvertActors(actors: seq<Actor>, cfg: Conversion): (r: Result<seq<Actor>, Failure>)
    requires forall i :: 0 <= i < |actors| ==> IsSourceActor(actors[i])
    ensures r.Ok? <==> forall i :: 0 <= i < |actors| ==> ActorConvertible(actors[i])
    ensures r.Ok? ==>
      |r.value| == |actors| && forall i :: 0 <= i < |actors| ==> ConvertActor(actors[i], cfg) == Ok(r.value[i])
  {
    var f := (a: Actor) requires IsSourceActor(a) => ConvertActor(a, cfg);
    var r := MapResult(actors, f);
    assert forall i :: 0 <= i < |actors| ==> f(actors[i]) == ConvertActor(actors[i], cfg);
    r
  }

  // `.map(convert…)` over the collections that cannot fail.

  function ConvertJournals(xs: seq<Journal>, cfg: Conversion): (r: seq<Journal>)
    ensures |r| == |xs| && forall i :: 0 <= i < |xs| ==> r[i] == ConvertJournal(xs[i], cfg)
  {
    seq(|xs|, i requires 0 <= i < |xs| => ConvertJournal(xs[i], cfg))
  }

  function ConvertMacros(xs: seq<Macro>, cfg: Conversion): (r: seq<Macro>)
    ensures |r| == |xs| && forall i :: 0 <= i < |xs| ==> r[i] == ConvertMacro(xs[i], cfg)
  {
    seq(|xs|, i requires 0 <= i < |xs| => ConvertMacro(xs[i], cfg))
  }

  function ConvertPlaylists(xs: seq<Playlist>, cfg: Conversion): (r: seq<Playlist>)
    ensures |r| == |xs| && forall i :: 0 <= i < |xs| ==> r[i] == ConvertPlaylist(xs[i], cfg)
  {
    seq(|xs|, i requires 0 <= i < |xs| => ConvertPlaylist(xs[i], cfg))
  }

  function ConvertScenes(xs: seq<Scene>, cfg: Conversion): (r: seq<Scene>)
    ensures |r| == |xs| && forall i :: 0 <= i < |xs| ==> r[i] == ConvertScene(xs[i], cfg)
  {
    seq(|xs|, i requires 0 <= i < |xs| => ConvertScene(xs[i], cfg))
  }

  function ConvertTables(xs: seq<RollTable>, cfg: Conversion): (r: seq<RollTable>)
    ensures |r| == |xs| && forall i :: 0 <= i < |xs| ==> r[i] == ConvertTable(xs[i], cfg)
  {
    seq(|xs|, i requires 0 <= i < |xs| => ConvertTable(xs[i], cfg))
  }

  /** The whole document converts: every actor and every item does. */
  predicate AdventureConvertible(adv: Adventure)
    requires IsSourceAdventure(adv)
  {
    (forall i :: 0 <= i < |adv.actors| ==> ActorConvertible(adv.actors[i]))
    && (forall i :: 0 <= i < |adv.items| ==> ItemConvertible(adv.items[i]))
  }

  /** The converted document: identity kept, image and flags rewritten, every collection converted in order. */
  predicate AdventureConverted(adv: Adventure, out: Adventure, cfg: Conversion)
    requires IsSourceAdventure(adv)
  {
    && out.id == adv.id && out.name == adv.name
    && out.img == RewritePath(adv.img, cfg)
    && out.flags == FixFlags(adv.flags, cfg.srcName, cfg.targetName)
    && ConvertActors(adv.actors, cfg) == Ok(out.actors)
    && ConvertItems(adv.items, cfg) == Ok(out.items)
    && out.journal == ConvertJournals(adv.journal, cfg)
    && out.macros == ConvertMacros(adv.macros, cfg)
    && out.playlists == ConvertPlaylists(adv.playlists, cfg)
    && out.scenes == ConvertScenes(adv.scenes, cfg)
    && out.tables == ConvertTables(adv.tables, cfg)
  }

  /** The document converts exactly when its actors do and its items do. */
  lemma AdventureConvertibleParts(adv: Adventure, cfg: Conversion)
    requires IsSourceAdventure(adv)
    ensures AdventureConvertible(adv) <==> ConvertActors(adv.actors, cfg).Ok? && ConvertItems(adv.items, cfg).Ok?
  {
  }

  /** convertAdventure. */
  function ConvertAdventure(adv: Adventure, cfg: Conversion): (r: Result<Adventure, Failure>)
    requires IsSourceAdventure(adv)
    ensures r.Ok? <==> AdventureConvertible(adv)
    ensures ConvertActors(adv.actors, cfg).Err? ==> r == Err(ConvertActors(adv.actors, cfg).error)
    ensures ConvertActors(adv.actors, cfg).Ok? && ConvertItems(adv.items, cfg).Err? ==>
      r == Err(ConvertItems(adv.items, cfg).error)
  {
    var actors := ConvertActors(adv.actors, cfg);
    var items := ConvertItems(adv.items, cfg);
    if actors.Err? then Err(actors.error)
    else if items.Err? then Err(items.error)
    else
      Ok(adv.(
        img := RewritePath(adv.img, cfg),
        flags := FixFlags(adv.flags, cfg.srcName, cfg.targetName),
        actors := actors.value,
        items := items.value,
        journal := ConvertJournals(adv.journal, cfg),
        macros := ConvertMacros(adv.macros, cfg),
        playlists := ConvertPlaylists(adv.playlists, cfg),
        scenes := ConvertScenes(adv.scenes, cfg),
        tables := ConvertTables(adv.tables, cfg)))
  }

  /** A converted document holds every collection converted, in its original order. */
  lemma ConvertAdventureResult(adv: Adventure, cfg: Conversion)
    requires IsSourceAdventure(adv) && AdventureConvertible(adv)
    ensures AdventureConverted(adv, ConvertAdventure(adv, cfg).value, cfg)
  {
  }

  // ---------------------------------------------------------------------------
  // What a converted Adventure looks like

  predicate AllEffectsOff(effects: seq<Effect>) {
    forall i :: 0 <= i < |effects| ==> effects[i].disabled
  }

  /** An item carries no source-module flags and no active effect. */
  predicate ItemMigrated(item: Item, src: string) {
    FlagsMigrated(item.flags, src) && AllEffectsOff(item.effects)
  }

  /** An actor, its prototype token and every item it owns carry no source-module flags and no active effect. */
  predicate ActorMigrated(a: Actor, src: string) {
    && FlagsMigrated(a.flags, src)
    && FlagsMigrated(a.prototypeToken.flags, src)
    && TokenUnbound(a.prototypeToken)
    && AllEffectsOff(a.effects)
    && a.system.TargetActor?
    && forall i :: 0 <= i < |a.items| ==> ItemMigrated(a.items[i], src)
  }

  /** No flag bundle anywhere in the document is left under the source module, and no effect is active. */
  predicate AdventureMigrated(adv: Adventure, src: string) {
    && FlagsMigrated(adv.flags, src)
    && (forall i :: 0 <= i < |adv.actors| ==> ActorMigrated(adv.actors[i], src))
    && (forall i :: 0 <= i < |adv.items| ==> ItemMigrated(adv.items[i], src) && adv.items[i].system.TargetItem?)
    && (forall i :: 0 <= i < |adv.journal| ==> JournalMigrated(adv.journal[i], src))
    && (forall i :: 0 <= i < |adv.macros| ==> FlagsMigrated(adv.macros[i].flags, src))
    && (forall i :: 0 <= i < |adv.playlists| ==> PlaylistMigrated(adv.playlists[i], src))
    && (forall i :: 0 <= i < |adv.scenes| ==> SceneMigrated(adv.scenes[i], src))
    && (forall i :: 0 <= i < |adv.tables| ==> TableMigrated(adv.tables[i], src))
  }

  lemma ConvertItemMigrates(item: Item, cfg: Conversion)
    requires IsSourceItem(item) && ItemConvertible(item) && cfg.srcName != cfg.targetName
    ensures ItemMigrated(ConvertItem(item, cfg).value, cfg.srcName)
    ensures ConvertItem(item, cfg).value.system.TargetItem?
  {
    var out := ConvertItem(item, cfg).value;
    ConvertItemResult(item, cfg);
    FixFlagsMovesBundle(item.flags, cfg.srcName, cfg.targetName);
    assert EffectsDisabled(item.effects, out.effects);
  }

  lemma {:induction false} ConvertItemsMigrate(items: seq<Item>, cfg: Conversion)
    requires AllSourceItems(items) && cfg.srcName != cfg.targetName
    requires ConvertItems(items, cfg).Ok?
    ensures forall i :: 0 <= i < |items| ==>
      ItemMigrated(ConvertItems(items, cfg).value[i], cfg.srcName) && ConvertItems(items, cfg).value[i].system.TargetItem?
  {
    var out := ConvertItems(items, cfg).value;
    forall i | 0 <= i < |items|
      ensures ItemMigrated(out[i], cfg.srcName) && out[i].system.TargetItem?
    {
      ConvertItemMigrates(items[i], cfg);
    }
  }

  lemma ItemsMigratedConcat(a: seq<Item>, b: seq<Item>, c: seq<Item>, src: string)
    requires forall i :: 0 <= i < |a| ==> ItemMigrated(a[i], src)
    requires forall i :: 0 <= i < |b| ==> ItemMigrated(b[i], src)
    requires forall i :: 0 <= i < |c| ==> ItemMigrated(c[i], src)
    ensures forall i :: 0 <= i < |a + b + c| ==> ItemMigrated((a + b + c)[i], src)
  {
  }

  lemma SkillItemsMigrated(items: seq<Item>, src: string)
    requires AllSkillItems(items)
    ensures forall i :: 0 <= i < |items| ==> ItemMigrated(items[i], src)
  {
  }

  lemma SenseItemsMigrated(senses: Senses, src: string)
    ensures forall i :: 0 <= i < |SenseItems(senses)| ==> ItemMigrated(SenseItems(senses)[i], src)
  {
  }

  /** The items of a converted actor: its own converted items, then its skill items, then its sense items. */
  function ConvertedActorItems(actor: Actor, cfg: Conversion): seq<Item>
    requires IsSourceActor(actor) && ActorConvertible(actor)
  {
    ConvertItems(actor.items, cfg).value + ActorSkills(actor).value + SenseItems(actor.system.src.attributes.senses)
  }

  /** Owned, skill and sense items alike carry no source-module flags and no active effect. */
  lemma ConvertedActorItemsMigrate(actor: Actor, cfg: Conversion)
    requires IsSourceActor(actor) && ActorConvertible(actor) && cfg.srcName != cfg.targetName
    ensures forall i :: 0 <= i < |ConvertedActorItems(actor, cfg)| ==> ItemMigrated(ConvertedActorItems(actor, cfg)[i], cfg.srcName)
  {
    var converted := ConvertItems(actor.items, cfg).value;
    var skills := ActorSkills(actor).value;
    var senses := SenseItems(actor.system.src.attributes.senses);
    ConvertItemsMigrate(actor.items, cfg);
    ActorSkillsAreSkillItems(actor);
    SkillItemsMigrated(skills, cfg.srcName);
    SenseItemsMigrated(actor.system.src.attributes.senses, cfg.srcName);
    ItemsMigratedConcat(converted, skills, senses, cfg.srcName);
  }

  /** An actor shell assembled from converted parts carries no source-module flags and no active effect. */
  lemma ActorShellMigrates(actor: Actor, out: Actor, cfg: Conversion)
    requires IsSourceActor(actor) && ActorConvertible(actor) && cfg.srcName != cfg.targetName
    requires ActorShellConverted(actor, out, cfg)
    ensures ActorMigrated(out, cfg.srcName)
  {
    ConvertedActorItemsMigrate(actor, cfg);
    assert out.items == ConvertedActorItems(actor, cfg);
    FixFlagsMovesBundle(actor.flags, cfg.srcName, cfg.targetName);
  }

  lemma ConvertActorMigrates(actor: Actor, cfg: Conversion)
    requires IsSourceActor(actor) && ActorConvertible(actor) && cfg.srcName != cfg.targetName
    ensures ActorMigrated(ConvertActor(actor, cfg).value, cfg.srcName)
  {
    ConvertActorShell(actor, cfg);
    ActorShellMigrates(actor, ConvertActor(actor, cfg).value, cfg);
  }


  lemma ConvertActorsMigrate(actors: seq<Actor>, cfg: Conversion)
    requires forall i :: 0 <= i < |actors| ==> IsSourceActor(actors[i]) && ActorConvertible(actors[i])
    requires cfg.srcName != cfg.targetName
    ensures forall i :: 0 <= i < |actors| ==> ActorMigrated(ConvertActors(actors, cfg).value[i], cfg.srcName)
  {
    forall i | 0 <= i < |actors|
      ensures ActorMigrated(ConvertActors(actors, cfg).value[i], cfg.srcName)
    {
      ConvertActorMigrates(actors[i], cfg);
    }
  }

  lemma CollectionsMigrate(adv: Adventure, cfg: Conversion)
    requires cfg.srcName != cfg.targetName
    ensures var journal := ConvertJournals(adv.journal, cfg);
      forall i :: 0 <= i < |journal| ==> JournalMigrated(journal[i], cfg.srcName)
    ensures var macros := ConvertMacros(adv.macros, cfg);
      forall i :: 0 <= i < |macros| ==> FlagsMigrated(macros[i].flags, cfg.srcName)
    ensures var playlists := ConvertPlaylists(adv.playlists, cfg);
      forall i :: 0 <= i < |playlists| ==> PlaylistMigrated(playlists[i], cfg.srcName)
    ensures var scenes := ConvertScenes(adv.scenes, cfg);
      forall i :: 0 <= i < |scenes| ==> SceneMigrated(scenes[i], cfg.srcName)
    ensures var tables := ConvertTables(adv.tables, cfg);
      forall i :: 0 <= i < |tables| ==> TableMigrated(tables[i], cfg.srcName)
  {
  }

  /**
   * After a successful conversion into a differently named module, no flag
   * bundle anywhere in the document is keyed by the source module, every
   * effect is switched off and every actor and item block is a target block.
   */
  lemma ConvertAdventureMigrates(adv: Adventure, cfg: Conversion)
    requires IsSourceAdventure(adv) && AdventureConvertible(adv) && cfg.srcName != cfg.targetName
    ensures AdventureMigrated(ConvertAdventure(adv, cfg).value, cfg.srcName)
  {
    ConvertAdventureResult(adv, cfg);
    ConvertActorsMigrate(adv.actors, cfg);
    ConvertItemsMigrate(adv.items, cfg);
    CollectionsMigrate(adv, cfg);
  }

  /**
   * The document left behind when the conversion aborts: image and flags are
   * rewritten, the actors too when it was an item that failed, and every
   * later collection is untouched.
   */
  function AbortedConversion(adv: Adventure, cfg: Conversion): (r: Adventure)
    requires IsSourceAdventure(adv)
  {
    var actors := ConvertActors(adv.actors, cfg);
    adv.(img := RewritePath(adv.img, cfg),
         flags := FixFlags(adv.flags, cfg.srcName, cfg.targetName),
         actors := if actors.Ok? then actors.value else adv.actors)
  }

  // ---------------------------------------------------------------------------
  // The stored record, converted in place

  /**
   * An Adventure document as the converter holds it: one object whose fields
   * convertAdventure reassigns one after the other.
   */
  class AdventureRecord {
    var id: string
    var name: string
    var img: string
    var actors: seq<Actor>
    var items: seq<Item>
    var journal: seq<Journal>
    var scenes: seq<Scene>
    var tables: seq<RollTable>
    var macros: seq<Macro>
    var playlists: seq<Playlist>
    var flags: Flags

    /** The document the record currently holds. */
    function View(): Adventure
      reads this
    {
      Adventure(id, name, img, actors, items, journal, scenes, tables, macros, playlists, flags)
    }

    constructor(adv: Adventure)
      ensures View() == adv
    {
      id := adv.id;
      name := adv.name;
      img := adv.img;
      actors := adv.actors;
      items := adv.items;
      journal := adv.journal;
      scenes := adv.scenes;
      tables := adv.tables;
      macros := adv.macros;
      playlists := adv.playlists;
      flags := adv.flags;
    }

    /** The first two steps: the cover image path and the module flags. */
    method RewriteShell(cfg: Conversion)
      modifies this
      ensures View() == old(View()).(img := RewritePath(old(img), cfg),
                                     flags := FixFlags(old(flags), cfg.srcName, cfg.targetName))
    {
      img := RewritePath(img, cfg);
      flags := FixFlags(flags, cfg.srcName, cfg.targetName);
    }

    /** `adventure.actors.map(convertActor)`: the list is replaced only when every actor converts. */
    method ConvertActorList(cfg: Conversion) returns (failure: Option<Failure>)
      requires forall i :: 0 <= i < |actors| ==> IsSourceActor(actors[i])
      modifies this
      ensures failure.None? <==> ConvertActors(old(actors), cfg).Ok?
      ensures failure.None? ==> View() == old(View()).(actors := ConvertActors(old(actors), cfg).value)
      ensures failure.Some? ==> failure.value == ConvertActors(old(actors), cfg).error && View() == old(View())
    {
      var converted := ConvertActors(actors, cfg);
      if converted.Err? {
        return Some(converted.error);
      }
      actors := converted.value;
      return None;
    }

    /** `adventure.items.map(convertItem)`: the list is replaced only when every item converts. */
    method ConvertItemList(cfg: Conversion) returns (failure: Option<Failure>)
      requires forall i :: 0 <= i < |items| ==> IsSourceItem(items[i])
      modifies this
      ensures failure.None? <==> ConvertItems(old(items), cfg).Ok?
      ensures failure.None? ==> View() == old(View()).(items := ConvertItems(old(items), cfg).value)
      ensures failure.Some? ==> failure.value == ConvertItems(old(items), cfg).error && View() == old(View())
    {
      var converted := ConvertItems(items, cfg);
      if converted.Err? {
        return Some(converted.error);
      }
      items := converted.value;
      return None;
    }

    /** The last five steps, which cannot fail: journal, macros, playlists, scenes and tables. */
    method ConvertDocuments(cfg: Conversion)
      modifies this
      ensures View() == old(View()).(journal := ConvertJournals(old(journal), cfg),
                                     macros := ConvertMacros(old(macros), cfg),
                                     playlists := ConvertPlaylists(old(playlists), cfg),
                                     scenes := ConvertScenes(old(scenes), cfg),
                                     tables := ConvertTables(old(tables), cfg))
    {
      journal := ConvertJournals(journal, cfg);
      macros := ConvertMacros(macros, cfg);
      playlists := ConvertPlaylists(playlists, cfg);
      scenes := ConvertScenes(scenes, cfg);
      tables := ConvertTables(tables, cfg);
    }

    /**
     * convertAdventure on the record: image, flags, actors, items, journal,
     * macros, playlists, scenes and tables are reassigned in that order. A
     * failing actor or item aborts the conversion part-way.
     */
    method Convert(cfg: Conversion) returns (failure: Option<Failure>)
      requires IsSourceAdventure(View())
      modifies this
      ensures failure.None? <==> AdventureConvertible(old(View()))
      ensures failure.None? ==> View() == ConvertAdventure(old(View()), cfg).value
      ensures failure.Some? ==> ConvertAdventure(old(View()), cfg) == Err(failure.value)
      ensures failure.Some? ==> View() == AbortedConversion(old(View()), cfg)
    {
      ghost var adv := View();
      AdventureConvertibleParts(adv, cfg);
      RewriteShell(cfg);
      failure := ConvertActorList(cfg);
      if failure.Some? {
        return;
      }
      failure := ConvertItemList(cfg);
      if failure.Some? {
        return;
      }
      ConvertDocuments(cfg);
      ConvertAdventureResult(adv, cfg);
    }
  }
}
