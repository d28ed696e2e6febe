/**
 * updateModuleJson: the module manifest (`module.json`) of the converted copy
 * is renamed after its directory, retitled, pointed at the target game system
 * and made non-updatable. The file read and write around it are not modelled.
 */
module ManifestUpdate {
  import opened Wrappers
  import opened JsValues

  // ---------------------------------------------------------------------------
  // path.basename, POSIX flavour

  function StripTrailingSlashes(p: string): string
  {
    if p != "" && p[|p| - 1] == '/' then StripTrailingSlashes(p[..|p| - 1]) else p
  }

  /** What is stripped is a run of separators at the end, and nothing more. */
  lemma {:induction false} StripTrailingSlashesSpec(p: string)
    ensures var r := StripTrailingSlashes(p);
      && r <= p
      && (r == "" || r[|r| - 1] != '/')
      && forall i :: |r| <= i < |p| ==> p[i] == '/'
  {
    if p != "" && p[|p| - 1] == '/' {
      StripTrailingSlashesSpec(p[..|p| - 1]);
    }
  }

  /** The text after the last `/` (all of it when there is none). */
  function LastSegment(p: string): (r: string)
    ensures '/' !in r
  {
    if p == "" || p[|p| - 1] == '/' then "" else LastSegment(p[..|p| - 1]) + [p[|p| - 1]]
  }

  /** The last segment is a suffix of the path, preceded by a separator unless it is the whole path. */
  lemma {:induction false} LastSegmentSpec(p: string)
    ensures var r := LastSegment(p);
      && |r| <= |p| && r == p[|p| - |r|..]
      && (|r| < |p| ==> p[|p| - |r| - 1] == '/')
  {
    if p != "" && p[|p| - 1] != '/' {
      LastSegmentSpec(p[..|p| - 1]);
    }
  }

  /** `basename(path)`: the last path segment, trailing separators ignored. */
  function Basename(p: string): (r: string)
    ensures '/' !in r
  {
    LastSegment(StripTrailingSlashes(p))
  }

  /** Only a path made of separators alone (or the empty path) has an empty basename. */
  lemma BasenameEmpty(p: string)
    ensures Basename(p) == "" <==> forall i :: 0 <= i < |p| ==> p[i] == '/'
  {
    var stripped := StripTrailingSlashes(p);
    StripTrailingSlashesSpec(p);
    LastSegmentSpec(stripped);
    assert stripped != "" ==> stripped[|stripped| - 1] == p[|stripped| - 1];
  }

  lemma {:induction false} LastSegmentOfChild(dir: string, name: string)
    requires '/' !in name
    ensures LastSegment(dir + "/" + name) == name
    decreases |name|
  {
    if name == "" {
    } else {
      var p := dir + "/" + name;
      var init := name[..|name| - 1];
      assert p[..|p| - 1] == dir + "/" + init;
      assert p[|p| - 1] == name[|name| - 1];
      LastSegmentOfChild(dir, init);
      assert init + [name[|name| - 1]] == name;
    }
  }

  lemma {:induction false} StripSlashes(s: string, k: nat)
    requires s == "" || s[|s| - 1] != '/'
    ensures StripTrailingSlashes(s + seq(k, _ => '/')) == s
    decreases k
  {
    if k > 0 {
      var p := s + seq(k, _ => '/');
      assert p[..|p| - 1] == s + seq(k - 1, _ => '/');
      StripSlashes(s, k - 1);
    } else {
      assert s + seq(0, _ => '/') == s;
    }
  }

  /** The module directory `dir/name`, written with or without trailing separators, is named `name`. */
  lemma BasenameOfChild(dir: string, name: string, trailing: nat)
    requires name != "" && '/' !in name
    ensures Basename(dir + "/" + name + seq(trailing, _ => '/')) == name
  {
    var p := dir + "/" + name;
    assert p[|p| - 1] == name[|name| - 1];
    StripSlashes(p, trailing);
    LastSegmentOfChild(dir, name);
  }

  // ---------------------------------------------------------------------------
  // relationships.systems

  /** The target module's configuration object; it always carries its `id`. */
  datatype TargetConfig = TargetConfig(id: string, rest: map<string, Json>) {
    function Object(): (o: map<string, Json>)
      ensures "id" in o && o["id"] == JStr(id)
    {
      rest["id" := JStr(id)]
    }
  }

  /** `system.id === srcModuleId`: a strict comparison, so only a string id can match. */
  predicate NamesModule(entry: map<string, Json>, moduleId: string) {
    "id" in entry && entry["id"] == JStr(moduleId)
  }

  /** The `relationships.systems.map(…)` step. */
  function RetargetSystems(systems: seq<map<string, Json>>, srcModuleId: string, target: TargetConfig)
    : (r: seq<map<string, Json>>)
    ensures |r| == |systems|
    ensures forall i :: 0 <= i < |systems| && NamesModule(systems[i], srcModuleId) ==> r[i] == target.Object()
    ensures forall i :: 0 <= i < |systems| && !NamesModule(systems[i], srcModuleId) ==> r[i] == systems[i]
  {
    seq(|systems|, i requires 0 <= i < |systems| =>
      if NamesModule(systems[i], srcModuleId) then target.Object() else systems[i])
  }

  /** After the rewrite the source system is no longer named, unless the target has the same id. */
  lemma RetargetSystemsDropsSource(systems: seq<map<string, Json>>, srcModuleId: string, target: TargetConfig)
    requires target.id != srcModuleId
    ensures forall i :: 0 <= i < |systems| ==> !NamesModule(RetargetSystems(systems, srcModuleId, target)[i], srcModuleId)
  {
  }

  /** Every entry that named the source system now names the target. */
  lemma RetargetSystemsNamesTarget(systems: seq<map<string, Json>>, srcModuleId: string, target: TargetConfig)
    ensures forall i :: 0 <= i < |systems| && NamesModule(systems[i], srcModuleId) ==>
      NamesModule(RetargetSystems(systems, srcModuleId, target)[i], target.id)
  {
  }

  // ---------------------------------------------------------------------------
  // packs and title

  /**
   * A compendium pack entry: its `label` (a string, or missing) as `labelText` and every
   * other key it carries in `fields`. The label lives only in `labelText`, so `fields`
   * holds no `label` key (`WellFormed`), and relabelling keeps it that way.
   */
  datatype Pack = Pack(labelText: JsString, fields: map<string, Json>) {
    predicate WellFormed() {
      "label" !in fields
    }
  }

  /** `${text} (${id})`: the display text followed by the target id in parentheses. */
  function Suffixed(text: JsString, targetId: string): (r: string)
    ensures |r| == |text.Show()| + |targetId| + 3
    ensures r[..|text.Show()|] == text.Show()
    ensures r[|text.Show()|..] == " (" + targetId + ")"
  {
    text.Show() + " (" + targetId + ")"
  }

  /** A missing title is shown as the word `undefined`. */
  lemma SuffixedUndefined(targetId: string)
    ensures Suffixed(Undefined, targetId)[..9] == "undefined"
  {
  }

  /** `{...pack, label: …, system: target.id}`. */
  function RelabelPack(pack: Pack, targetId: string): (r: Pack)
    ensures r.labelText == Str(Suffixed(pack.labelText, targetId))
    ensures r.fields.Keys == pack.fields.Keys + {"system"}
    ensures r.fields["system"] == JStr(targetId)
    ensures forall k :: k in pack.fields && k != "system" ==> r.fields[k] == pack.fields[k]
    ensures pack.WellFormed() ==> r.WellFormed()
  {
    Pack(Str(Suffixed(pack.labelText, targetId)), pack.fields["system" := JStr(targetId)])
  }

  /** The `packs.map(…)` step. */
  function RelabelPacks(packs: seq<Pack>, targetId: string): (r: seq<Pack>)
    ensures |r| == |packs| && forall i :: 0 <= i < |packs| ==> r[i] == RelabelPack(packs[i], targetId)
  {
    seq(|packs|, i requires 0 <= i < |packs| => RelabelPack(packs[i], targetId))
  }

  // ---------------------------------------------------------------------------
  // The parsed manifest, updated in place

  /**
   * The fields of the parsed `module.json` that updateModuleJson touches, plus
   * the real `manifest` update URL, which it leaves alone.
   */
  class Manifest {
    var id: string
    var title: JsString
    var systems: seq<map<string, Json>>
    var packs: seq<Pack>
    var isProtected: Option<Json>
    var mainfest: Option<Json>
    var manifest: Option<Json>

    constructor(id: string, title: JsString, systems: seq<map<string, Json>>, packs: seq<Pack>,
                isProtected: Option<Json>, mainfest: Option<Json>, manifest: Option<Json>)
      ensures this.id == id && this.title == title && this.systems == systems && this.packs == packs
      ensures this.isProtected == isProtected && this.mainfest == mainfest && this.manifest == manifest
    {
      this.id := id;
      this.title := title;
      this.systems := systems;
      this.packs := packs;
      this.isProtected := isProtected;
      this.mainfest := mainfest;
      this.manifest := manifest;
    }

    /**
     * updateModuleJson between the read and the write. The module takes the
     * name of its directory; the assignment meant to clear the update URL
     * writes the misspelled key `mainfest`, so `manifest` keeps its value.
     */
    method Update(modulePath: string, srcModuleId: string, target: TargetConfig)
      modifies this
      ensures id == Basename(modulePath)
      ensures title == Str(Suffixed(old(title), target.id))
      ensures systems == RetargetSystems(old(systems), srcModuleId, target)
      ensures packs == RelabelPacks(old(packs), target.id)
      ensures isProtected == Some(JBool(false))
      ensures mainfest == Some(JStr(""))
      ensures manifest == old(manifest)
    {
      id := Basename(modulePath);
      title := Str(Suffixed(title, target.id));
      systems := RetargetSystems(systems, srcModuleId, target);
      packs := RelabelPacks(packs, target.id);
      isProtected := Some(JBool(false));
      mainfest := Some(JStr(""));
    }
  }
}
