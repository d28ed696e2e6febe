/**
 * The rewrites every converter applies to the fields it owns: module paths,
 * flag bundles keyed by module name, and free text. The configuration carries
 * the source and target module names, the free-text rewrite (the regular
 * expression pipeline that turns difficulty classes and skill names into the
 * target vocabulary, taken here as a given function) and the hand-written
 * replacement macros that ship with the converter, keyed by macro id.
 */
module Rewrites {
  import opened Wrappers
  import opened JsValues
  import opened Strings

  datatype Conversion = Conversion(
    srcName: string,
    targetName: string,
    fixupDcs: string -> string,
    macroOverrides: map<string, string>)

  /** A flag side-table: `undefined`, or an object keyed by module name. */
  type Flags = Option<map<string, Json>>

  // ---------------------------------------------------------------------------
  // replacePaths

  /** The path segment that names a module's own files. */
  function ModuleDir(name: string): (p: string)
    ensures |p| > 0
  {
    "modules/" + name + "/"
  }

  /** Every `modules/<src>/` in a path or text becomes `modules/<target>/`. */
  function RewritePath(s: string, cfg: Conversion): string {
    ReplaceAll(s, ModuleDir(cfg.srcName), ModuleDir(cfg.targetName))
  }

  /**
   * replacePaths: a falsy text (missing, null or empty) is returned as it is;
   * any other text has its module paths rewritten.
   */
  function ReplacePaths(t: JsString, cfg: Conversion): (r: JsString)
    ensures !t.Truthy() ==> r == t
    ensures t.Truthy() ==> r == Str(RewritePath(t.value, cfg))
    ensures t.Str? <==> r.Str?
  {
    if !t.Truthy() then t else Str(RewritePath(t.value, cfg))
  }

  /** A text that mentions no path of the source module is not touched. */
  lemma ReplacePathsNoMatch(t: JsString, cfg: Conversion)
    requires t.Str? ==> NoOccurrenceBefore(t.value, ModuleDir(cfg.srcName), |t.value|)
    ensures ReplacePaths(t, cfg) == t
  {
    if t.Truthy() {
      ReplaceAllNoMatch(t.value, ModuleDir(cfg.srcName), ModuleDir(cfg.targetName));
    }
  }

  /**
   * The text before the first source path is kept, the path is retargeted,
   * and the text after it is rewritten in the same way.
   */
  lemma ReplacePathsFirst(a: string, b: string, cfg: Conversion)
    requires NoOccurrenceBefore(a + ModuleDir(cfg.srcName) + b, ModuleDir(cfg.srcName), |a|)
    ensures ReplacePaths(Str(a + ModuleDir(cfg.srcName) + b), cfg)
      == Str(a + ModuleDir(cfg.targetName) + RewritePath(b, cfg))
  {
    ReplaceAllFirstMatch(a, ModuleDir(cfg.srcName), b, ModuleDir(cfg.targetName));
  }

  // ---------------------------------------------------------------------------
  // fixFlags

  /** The side-table holds a truthy bundle under `name`. */
  predicate CarriesBundle(flags: Flags, name: string) {
    flags.Some? && name in flags.value && flags.value[name].Truthy()
  }

  /**
   * fixFlags: a truthy bundle under the source name is moved (not copied) to
   * the target name; a missing table or a missing or falsy bundle leaves the
   * table as it is.
   */
  function FixFlags(flags: Flags, src: string, target: string): (r: Flags)
    ensures !CarriesBundle(flags, src) ==> r == flags
    ensures CarriesBundle(flags, src) ==>
      && r.Some?
      && src !in r.value
      && (src != target ==> target in r.value && r.value[target] == flags.value[src])
      && (forall k :: k in flags.value && k != src && k != target ==> k in r.value && r.value[k] == flags.value[k])
      && (forall k :: k in r.value ==> k in flags.value || k == target)
  {
    if !CarriesBundle(flags, src) then flags
    else Some(flags.value[target := flags.value[src]] - {src})
  }

  /** Once moved, no truthy bundle is left under the source name, and the target name carries it. */
  lemma FixFlagsMovesBundle(flags: Flags, src: string, target: string)
    requires src != target
    ensures !CarriesBundle(FixFlags(flags, src, target), src)
    ensures CarriesBundle(flags, src) ==> CarriesBundle(FixFlags(flags, src, target), target)
  {
  }

  /** With equal names the assignment is undone by the delete: the bundle is lost. */
  lemma FixFlagsSameName(flags: Flags, name: string)
    requires CarriesBundle(flags, name)
    ensures FixFlags(flags, name, name) == Some(flags.value - {name})
  {
    var m := flags.value;
    assert m[name := m[name]] == m;
  }

  // ---------------------------------------------------------------------------
  // fixupDcs and secret

  /** fixupDcs: a falsy text is returned as it is; any other text goes through the free-text rewrite. */
  function FixupDcs(t: JsString, cfg: Conversion): (r: JsString)
    ensures !t.Truthy() ==> r == t
    ensures t.Truthy() ==> r == Str(cfg.fixupDcs(t.value))
    ensures t.Str? ==> r.Str?
  {
    if !t.Truthy() then t else Str(cfg.fixupDcs(t.value))
  }

  /** `fixupDcs(s)` for a text that is known to be a string. */
  function FixupText(s: string, cfg: Conversion): (r: string)
    ensures s == "" ==> r == ""
    ensures s != "" ==> r == cfg.fixupDcs(s)
  {
    FixupDcs(Str(s), cfg).value
  }

  /** secret: a non-empty text is rewritten and wrapped in a secret section; a falsy one is returned as it is. */
  function Secret(t: JsString, cfg: Conversion): (r: JsString)
    ensures !t.Truthy() ==> r == t
    ensures t.Truthy() ==>
      r == Str("<section class=\"secret\">" + cfg.fixupDcs(t.value) + "</section>")
  {
    if !t.Truthy() then t else Str("<section class=\"secret\">" + FixupText(t.value, cfg) + "</section>")
  }
}
