/**
 * The naming rules `plugin`, `feature` and `_addNormalizedPlugin` apply to a module
 * name before it is queued.
 */
module PluginNames {

  predicate EndsWith(s: string, suffix: string) {
    |suffix| <= |s| && s[|s| - |suffix|..] == suffix
  }

  /** `name.endsWith('.js') || name.endsWith('.ts')` */
  predicate HasScriptSuffix(name: string) {
    EndsWith(name, ".js") || EndsWith(name, ".ts")
  }

  /** Drops one trailing `.js` or `.ts`; any other name is kept as it is. */
  function StripScriptSuffix(name: string): (r: string)
    ensures r != name <==> HasScriptSuffix(name)
    ensures r != name ==> name == r + ".js" || name == r + ".ts"
  {
    if HasScriptSuffix(name) then
      assert name == name[..|name| - 3] + name[|name| - 3..];
      name[..|name| - 3]
    else
      name
  }

  /** The module a feature folder is loaded from: its `index` module. */
  function FeatureModuleId(folder: string): (r: string)
    ensures EndsWith(r, "/index")
    ensures var stem := r[..|r| - 6];
      && (stem != folder <==> HasScriptSuffix(folder))
      && (stem != folder ==> folder == stem + ".js" || folder == stem + ".ts")
  {
    var base := StripScriptSuffix(folder);
    assert (base + "/index")[|base|..] == "/index";
    assert (base + "/index")[..|base|] == base;
    base + "/index"
  }

  /** Only one suffix goes: a name ending in two of them keeps the first. */
  lemma StripsOnlyOnce(stem: string)
    ensures StripScriptSuffix(stem + ".js.js") == stem + ".js"
    ensures StripScriptSuffix(stem + ".ts") == stem
  {
    var a := stem + ".js.js";
    assert a[|a| - 3..] == ".js";
    assert a[..|a| - 3] == stem + ".js";
    var b := stem + ".ts";
    assert b[|b| - 3..] == ".ts";
    assert b[..|b| - 3] == stem;
  }
}
