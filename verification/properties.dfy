/**
 * What the module rules promise per kind of resource, derived from the
 * category-by-category dispatch that webpack's rule matching is proved to
 * produce.
 */
module DispatchProperties {

  import opened Wrappers
  import opened Text
  import opened Environment
  import opened Patterns
  import opened RuleSet
  import opened WebpackConfig
  import opened ModuleDispatch

  /**
   * JavaScript sources: `source-map-loader` runs first exactly outside `src`,
   * `babel-loader` runs exactly outside `node_modules` or inside it for an
   * `lru` package, and `ts-loader` never runs.
   */
  lemma ScriptDispatch(f: Flags, dir: string, p: string)
    requires IsScript(p)
    ensures DispatchOf(RulesFor(f, dir), p).pre == if StartsWith(p, Resolve(dir, "src")) then [] else [SourceMapLoader]
    ensures BabelLoader in DispatchOf(RulesFor(f, dir), p).normal <==> !InNodeModules(p) || IsLruPackage(p)
    ensures TsLoader !in DispatchOf(RulesFor(f, dir), p).normal
  {
    DispatchMatchesReference(f, dir, p);
    if IsTypeScript(p) {
      TypeScriptIsNotScript(p);
    }
    NormalParts(f, dir, p);
    ScriptLoadersMembers(p);
    AssetLoadersMembers(f, p);
    StyleChainMembers(f, dir, p);
  }

  /** TypeScript sources: `ts-loader` exactly outside `node_modules`, no `babel-loader`, no pre-loader. */
  lemma TypeScriptDispatch(f: Flags, dir: string, p: string)
    requires IsTypeScript(p)
    ensures DispatchOf(RulesFor(f, dir), p).pre == []
    ensures TsLoader in DispatchOf(RulesFor(f, dir), p).normal <==> !InNodeModules(p)
    ensures BabelLoader !in DispatchOf(RulesFor(f, dir), p).normal
  {
    DispatchMatchesReference(f, dir, p);
    TypeScriptIsNotScript(p);
    NormalParts(f, dir, p);
    ScriptLoadersMembers(p);
    AssetLoadersMembers(f, p);
    StyleChainMembers(f, dir, p);
  }

  /**
   * Stylesheets get exactly the style chain (followed by the font loader
   * only when the path also reads as a font with a query): injected with
   * `style-loader` outside production and extracted in production.
   */
  lemma StyleDispatch(f: Flags, dir: string, p: string)
    requires IsStylesheet(p)
    ensures DispatchOf(RulesFor(f, dir), p) ==
      Dispatch([], StyleChain(f, dir, p) + (if IsFont(p) then [if f.isPro then FileLoader else UrlLoader(None)] else []), None)
    ensures DispatchOf(RulesFor(f, dir), p).normal[0] == if f.isPro then MiniCssExtractLoader else StyleLoader
  {
    DispatchMatchesReference(f, dir, p);
    StylesheetIsExclusive(p);
    StyleChainShape(f, dir, p);
  }

  /** A JSON file is the only resource that gets a module type, and it gets `javascript/auto`. */
  lemma ModuleTypeOnlyForJson(f: Flags, dir: string, p: string)
    ensures DispatchOf(RulesFor(f, dir), p).moduleType.Some? <==> IsJson(p)
    ensures IsJson(p) ==> DispatchOf(RulesFor(f, dir), p).moduleType == Some(JavascriptAuto)
    ensures IsJson(p) <==> JsonLoader in DispatchOf(RulesFor(f, dir), p).normal
  {
    DispatchMatchesReference(f, dir, p);
    NormalParts(f, dir, p);
    ScriptLoadersMembers(p);
    AssetLoadersMembers(f, p);
    StyleChainMembers(f, dir, p);
  }

  /** The script loaders a path gets: `ts-loader` and `babel-loader` each for exactly their own sources. */
  lemma ScriptLoadersMembers(p: string)
    ensures TsLoader in ScriptLoaders(p) <==> IsTypeScript(p) && !InNodeModules(p)
    ensures BabelLoader in ScriptLoaders(p) <==> IsScript(p) && (!InNodeModules(p) || IsLruPackage(p))
    ensures forall l :: l in ScriptLoaders(p) ==> l == TsLoader || l == BabelLoader
  {
  }

  /** Which asset loaders a path gets: each asset loader marks exactly its own category. */
  lemma AssetLoadersMembers(f: Flags, p: string)
    ensures JsonLoader in AssetLoaders(f, p) <==> IsJson(p)
    ensures RawLoader in AssetLoaders(f, p) <==> IsDocument(p)
    ensures FileLoader in AssetLoaders(f, p) <==> IsFont(p) && f.isPro
    ensures UrlLoader(None) in AssetLoaders(f, p) <==> IsFont(p) && !f.isPro
    ensures UrlLoader(Some(10000)) in AssetLoaders(f, p) <==> IsImage(p)
    ensures TsLoader !in AssetLoaders(f, p) && BabelLoader !in AssetLoaders(f, p)
  {
    var json := if IsJson(p) then [JsonLoader] else [];
    var raw := if IsDocument(p) then [RawLoader] else [];
    var font := if IsFont(p) then [if f.isPro then FileLoader else UrlLoader(None)] else [];
    var image := if IsImage(p) then [UrlLoader(Some(10000))] else [];
    Regroup(json, raw, font, image);
    assert JsonLoader !in raw && JsonLoader !in font && JsonLoader !in image;
    assert TsLoader !in raw && TsLoader !in font && TsLoader !in image;
    assert BabelLoader !in raw && BabelLoader !in font && BabelLoader !in image;
    assert UrlLoader(None) !in json && UrlLoader(None) !in raw && UrlLoader(None) !in image;
    assert UrlLoader(None) in font <==> IsFont(p) && !f.isPro;
    assert UrlLoader(Some(10000)) !in json && UrlLoader(Some(10000)) !in raw && UrlLoader(Some(10000)) !in font;
    assert AssetLoaders(f, p) == json + raw + font + image;
  }

  /** The style chain holds only style loaders: no script, data, document, font or image loader. */
  lemma StyleChainMembers(f: Flags, dir: string, p: string)
    ensures forall l :: l in StyleChain(f, dir, p) ==>
      !l.TsLoader? && !l.BabelLoader? && !l.JsonLoader? && !l.RawLoader? && !l.FileLoader? && !l.UrlLoader?
  {
    var chain := StyleChain(f, dir, p);
    assert forall i :: 0 <= i < |chain| ==>
      !chain[i].TsLoader? && !chain[i].BabelLoader? && !chain[i].JsonLoader? && !chain[i].RawLoader? && !chain[i].FileLoader? && !chain[i].UrlLoader?;
  }

  /** Where each loader of the normal phase may come from. */
  lemma NormalParts(f: Flags, dir: string, p: string)
    ensures forall l :: l in Expected(f, dir, p).normal <==>
      l in ScriptLoaders(p) || (IsStylesheet(p) && l in StyleChain(f, dir, p)) || l in AssetLoaders(f, p)
  {
  }

  /**
   * Documents get `raw-loader`; fonts get `file-loader` in production and an
   * unlimited `url-loader` otherwise; images get `url-loader` with the
   * 10000-byte limit whatever the mode.
   */
  lemma AssetDispatch(f: Flags, dir: string, p: string)
    ensures RawLoader in DispatchOf(RulesFor(f, dir), p).normal <==> IsDocument(p)
    ensures FileLoader in DispatchOf(RulesFor(f, dir), p).normal <==> IsFont(p) && f.isPro
    ensures UrlLoader(None) in DispatchOf(RulesFor(f, dir), p).normal <==> IsFont(p) && !f.isPro
    ensures UrlLoader(Some(10000)) in DispatchOf(RulesFor(f, dir), p).normal <==> IsImage(p)
  {
    DispatchMatchesReference(f, dir, p);
    NormalParts(f, dir, p);
    ScriptLoadersMembers(p);
    AssetLoadersMembers(f, p);
    StyleChainMembers(f, dir, p);
  }

  /** A path in no category passes through the rules untouched. */
  lemma UnmatchedPassThrough(f: Flags, dir: string, p: string)
    requires !IsScript(p) && !IsTypeScript(p) && !IsStylesheet(p) && !IsJson(p)
    requires !IsDocument(p) && !IsFont(p) && !IsImage(p)
    ensures DispatchOf(RulesFor(f, dir), p) == Dispatch([], [], None)
  {
    DispatchMatchesReference(f, dir, p);
  }

  /**
   * The build mode changes only what stylesheets and fonts get: pre-loaders
   * and module types never depend on it, and neither does anything else.
   */
  lemma ModeAffectsOnlyStylesAndFonts(f1: Flags, f2: Flags, dir: string, p: string)
    ensures DispatchOf(RulesFor(f1, dir), p).pre == DispatchOf(RulesFor(f2, dir), p).pre
    ensures DispatchOf(RulesFor(f1, dir), p).moduleType == DispatchOf(RulesFor(f2, dir), p).moduleType
    ensures !IsStylesheet(p) && !IsFont(p) ==> DispatchOf(RulesFor(f1, dir), p) == DispatchOf(RulesFor(f2, dir), p)
  {
    DispatchMatchesReference(f1, dir, p);
    DispatchMatchesReference(f2, dir, p);
  }
}
