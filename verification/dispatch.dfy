/**
 * Which loaders the configuration's `module.rules` give a resource path,
 * stated directly per file category, and proved equal to what webpack's
 * rule matching makes of the rule table.
 */
module ModuleDispatch {

  import opened Wrappers
  import opened Text
  import opened Environment
  import opened Patterns
  import opened RuleSet
  import opened WebpackConfig

  /** Paths whose CSS class names stay global: under the project's `node_modules` or `src/style`. */
  predicate GlobalStyle(dir: string, p: string) {
    StartsWith(p, Resolve(dir, "node_modules")) || StartsWith(p, Resolve(dir, "src/style"))
  }

  /** The `sourceMap` option a loader receives, if it takes one. */
  function SourceMapOption(l: Loader): Option<bool> {
    match l
    case CssLoader(css) => Some(css.sourceMap)
    case PostcssLoader(sm) => Some(sm)
    case SassLoader(sm, _, _) => Some(sm)
    case _ => None
  }

  /** The `css-loader` the `oneOf` picks for a path. */
  function CssFor(f: Flags, dir: string, p: string): Loader {
    var global := GlobalStyle(dir, p);
    CssLoader(CssOptions(!global, !f.isPro, if global then None else Some(1), !global))
  }

  /** The stylesheet chain of a path, in order. */
  function StyleChain(f: Flags, dir: string, p: string): seq<Loader> {
    [ if f.isPro then MiniCssExtractLoader else StyleLoader,
      CssFor(f, dir, p),
      PostcssLoader(!f.isPro) ]
    + (if IsSass(p) then [SassLoader(!f.isPro, "@import \"variables.scss\";", [Resolve(dir, "src/style")])] else [])
  }

  /**
   * The stylesheet chain: injection or extraction, exactly one `css-loader`
   * (global or CSS modules by path), `postcss-loader`, and `sass-loader` for
   * Sass sources only; every `sourceMap` option is on exactly outside production.
   */
  lemma StyleChainShape(f: Flags, dir: string, p: string)
    ensures var chain := StyleChain(f, dir, p);
      && |chain| == (if IsSass(p) then 4 else 3)
      && chain[0] == (if f.isPro then MiniCssExtractLoader else StyleLoader)
      && chain[1].CssLoader? && (chain[1].css.modules <==> !GlobalStyle(dir, p))
      && (chain[1].css.importLoaders.Some? <==> !GlobalStyle(dir, p))
      && (forall i :: 0 <= i < |chain| && chain[i].CssLoader? ==> i == 1)
      && chain[2] == PostcssLoader(!f.isPro)
      && (IsSass(p) ==> chain[3].SassLoader? && chain[3].includePaths == [Resolve(dir, "src/style")])
      && (forall i :: 1 <= i < |chain| ==> SourceMapOption(chain[i]) == Some(!f.isPro))
  {
  }

  /** The normal-phase loaders of a script or TypeScript source. */
  function ScriptLoaders(p: string): seq<Loader> {
    (if IsTypeScript(p) && !InNodeModules(p) then [TsLoader] else [])
    + (if IsScript(p) && (!InNodeModules(p) || IsLruPackage(p)) then [BabelLoader] else [])
  }

  /** The normal-phase loaders of data, document, font and image files. */
  function AssetLoaders(f: Flags, p: string): seq<Loader> {
    (if IsJson(p) then [JsonLoader] else [])
    + (if IsDocument(p) then [RawLoader] else [])
    + (if IsFont(p) then [if f.isPro then FileLoader else UrlLoader(None)] else [])
    + (if IsImage(p) then [UrlLoader(Some(10000))] else [])
  }

  /** The dispatch of a path, category by category. */
  function Expected(f: Flags, dir: string, p: string): Dispatch {
    Dispatch(
      if IsScript(p) && !StartsWith(p, Resolve(dir, "src")) then [SourceMapLoader] else [],
      ScriptLoaders(p) + (if IsStylesheet(p) then StyleChain(f, dir, p) else []) + AssetLoaders(f, p),
      if IsJson(p) then Some(JavascriptAuto) else None)
  }

  lemma CssOneOfContribution(f: Flags, dir: string, p: string, e: Enforce)
    ensures Phase(Contribution(Rule(oneOf := CssRules(f, dir)), p), e) == if e == Normal then [CssFor(f, dir, p)] else []
    ensures TypeOf(Contribution(Rule(oneOf := CssRules(f, dir)), p)) == None
  {
    var cssRules := CssRules(f, dir);
    var global := GlobalStyle(dir, p);
    var dirs := GlobalCssDirs(dir);
    assert dirs[0] == Resolve(dir, "node_modules") && dirs[1] == Resolve(dir, "src/style");
    assert Holds(Under(dirs), p) <==> global;
    assert cssRules[1..] == [cssRules[1]];
    var chosen := if global then cssRules[0] else cssRules[1];
    assert RunFirst(cssRules, p) == Contribution(chosen, p);
    assert Contribution(Rule(oneOf := cssRules), p) == [] + [] + RunFirst(cssRules, p);
    LeafContribution(chosen, p, e);
  }

  /** The first nested stylesheet rule: the injecting or extracting loader. */
  lemma InjectRuleDispatch(f: Flags, p: string, e: Enforce)
    ensures Phase(Contribution(Rule(uses := [StyleInjector(f)]), p), e) == if e == Normal then [StyleInjector(f)] else []
    ensures TypeOf(Contribution(Rule(uses := [StyleInjector(f)]), p)) == None
  {
    LeafContribution(Rule(uses := [StyleInjector(f)]), p, e);
  }

  lemma PostcssRuleDispatch(f: Flags, p: string, e: Enforce)
    ensures Phase(Contribution(Rule(uses := [PostcssLoader(!f.isPro)]), p), e) == if e == Normal then [PostcssLoader(!f.isPro)] else []
    ensures TypeOf(Contribution(Rule(uses := [PostcssLoader(!f.isPro)]), p)) == None
  {
    LeafContribution(Rule(uses := [PostcssLoader(!f.isPro)]), p, e);
  }

  lemma SassRuleDispatch(f: Flags, dir: string, p: string, e: Enforce)
    ensures
      var r := Rule(test := Some(Regex(Sass)), uses := [SassOptionsLoader(f, dir)]);
      Phase(Contribution(r, p), e) == if e == Normal && IsSass(p) then [SassOptionsLoader(f, dir)] else []
    ensures TypeOf(Contribution(Rule(test := Some(Regex(Sass)), uses := [SassOptionsLoader(f, dir)]), p)) == None
  {
    LeafContribution(Rule(test := Some(Regex(Sass)), uses := [SassOptionsLoader(f, dir)]), p, e);
  }

  lemma StyleSubRulesPhase(f: Flags, dir: string, p: string, e: Enforce)
    ensures Phase(RunAll(StyleSubRules(f, dir), p), e) == if e == Normal then StyleChain(f, dir, p) else []
  {
    var a, b, c, d := Rule(uses := [StyleInjector(f)]), Rule(oneOf := CssRules(f, dir)),
      Rule(uses := [PostcssLoader(!f.isPro)]), Rule(test := Some(Regex(Sass)), uses := [SassOptionsLoader(f, dir)]);
    assert StyleSubRules(f, dir) == [a, b, c, d];
    PhasesOfFour(a, b, c, d, p, e);
    var pa, pb, pc, pd := Phase(Contribution(a, p), e), Phase(Contribution(b, p), e), Phase(Contribution(c, p), e), Phase(Contribution(d, p), e);
    InjectRuleDispatch(f, p, e);
    CssOneOfContribution(f, dir, p, e);
    PostcssRuleDispatch(f, p, e);
    SassRuleDispatch(f, dir, p, e);
    if e == Normal {
      var sassPart := if IsSass(p) then [SassOptionsLoader(f, dir)] else [];
      assert pa == [StyleInjector(f)] && pb == [CssFor(f, dir, p)] && pc == [PostcssLoader(!f.isPro)] && pd == sassPart;
      assert StyleChain(f, dir, p) == [StyleInjector(f), CssFor(f, dir, p), PostcssLoader(!f.isPro)] + sassPart;
      ThreeThen(StyleInjector(f), CssFor(f, dir, p), PostcssLoader(!f.isPro), sassPart);
    } else {
      assert pa == [] && pb == [] && pc == [] && pd == [];
    }
  }

  lemma ThreeThen<T>(a: T, b: T, c: T, d: seq<T>)
    ensures [a] + ([b] + ([c] + d)) == [a, b, c] + d
  {
  }

  lemma StyleSubRulesType(f: Flags, dir: string, p: string)
    ensures TypeOf(RunAll(StyleSubRules(f, dir), p)) == None
  {
    var a, b, c, d := Rule(uses := [StyleInjector(f)]), Rule(oneOf := CssRules(f, dir)),
      Rule(uses := [PostcssLoader(!f.isPro)]), Rule(test := Some(Regex(Sass)), uses := [SassOptionsLoader(f, dir)]);
    assert StyleSubRules(f, dir) == [a, b, c, d];
    InjectRuleDispatch(f, p, Normal);
    CssOneOfContribution(f, dir, p, Normal);
    PostcssRuleDispatch(f, p, Normal);
    SassRuleDispatch(f, dir, p, Normal);
    TypeOfFour(a, b, c, d, p);
  }

  /** The stylesheet rule contributes the style chain to the normal phase and nothing else. */
  lemma StyleRuleContribution(f: Flags, dir: string, p: string, e: Enforce)
    ensures Phase(Contribution(StyleRule(f, dir), p), e) == if e == Normal && IsStylesheet(p) then StyleChain(f, dir, p) else []
    ensures TypeOf(Contribution(StyleRule(f, dir), p)) == None
  {
    if IsStylesheet(p) {
      assert Own(StyleRule(f, dir)) == [] by {
        assert Tagged(Normal, []) == [];
      }
      assert Contribution(StyleRule(f, dir), p) == RunAll(StyleSubRules(f, dir), p);
      StyleSubRulesPhase(f, dir, p, e);
      StyleSubRulesType(f, dir, p);
    }
  }

  lemma TsRuleDispatch(p: string, e: Enforce)
    ensures Phase(Contribution(TsRule, p), e) == if e == Normal && IsTypeScript(p) && !InNodeModules(p) then [TsLoader] else []
    ensures TypeOf(Contribution(TsRule, p)) == None
  {
    LeafContribution(TsRule, p, e);
  }

  lemma SourceMapRuleDispatch(dir: string, p: string, e: Enforce)
    ensures Phase(Contribution(SourceMapRule(dir), p), e) ==
      if e == Pre && IsScript(p) && !StartsWith(p, Resolve(dir, "src")) then [SourceMapLoader] else []
    ensures TypeOf(Contribution(SourceMapRule(dir), p)) == None
  {
    LeafContribution(SourceMapRule(dir), p, e);
    assert Holds(Under([Resolve(dir, "src")]), p) <==> StartsWith(p, Resolve(dir, "src"));
  }

  /** The two `babel-loader` rules together: outside `node_modules`, or inside it under the `lru` allow-list. */
  lemma BabelRulesDispatch(p: string, e: Enforce)
    ensures Phase(Contribution(BabelRule, p), e) + Phase(Contribution(LruRule, p), e)
      == if e == Normal && IsScript(p) && (!InNodeModules(p) || IsLruPackage(p)) then [BabelLoader] else []
    ensures TypeOf(Contribution(BabelRule, p)) == None && TypeOf(Contribution(LruRule, p)) == None
  {
    LeafContribution(BabelRule, p, e);
    LeafContribution(LruRule, p, e);
    if IsLruPackage(p) {
      LruPackageIsInNodeModules(p);
    }
  }

  lemma ScriptRulesDispatch(dir: string, p: string, e: Enforce)
    ensures Phase(RunAll(ScriptRules(dir), p), e) ==
      (if e == Normal && IsTypeScript(p) && !InNodeModules(p) then [TsLoader] else [])
      + (if e == Pre && IsScript(p) && !StartsWith(p, Resolve(dir, "src")) then [SourceMapLoader] else [])
      + (if e == Normal && IsScript(p) && (!InNodeModules(p) || IsLruPackage(p)) then [BabelLoader] else [])
  {
    var rs := ScriptRules(dir);
    assert rs == [TsRule, SourceMapRule(dir), BabelRule, LruRule];
    PhasesOfFour(TsRule, SourceMapRule(dir), BabelRule, LruRule, p, e);
    TsRuleDispatch(p, e);
    SourceMapRuleDispatch(dir, p, e);
    BabelRulesDispatch(p, e);
    Regroup(Phase(Contribution(TsRule, p), e), Phase(Contribution(SourceMapRule(dir), p), e),
      Phase(Contribution(BabelRule, p), e), Phase(Contribution(LruRule, p), e));
  }

  lemma ScriptRulesType(dir: string, p: string)
    ensures TypeOf(RunAll(ScriptRules(dir), p)) == None
  {
    var rs := ScriptRules(dir);
    assert rs == [TsRule, SourceMapRule(dir), BabelRule, LruRule];
    TsRuleDispatch(p, Normal);
    SourceMapRuleDispatch(dir, p, Normal);
    BabelRulesDispatch(p, Normal);
    TypeOfFour(TsRule, SourceMapRule(dir), BabelRule, LruRule, p);
  }

  lemma JsonRuleDispatch(p: string, e: Enforce)
    ensures Phase(Contribution(JsonRule, p), e) == if e == Normal && IsJson(p) then [JsonLoader] else []
    ensures TypeOf(Contribution(JsonRule, p)) == if IsJson(p) then Some(JavascriptAuto) else None
  {
    LeafContribution(JsonRule, p, e);
  }

  lemma DocumentRuleDispatch(p: string, e: Enforce)
    ensures Phase(Contribution(DocumentRule, p), e) == if e == Normal && IsDocument(p) then [RawLoader] else []
    ensures TypeOf(Contribution(DocumentRule, p)) == None
  {
    LeafContribution(DocumentRule, p, e);
  }

  lemma FontRuleDispatch(f: Flags, p: string, e: Enforce)
    ensures Phase(Contribution(FontRule(f), p), e) ==
      if e == Normal && IsFont(p) then [if f.isPro then FileLoader else UrlLoader(None)] else []
    ensures TypeOf(Contribution(FontRule(f), p)) == None
  {
    LeafContribution(FontRule(f), p, e);
  }

  lemma ImageRuleDispatch(f: Flags, p: string, e: Enforce)
    ensures Phase(Contribution(ImageRule(f), p), e) == if e == Normal && IsImage(p) then [UrlLoader(Some(10000))] else []
    ensures TypeOf(Contribution(ImageRule(f), p)) == None
  {
    LeafContribution(ImageRule(f), p, e);
  }

  lemma AssetRulesDispatch(f: Flags, p: string, e: Enforce)
    ensures Phase(RunAll(AssetRules(f), p), e) ==
      (if e == Normal && IsJson(p) then [JsonLoader] else [])
      + (if e == Normal && IsDocument(p) then [RawLoader] else [])
      + (if e == Normal && IsFont(p) then [if f.isPro then FileLoader else UrlLoader(None)] else [])
      + (if e == Normal && IsImage(p) then [UrlLoader(Some(10000))] else [])
  {
    var rs := AssetRules(f);
    assert rs == [JsonRule, DocumentRule, FontRule(f), ImageRule(f)];
    PhasesOfFour(JsonRule, DocumentRule, FontRule(f), ImageRule(f), p, e);
    JsonRuleDispatch(p, e);
    DocumentRuleDispatch(p, e);
    FontRuleDispatch(f, p, e);
    ImageRuleDispatch(f, p, e);
    Regroup(Phase(Contribution(JsonRule, p), e), Phase(Contribution(DocumentRule, p), e),
      Phase(Contribution(FontRule(f), p), e), Phase(Contribution(ImageRule(f), p), e));
  }

  lemma AssetRulesType(f: Flags, p: string)
    ensures TypeOf(RunAll(AssetRules(f), p)) == if IsJson(p) then Some(JavascriptAuto) else None
  {
    var rs := AssetRules(f);
    assert rs == [JsonRule, DocumentRule, FontRule(f), ImageRule(f)];
    JsonRuleDispatch(p, Normal);
    DocumentRuleDispatch(p, Normal);
    FontRuleDispatch(f, p, Normal);
    ImageRuleDispatch(f, p, Normal);
    TypeOfFour(JsonRule, DocumentRule, FontRule(f), ImageRule(f), p);
  }

  /** The table is the script rules, the stylesheet rule and the asset rules, run one group after another. */
  lemma RulesSplit(f: Flags, dir: string, p: string)
    ensures RunAll(RulesFor(f, dir), p) ==
      RunAll(ScriptRules(dir), p) + Contribution(StyleRule(f, dir), p) + RunAll(AssetRules(f), p)
  {
    var a, b, c := ScriptRules(dir), [StyleRule(f, dir)], AssetRules(f);
    RunAllAppend(a + b, c, p);
    RunAllAppend(a, b, p);
    RunAllCons(StyleRule(f, dir), [], p);
    assert RunAll(b, p) == Contribution(StyleRule(f, dir), p);
  }

  /** The loaders of one phase: the script rules', then the stylesheet rule's, then the asset rules'. */
  lemma PhaseSplit(f: Flags, dir: string, p: string, e: Enforce)
    ensures Phase(RunAll(RulesFor(f, dir), p), e) ==
      Phase(RunAll(ScriptRules(dir), p), e)
      + Phase(Contribution(StyleRule(f, dir), p), e) + Phase(RunAll(AssetRules(f), p), e)
  {
    var script, style, assets := RunAll(ScriptRules(dir), p), Contribution(StyleRule(f, dir), p), RunAll(AssetRules(f), p);
    RulesSplit(f, dir, p);
    PhaseAppend(script, style, e);
    PhaseAppend(script + style, assets, e);
  }

  /** The module type: the asset rules' if they set one, else the stylesheet rule's, else the script rules'. */
  lemma TypeSplit(f: Flags, dir: string, p: string)
    ensures
      var script, style, assets := RunAll(ScriptRules(dir), p), Contribution(StyleRule(f, dir), p), RunAll(AssetRules(f), p);
      TypeOf(RunAll(RulesFor(f, dir), p)) ==
        if TypeOf(assets).Some? then TypeOf(assets) else if TypeOf(style).Some? then TypeOf(style) else TypeOf(script)
  {
    var script, style, assets := RunAll(ScriptRules(dir), p), Contribution(StyleRule(f, dir), p), RunAll(AssetRules(f), p);
    RulesSplit(f, dir, p);
    TypeOfAppend(script, style);
    TypeOfAppend(script + style, assets);
  }

  lemma RulesPre(f: Flags, dir: string, p: string)
    ensures Phase(RunAll(RulesFor(f, dir), p), Pre) == Expected(f, dir, p).pre
  {
    PhaseSplit(f, dir, p, Pre);
    ScriptRulesDispatch(dir, p, Pre);
    AssetRulesDispatch(f, p, Pre);
    StyleRuleContribution(f, dir, p, Pre);
  }

  lemma RulesNormal(f: Flags, dir: string, p: string)
    ensures Phase(RunAll(RulesFor(f, dir), p), Normal) ==
      ScriptLoaders(p) + (if IsStylesheet(p) then StyleChain(f, dir, p) else []) + AssetLoaders(f, p)
  {
    PhaseSplit(f, dir, p, Normal);
    var script, styled, assets := Phase(RunAll(ScriptRules(dir), p), Normal),
      Phase(Contribution(StyleRule(f, dir), p), Normal), Phase(RunAll(AssetRules(f), p), Normal);
    assert script == ScriptLoaders(p) by {
      ScriptRulesDispatch(dir, p, Normal);
    }
    assert styled == if IsStylesheet(p) then StyleChain(f, dir, p) else [] by {
      StyleRuleContribution(f, dir, p, Normal);
    }
    assert assets == AssetLoaders(f, p) by {
      AssetRulesDispatch(f, p, Normal);
    }
  }

  lemma RulesType(f: Flags, dir: string, p: string)
    ensures TypeOf(RunAll(RulesFor(f, dir), p)) == Expected(f, dir, p).moduleType
  {
    TypeSplit(f, dir, p);
    ScriptRulesType(dir, p);
    AssetRulesType(f, p);
    StyleRuleContribution(f, dir, p, Normal);
  }

  /**
   * Running webpack's rule matching over the configuration's rule table gives,
   * for every mode and every path, exactly the category-by-category dispatch.
   */
  lemma DispatchMatchesReference(f: Flags, dir: string, p: string)
    ensures DispatchOf(RulesFor(f, dir), p) == Expected(f, dir, p)
  {
    RulesPre(f, dir, p);
    RulesNormal(f, dir, p);
    RulesType(f, dir, p);
  }
}
