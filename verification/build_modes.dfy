/**
 * What the exported function decides per build mode, stated about the whole
 * configuration record.
 */
module BuildModes {

  import opened Wrappers
  import opened Text
  import opened Environment
  import opened RuleSet
  import opened WebpackConfig
  import opened Patterns
  import opened DispatchProperties

  /** With `isuat` set to the string 'true', `mode` has no influence on anything. */
  lemma UatOverrideIgnoresMode(m1: JsValue, m2: JsValue, report: JsValue, envSet: JsValue -> EnvSet, penv: ProcessEnv, dir: string)
    ensures ConfigFor(Invocation(m1, Str("true"), report), envSet, penv, dir)
         == ConfigFor(Invocation(m2, Str("true"), report), envSet, penv, dir)
  {
  }

  /**
   * A uat build is named like a development build: plain file names, since
   * the choice tests `isPro` alone; it keeps full source maps and the
   * splitting policy, and keeps `console` calls.
   */
  lemma UatBuild(inv: Invocation, envSet: JsValue -> EnvSet, penv: ProcessEnv, dir: string)
    requires ResolveMode(inv.mode, inv.isuat) == Str("uat")
    ensures var c := ConfigFor(inv, envSet, penv, dir);
      && c.output.filename == "bundle.js" && c.output.chunkFilename == "[name].js"
      && c.plugins[2] == MiniCssExtract("[name].css", "[id].css")
      && c.devtool == SourceMap
      && c.optimization.SplitChunks? && !c.optimization.minimizer[1].dropConsole
  {
  }

  /** In a uat build every stylesheet is injected by `style-loader`, not extracted. */
  lemma UatStylesheetsInjected(inv: Invocation, envSet: JsValue -> EnvSet, penv: ProcessEnv, dir: string, p: string)
    requires ResolveMode(inv.mode, inv.isuat) == Str("uat") && IsStylesheet(p)
    ensures var normal := DispatchOf(ConfigFor(inv, envSet, penv, dir).rules, p).normal;
      |normal| > 0 && normal[0] == StyleLoader
  {
    var f := FlagsFor(inv.mode, inv.isuat);
    assert !f.isPro;
    assert ConfigFor(inv, envSet, penv, dir).rules == RulesFor(f, dir);
    StyleDispatch(f, dir, p);
  }

  /**
   * A mode the configuration does not recognise (or none at all) meets no
   * check in this file: it builds with all three flags false, which is
   * development naming and styling with production's splitting policy and
   * no dropped `console`. Whether `./env` accepts such a mode is not modelled.
   */
  lemma UnrecognisedModeBuild(inv: Invocation, envSet: JsValue -> EnvSet, penv: ProcessEnv, dir: string)
    requires Recognise(ResolveMode(inv.mode, inv.isuat)).None?
    ensures var c := ConfigFor(inv, envSet, penv, dir);
      && c.output.filename == "bundle.js" && c.output.chunkFilename == "[name].js"
      && c.plugins[2] == MiniCssExtract("[name].css", "[id].css")
      && c.devtool == CheapModuleEvalSourceMap
      && c.optimization.SplitChunks? && !c.optimization.minimizer[1].dropConsole
  {
  }

  /** A production build hashes every emitted name, drops `console` and maps fully. */
  lemma ProductionBuild(inv: Invocation, envSet: JsValue -> EnvSet, penv: ProcessEnv, dir: string)
    requires inv.isuat != Str("true") && inv.mode == Str("production")
    ensures var c := ConfigFor(inv, envSet, penv, dir);
      && Hashed(c.output.filename) && Hashed(c.output.chunkFilename)
      && Hashed(c.plugins[2].filename) && Hashed(c.plugins[2].chunkFilename)
      && c.devtool == SourceMap
      && c.optimization.SplitChunks? && c.optimization.minimizer[1].dropConsole
  {
    CssExtractNames(FlagsFor(inv.mode, inv.isuat));
  }

  /** A development build keeps webpack's default optimization, plain names and the cheap evaluated source maps. */
  lemma DevelopmentBuild(inv: Invocation, envSet: JsValue -> EnvSet, penv: ProcessEnv, dir: string)
    requires inv.isuat != Str("true") && inv.mode == Str("development")
    ensures var c := ConfigFor(inv, envSet, penv, dir);
      && c.optimization == Defaults
      && !Hashed(c.output.filename) && !Hashed(c.output.chunkFilename)
      && c.plugins[2] == MiniCssExtract("[name].css", "[id].css")
      && c.devtool == CheapModuleEvalSourceMap
  {
  }

  /** A development build registers the extraction plugin but injects every stylesheet: its chain starts with style-loader. */
  lemma DevelopmentStylesheetsInjected(inv: Invocation, envSet: JsValue -> EnvSet, penv: ProcessEnv, dir: string, p: string)
    requires inv.isuat != Str("true") && inv.mode == Str("development") && IsStylesheet(p)
    ensures var normal := DispatchOf(ConfigFor(inv, envSet, penv, dir).rules, p).normal;
      |normal| > 0 && normal[0] == StyleLoader
  {
    var f := FlagsFor(inv.mode, inv.isuat);
    assert !f.isPro;
    assert ConfigFor(inv, envSet, penv, dir).rules == RulesFor(f, dir);
    StyleDispatch(f, dir, p);
  }

  /** In a production build every stylesheet is extracted: its chain starts with the extraction loader. */
  lemma ProductionStylesheetsExtracted(inv: Invocation, envSet: JsValue -> EnvSet, penv: ProcessEnv, dir: string, p: string)
    requires inv.isuat != Str("true") && inv.mode == Str("production") && IsStylesheet(p)
    ensures var normal := DispatchOf(ConfigFor(inv, envSet, penv, dir).rules, p).normal;
      |normal| > 0 && normal[0] == MiniCssExtractLoader
  {
    var f := FlagsFor(inv.mode, inv.isuat);
    assert f.isPro;
    assert ConfigFor(inv, envSet, penv, dir).rules == RulesFor(f, dir);
    StyleDispatch(f, dir, p);
  }
}
