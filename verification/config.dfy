/**
 * The build configuration that `webpack.config.js` exports as a function of
 * the invocation: the record it returns and the pieces it is built from.
 * Loaders and plugins are tags carrying the options the configuration passes
 * them; what they do is theirs.
 */
module WebpackConfig {

  import opened Wrappers
  import opened Text
  import opened Environment
  import opened Patterns
  import opened RuleSet

  /** A variable set produced by the `./env` module for a mode. */
  type Vars = map<string, string>

  /** `envSet(envMode)`: the raw view for HTML templating and the stringified view for substitution. */
  datatype EnvSet = EnvSet(raw: Vars, stringified: Vars)

  /** The `argv` properties the configuration reads. */
  datatype Invocation = Invocation(mode: JsValue, isuat: JsValue, report: JsValue)

  /** The process environment variables the configuration reads. */
  datatype ProcessEnv = ProcessEnv(publicPath: Option<string>, port: Option<string>)

  /** `path.resolve(__dirname, rel)` for a relative `rel`, without normalisation. */
  function Resolve(dir: string, rel: string): string {
    dir + "/" + rel
  }

  // ---------------------------------------------------------------- output naming

  datatype Output = Output(path: string, publicPath: Option<string>, filename: string, chunkFilename: string)

  /**
   * A name carries a six-character hash placeholder: "hash:6]" ends both
   * `[hash:6]` (the build hash) and `[contenthash:6]` (the per-chunk hash).
   */
  predicate Hashed(name: string) {
    Contains(name, "hash:6]")
  }

  /** A name built around a placeholder contains the placeholder and its "hash:6]" tail. */
  lemma PlaceholderIn(pre: string, open: string, post: string)
    ensures Contains(pre + open + "hash:6]" + post, open + "hash:6]")
    ensures Hashed(pre + open + "hash:6]" + post)
  {
    assert pre + open + "hash:6]" + post == pre + (open + "hash:6]") + post;
    ContainsBetween(pre, open + "hash:6]", post);
    ContainsBetween(pre + open, "hash:6]", post);
  }

  /** The hashed names contain their placeholders; the plain ones contain no `h`, hence none. */
  lemma HashedBundle()
    ensures Contains("bundle.[hash:6].js", "[hash:6]") && Hashed("bundle.[hash:6].js")
  {
    assert "[" + "hash:6]" == "[hash:6]";
    PlaceholderIn("bundle.", "[", ".js");
    assert "bundle." + "[" + "hash:6]" + ".js" == "bundle.[hash:6].js";
  }

  lemma HashedChunk()
    ensures Contains("[name].[contenthash:6].js", "[contenthash:6]") && Hashed("[name].[contenthash:6].js")
  {
    assert "[content" + "hash:6]" == "[contenthash:6]";
    PlaceholderIn("[name].", "[content", ".js");
    assert "[name]." + "[content" + "hash:6]" + ".js" == "[name].[contenthash:6].js";
  }

  lemma HashedCss()
    ensures Contains("[name].[hash:6].css", "[hash:6]") && Hashed("[name].[hash:6].css")
  {
    assert "[" + "hash:6]" == "[hash:6]";
    PlaceholderIn("[name].", "[", ".css");
    assert "[name]." + "[" + "hash:6]" + ".css" == "[name].[hash:6].css";
  }

  lemma HashedCssChunk()
    ensures Contains("[id].[hash:6].css", "[hash:6]") && Hashed("[id].[hash:6].css")
  {
    assert "[" + "hash:6]" == "[hash:6]";
    PlaceholderIn("[id].", "[", ".css");
    assert "[id]." + "[" + "hash:6]" + ".css" == "[id].[hash:6].css";
  }

  lemma PlainNames()
    ensures !Hashed("bundle.js") && !Hashed("[name].js") && !Hashed("[name].css") && !Hashed("[id].css")
  {
    MissingHeadNotContained("bundle.js", "hash:6]");
    MissingHeadNotContained("[name].js", "hash:6]");
    MissingHeadNotContained("[name].css", "hash:6]");
    MissingHeadNotContained("[id].css", "hash:6]");
  }

  /** `output`: entry bundles carry the build hash and async chunks the content hash, in production only. */
  function OutputFor(f: Flags, dir: string, publicPath: Option<string>): (o: Output)
    ensures Hashed(o.filename) <==> f.isPro
    ensures Hashed(o.chunkFilename) <==> f.isPro
    ensures f.isPro ==> Contains(o.filename, "[hash:6]") && Contains(o.chunkFilename, "[contenthash:6]")
    ensures !f.isPro ==> o.filename == "bundle.js" && o.chunkFilename == "[name].js"
    ensures o.path == Resolve(dir, "build") && o.publicPath == publicPath
  {
    HashedBundle();
    HashedChunk();
    PlainNames();
    Output(
      Resolve(dir, "build"),
      publicPath,
      if f.isPro then "bundle.[hash:6].js" else "bundle.js",
      if f.isPro then "[name].[contenthash:6].js" else "[name].js")
  }

  // ---------------------------------------------------------------- optimization

  /** A `splitChunks.cacheGroups` entry under the key `name`; absent settings are `None`. */
  datatype CacheGroup = CacheGroup(
    name: string,
    chunks: string,
    test: Option<Pattern>,
    minChunks: Option<nat>,
    maxInitialRequests: Option<nat>,
    minSize: Option<nat>,
    priority: Option<int>,
    enforce: bool)

  /** webpack gives a cache group without a `priority` the priority 0. */
  function EffectivePriority(g: CacheGroup): int {
    if g.priority.Some? then g.priority.value else 0
  }

  datatype Minimizer =
    | OptimizeCssAssets(removeAllComments: bool, canPrint: bool)   // cssnano, 'default' preset
    | UglifyJs(keepComments: bool, dropConsole: bool)

  /** `optimization`: webpack's defaults (the empty object) or an explicit splitting and minimizing policy. */
  datatype Optimization = Defaults | SplitChunks(cacheGroups: seq<CacheGroup>, minimizer: seq<Minimizer>)

  /**
   * Empty exactly in development; otherwise the `commons` and `vendor` groups,
   * vendor forced and ranked above commons, and two minimizers of which the
   * JavaScript one drops `console` calls in production only.
   */
  function OptimizationFor(f: Flags): (o: Optimization)
    ensures o.Defaults? <==> f.isDev
    ensures o.SplitChunks? ==>
      && |o.cacheGroups| == 2
      && o.cacheGroups[0] == CacheGroup("commons", "initial", None, Some(2), Some(5), Some(0), None, false)
      && o.cacheGroups[1] == CacheGroup("vendor", "initial", Some(NodeModules), None, None, None, Some(10), true)
      && EffectivePriority(o.cacheGroups[1]) > EffectivePriority(o.cacheGroups[0])
    ensures o.SplitChunks? ==>
      && |o.minimizer| == 2
      && o.minimizer[0] == OptimizeCssAssets(true, true)
      && o.minimizer[1].UglifyJs? && !o.minimizer[1].keepComments
      && (o.minimizer[1].dropConsole <==> f.isPro)
  {
    if f.isDev then Defaults
    else
      SplitChunks(
        [ CacheGroup("commons", "initial", None, Some(2), Some(5), Some(0), None, false),
          CacheGroup("vendor", "initial", Some(NodeModules), None, None, None, Some(10), true) ],
        [ OptimizeCssAssets(true, true),
          UglifyJs(false, f.isPro) ])
  }

  // ---------------------------------------------------------------- module rules

  /** The loader a stylesheet starts with: extraction in production, injection otherwise. */
  function StyleInjector(f: Flags): Loader {
    if !f.isPro then StyleLoader else MiniCssExtractLoader
  }

  const TsRule := Rule(test := Some(Regex(TypeScript)), excludes := Some(Regex(NodeModules)), uses := [TsLoader])

  function SourceMapRule(dir: string): Rule {
    Rule(test := Some(Regex(Script)), excludes := Some(Under([Resolve(dir, "src")])), enforce := Pre, uses := [SourceMapLoader])
  }

  const BabelRule := Rule(test := Some(Regex(Script)), excludes := Some(Regex(NodeModules)), uses := [BabelLoader])

  const LruRule := Rule(test := Some(Regex(Script)), includes := Some(Regex(LruPackage)), uses := [BabelLoader])

  /** The paths whose class names stay global: third-party packages and the shared style library. */
  function GlobalCssDirs(dir: string): seq<string> {
    [Resolve(dir, "node_modules"), Resolve(dir, "src/style")]
  }

  function CssRules(f: Flags, dir: string): seq<Rule> {
    [ Rule(includes := Some(Under(GlobalCssDirs(dir))),
           uses := [CssLoader(CssOptions(false, !f.isPro, None, false))]),
      Rule(uses := [CssLoader(CssOptions(true, !f.isPro, Some(1), true))]) ]
  }

  function SassOptionsLoader(f: Flags, dir: string): Loader {
    SassLoader(!f.isPro, "@import \"variables.scss\";", [Resolve(dir, "src/style")])
  }

  /** The nested rules of the stylesheet rule, all tried in order. */
  function StyleSubRules(f: Flags, dir: string): seq<Rule> {
    [ Rule(uses := [StyleInjector(f)]),
      Rule(oneOf := CssRules(f, dir)),
      Rule(uses := [PostcssLoader(!f.isPro)]),
      Rule(test := Some(Regex(Sass)), uses := [SassOptionsLoader(f, dir)]) ]
  }

  function StyleRule(f: Flags, dir: string): Rule {
    Rule(test := Some(Regex(Stylesheet)), rules := StyleSubRules(f, dir))
  }

  const JsonRule := Rule(test := Some(Regex(Json)), uses := [JsonLoader], moduleType := Some(JavascriptAuto))

  const DocumentRule := Rule(test := Some(Regex(Document)), uses := [RawLoader])

  function FontRule(f: Flags): Rule {
    Rule(test := Some(Regex(Font)), uses := [if f.isPro then FileLoader else UrlLoader(None)])
  }

  /** Both branches of the source's conditional name the same loader. */
  function ImageRule(f: Flags): Rule {
    Rule(test := Some(Regex(Image)), uses := [if f.isPro then UrlLoader(Some(10000)) else UrlLoader(Some(10000))])
  }

  /** The script rules: TypeScript, the source-map pre-rule, and the two Babel rules. */
  function ScriptRules(dir: string): seq<Rule> {
    [TsRule, SourceMapRule(dir), BabelRule, LruRule]
  }

  /** The JSON, document, font and image rules. */
  function AssetRules(f: Flags): seq<Rule> {
    [JsonRule, DocumentRule, FontRule(f), ImageRule(f)]
  }

  /** `module.rules`, in the order webpack tries them. */
  function RulesFor(f: Flags, dir: string): seq<Rule> {
    ScriptRules(dir) + [StyleRule(f, dir)] + AssetRules(f)
  }

  /**
   * The rule table: nine rules tested, in order, for TypeScript, three times
   * for scripts, stylesheets, JSON, documents, fonts and images; only the
   * source-map rule is a pre-loader, only the JSON rule sets a module type,
   * only the stylesheet rule nests rules, and the mode changes only the
   * stylesheet and font rules (the image rule tests it, but both its branches
   * agree).
   */
  lemma RuleTableShape(f: Flags, g: Flags, dir: string)
    ensures var rs := RulesFor(f, dir);
      && |rs| == 9
      && [rs[0].test, rs[1].test, rs[2].test, rs[3].test, rs[4].test, rs[5].test, rs[6].test, rs[7].test, rs[8].test]
         == [Some(Regex(TypeScript)), Some(Regex(Script)), Some(Regex(Script)), Some(Regex(Script)),
             Some(Regex(Stylesheet)), Some(Regex(Json)), Some(Regex(Document)), Some(Regex(Font)), Some(Regex(Image))]
      && (forall i :: 0 <= i < |rs| ==> (rs[i].enforce == Pre <==> i == 1))
      && (forall i :: 0 <= i < |rs| ==> (rs[i].moduleType.Some? <==> i == 5))
      && (forall i :: 0 <= i < |rs| ==> (rs[i].rules != [] <==> i == 4) && rs[i].oneOf == [])
      && (forall i :: 0 <= i < |rs| && i !in {4, 7} ==> rs[i] == RulesFor(g, dir)[i])
  {
    var rs := RulesFor(f, dir);
    assert rs == [TsRule, SourceMapRule(dir), BabelRule, LruRule, StyleRule(f, dir), JsonRule, DocumentRule, FontRule(f), ImageRule(f)];
    assert RulesFor(g, dir) == [TsRule, SourceMapRule(dir), BabelRule, LruRule, StyleRule(g, dir), JsonRule, DocumentRule, FontRule(g), ImageRule(g)];
  }

  // ---------------------------------------------------------------- plugins

  /** An HtmlWebpackPlugin option: a string, or the `minify` settings. */
  datatype HtmlOption = Setting(value: string) | Minify(collapseWhitespace: bool)

  datatype CopyPattern = CopyPattern(from: string, to: string)

  datatype Plugin =
    | NoEmitOnErrors
    | HtmlWebpack(options: map<string, HtmlOption>)
    | MiniCssExtract(filename: string, chunkFilename: string)
    | Define(definitions: Vars)
    | CopyAssets(patterns: seq<CopyPattern>)
    | BundleAnalyzer

  /**
   * `{template, minify, ...raw}`: every raw variable becomes an option, and
   * because the spread comes last a raw `template` or `minify` overrides the
   * written one.
   */
  function HtmlOptions(raw: Vars): (m: map<string, HtmlOption>)
    ensures m.Keys == raw.Keys + {"template", "minify"}
    ensures forall k :: k in raw ==> m[k] == Setting(raw[k])
    ensures "template" !in raw ==> m["template"] == Setting("./index.ejs")
    ensures "minify" !in raw ==> m["minify"] == Minify(true)
  {
    map["template" := Setting("./index.ejs"), "minify" := Minify(true)] + map k | k in raw :: Setting(raw[k])
  }

  /** MiniCssExtractPlugin with the configuration's file names: the plain ones exactly outside production. */
  function CssExtractFor(f: Flags): (p: Plugin)
    ensures p.MiniCssExtract?
    ensures p.filename == "[name].css" <==> !f.isPro
    ensures p.chunkFilename == "[id].css" <==> !f.isPro
  {
    MiniCssExtract(
      if !f.isPro then "[name].css" else "[name].[hash:6].css",
      if !f.isPro then "[id].css" else "[id].[hash:6].css")
  }

  /** MiniCssExtractPlugin's file names: hashed in production only, plain `[name].css` and `[id].css` otherwise. */
  lemma CssExtractNames(f: Flags)
    ensures CssExtractFor(f).MiniCssExtract?
    ensures Hashed(CssExtractFor(f).filename) <==> f.isPro
    ensures Hashed(CssExtractFor(f).chunkFilename) <==> f.isPro
    ensures f.isPro ==> Contains(CssExtractFor(f).filename, "[hash:6]") && Contains(CssExtractFor(f).chunkFilename, "[hash:6]")
    ensures !f.isPro ==> CssExtractFor(f) == MiniCssExtract("[name].css", "[id].css")
  {
    HashedCss();
    HashedCssChunk();
    PlainNames();
  }

  /** The five plugins every build has, in order. */
  function FixedPlugins(f: Flags, env: EnvSet): (ps: seq<Plugin>)
    ensures BundleAnalyzer !in ps
  {
    [ NoEmitOnErrors,
      HtmlWebpack(HtmlOptions(env.raw)),
      CssExtractFor(f),
      Define(env.stringified),
      CopyAssets([CopyPattern("./assets", "./assets")]) ]
  }

  /**
   * `plugins`: five fixed plugins in a fixed order, then the bundle analyzer
   * exactly when `argv.report` is truthy.
   */
  function PluginsFor(f: Flags, env: EnvSet, report: JsValue): (ps: seq<Plugin>)
    ensures |ps| == if Truthy(report) then 6 else 5
    ensures ps[0] == NoEmitOnErrors
    ensures ps[1] == HtmlWebpack(HtmlOptions(env.raw))
    ensures ps[2] == CssExtractFor(f)
    ensures ps[3] == Define(env.stringified)
    ensures ps[4] == CopyAssets([CopyPattern("./assets", "./assets")])
    ensures BundleAnalyzer in ps <==> Truthy(report)
    ensures Truthy(report) ==> ps[5] == BundleAnalyzer
  {
    FixedPlugins(f, env) + (if Truthy(report) then [BundleAnalyzer] else [])
  }

  // ---------------------------------------------------------------- devtool and devServer

  datatype Devtool = SourceMap | CheapModuleEvalSourceMap

  /** Full source maps for production and uat builds, the cheap evaluated kind otherwise. */
  function DevtoolFor(f: Flags): (d: Devtool)
    ensures d == SourceMap <==> f.isPro || f.isUat
    ensures d == CheapModuleEvalSourceMap <==> !(f.isPro || f.isUat)
  {
    if f.isPro || f.isUat then SourceMap else CheapModuleEvalSourceMap
  }

  /** The listen port: the PORT variable, or 3000 when it is unset or empty. */
  datatype Port = FromEnv(value: string) | DefaultPort(number: nat)

  function PortFor(port: Option<string>): (p: Port)
    ensures p.DefaultPort? <==> (port.None? || port.value == "")
    ensures p.DefaultPort? ==> p.number == 3000
    ensures p.FromEnv? ==> port == Some(p.value) && p.value != ""
  {
    if port.Some? && port.value != "" then FromEnv(port.value) else DefaultPort(3000)
  }

  datatype ProxyRoute = ProxyRoute(prefix: string, target: string, changeOrigin: bool)

  datatype DevServer = DevServer(
    port: Port,
    host: string,
    publicPath: string,
    contentBase: string,
    historyApiFallback: bool,
    open: bool,
    proxy: seq<ProxyRoute>)

  const ProxyTarget := "https://yyj-test.by-health.com"

  /** `devServer`: two proxied prefixes, both to the test origin with the origin header rewritten. */
  function DevServerFor(port: Option<string>): (d: DevServer)
    ensures d.port == PortFor(port)
    ensures |d.proxy| == 2 && d.proxy[0].prefix == "/scrm" && d.proxy[1].prefix == "/blessCodeActivity"
    ensures forall r :: r in d.proxy ==> r.target == ProxyTarget && r.changeOrigin
    ensures d.host == "0.0.0.0" && d.publicPath == "/" && d.contentBase == "./src"
    ensures d.historyApiFallback && !d.open
  {
    DevServer(
      PortFor(port), "0.0.0.0", "/", "./src", true, false,
      [ProxyRoute("/scrm", ProxyTarget, true), ProxyRoute("/blessCodeActivity", ProxyTarget, true)])
  }

  // ---------------------------------------------------------------- the exported function

  datatype Config = Config(
    context: string,
    entry: seq<string>,
    output: Output,
    optimization: Optimization,
    rules: seq<Rule>,
    plugins: seq<Plugin>,
    devtool: Devtool,
    devServer: DevServer)

  /**
   * `(env, argv) => config`. `envSet` is the `./env` module and `dir` the
   * directory of the configuration file. The variable sets are looked up with
   * the RESOLVED mode, so the `isuat` override reaches them as well; every
   * other part depends on the invocation only through the three flags.
   */
  function ConfigFor(inv: Invocation, envSet: JsValue -> EnvSet, penv: ProcessEnv, dir: string): (c: Config)
    ensures var envMode := ResolveMode(inv.mode, inv.isuat);
      && |c.plugins| >= 5
      && c.plugins[1] == HtmlWebpack(HtmlOptions(envSet(envMode).raw))
      && c.plugins[3] == Define(envSet(envMode).stringified)
    ensures var f := FlagsFor(inv.mode, inv.isuat);
      && c.output == OutputFor(f, dir, penv.publicPath)
      && c.optimization == OptimizationFor(f)
      && c.rules == RulesFor(f, dir)
      && c.plugins == PluginsFor(f, envSet(ResolveMode(inv.mode, inv.isuat)), inv.report)
      && c.devtool == DevtoolFor(f)
    ensures c.context == Resolve(dir, "src") && c.entry == ["./core/polyfill.js", "./index.js"]
    ensures c.devServer == DevServerFor(penv.port)
  {
    var envMode := ResolveMode(inv.mode, inv.isuat);
    var vars := envSet(envMode);
    var f := FlagsOf(envMode);
    Config(
      Resolve(dir, "src"),
      ["./core/polyfill.js", "./index.js"],
      OutputFor(f, dir, penv.publicPath),
      OptimizationFor(f),
      RulesFor(f, dir),
      PluginsFor(f, vars, inv.report),
      DevtoolFor(f),
      DevServerFor(penv.port))
  }
}
