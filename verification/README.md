# webpack.config.js as a verified model

The repository's build configuration is one exported function,
`(env, argv) => config`. From `argv.mode`, `argv.isuat` and `argv.report`
it produces the configuration record that webpack runs. This project models
that function in Dafny as pure datatypes and functions, and proves what the
configuration promises.

- **Environment resolution** (`environment.dfy`, module `Environment`).
  The `isuat === 'true'` override gives the resolved mode `envMode`. From it
  come the three strict comparisons `isPro`, `isDev` and `isUat`.
- **The record** (`config.dfy`, module `WebpackConfig`). It covers:
  - output naming;
  - `optimization`, the split-chunks cache groups and minimizers;
  - the `module.rules` table, written as data;
  - the plugin list;
  - `devtool` and `devServer`;
  - `ConfigFor`, the exported function itself.
- **Rule matching** (`ruleset.dfy`, module `RuleSet`). This is webpack 4's
  RuleSet semantics as the table uses them:
  - a rule applies when `test` and `include` hold and `exclude` does not;
  - an applying rule contributes its own loaders, then every applying
    nested rule of `rules`, then the first applying entry of `oneOf`;
  - `enforce: 'pre'` moves its loaders to the pre-loader phase;
  - a later `type` overrides an earlier one;
  - a string condition is a path prefix, and an array condition means
    "any of these".
- **Regular expressions** (`patterns.dfy` and `text.dfy`). They become
  explicit suffix, substring and prefix predicates on the resource path.
- **Dispatch** (`dispatch.dfy`, module `ModuleDispatch`). For every mode and
  every path, running the rule table gives exactly a plain,
  category-by-category statement of which loaders the path gets
  (`Expected`).
- **Consequences of that theorem** (`properties.dfy`), per kind of file.
- **Whole-configuration lemmas per build mode** (`build_modes.dfy`).

A few behaviours of the code are easy to mistake for something else:

- A uat build tests only `isPro` when choosing names and the style loader.
  It therefore gets plain, unhashed file names and `style-loader`. One
  might expect hashed names in every build other than development; the
  code does not do that.
- The configuration file adds no check of its own on the mode. For an
  unrecognised or missing mode, all three flags are false, so the build
  uses development naming with the production split-chunks policy.
  Whether `./env` accepts such a mode is outside this model.
- The override needs the exact string `'true'`. A boolean `isuat` flag does
  not override the mode.
- `devServer` is part of the record in every mode.
- Neither cache group gives vendor membership precedence over commons by
  test order. Vendor only has the higher priority, 10 against webpack's
  default of 0.
- Both branches of the image rule are the same loader, so images do not
  depend on the mode.

## Model

| member | source | states |
|---|---|---|
| Environment.ResolveMode | webpack.config.js:13-16 | `isuat` equal to the string 'true' forces "uat" whatever `mode` is; otherwise the mode passes through unchanged; a boolean `true` does not override |
| Environment.Recognise | webpack.config.js:21-23 | a recognised mode names exactly one target, and an unrecognised one names none |
| Environment.FlagsOf | webpack.config.js:21-23 | at most one of isPro/isDev/isUat holds; each holds iff the mode names its target; some flag holds iff the mode is recognised, so an unknown mode leaves all three false, with no check in this file |
| Environment.FlagsFor | webpack.config.js:13-23 | isuat 'true' gives exactly isUat, whatever the mode; "production" and "development" without the override give their own flag alone |
| Environment.Truthy | webpack.config.js:196 | JavaScript truthiness of an argv value: false exactly for undefined, `false`, the empty string and 0, so the strings "false" and "0" are truthy |
| WebpackConfig.OutputFor | webpack.config.js:28-33 | entry and chunk names carry a 6-character hash placeholder iff isPro ([hash:6] for the entry, [contenthash:6] for chunks); otherwise `bundle.js` and `[name].js`; path is `<dir>/build`, publicPath is PUBLIC_PATH |
| WebpackConfig.HashedBundle | webpack.config.js:31 | the production entry name contains `[hash:6]` |
| WebpackConfig.HashedChunk | webpack.config.js:32 | the production chunk name contains `[contenthash:6]` |
| WebpackConfig.PlainNames | webpack.config.js:31-32 | the non-production names contain no hash placeholder |
| WebpackConfig.OptimizationFor | webpack.config.js:50-89 | empty iff isDev; otherwise exactly the commons group (initial, minChunks 2, maxInitialRequests 5, minSize 0, no priority) and the vendor group (test node_modules, initial, priority 10, forced, no other settings), so vendor outranks commons, and two minimizers, the JS one keeping no comments and dropping console iff isPro |
| WebpackConfig.RuleTableShape | webpack.config.js:91-176 | the table has nine rules with tests TypeScript, script three times, stylesheet, JSON, document, font, image; only the second is a pre-loader, only the JSON rule sets a type, only the style rule nests rules and none uses a top-level oneOf; every rule except the style and font rules is the same in every mode, the image rule included since both its branches give the same loader |
| WebpackConfig.HtmlOptions | webpack.config.js:180-184 | the options are `template`, `minify` and every raw key; every raw value is carried over, and a raw `template` or `minify` overrides the written one because the spread comes last |
| WebpackConfig.CssExtractNames | webpack.config.js:185-190 | the CSS and CSS-chunk names carry `[hash:6]` iff isPro, and are `[name].css` and `[id].css` otherwise |
| WebpackConfig.CssExtractFor | webpack.config.js:185-190 | the extraction plugin is named `[name].css` iff the build is not production, and its chunks `[id].css` iff not production |
| WebpackConfig.HashedCss | webpack.config.js:188 | the production CSS name contains `[hash:6]` |
| WebpackConfig.HashedCssChunk | webpack.config.js:189 | the production CSS chunk name contains `[hash:6]` |
| WebpackConfig.FixedPlugins | webpack.config.js:178-195 | the five fixed plugins include no bundle analyzer |
| WebpackConfig.PluginsFor | webpack.config.js:178-196 | NoEmitOnErrors, HtmlWebpack seeded with raw, MiniCssExtract, Define seeded with stringified, Copy ./assets→./assets, in that order; length 6 with the analyzer last iff `report` is truthy, 5 otherwise; the analyzer is present iff `report` is truthy |
| WebpackConfig.DevtoolFor | webpack.config.js:197 | 'source-map' iff isPro or isUat, 'cheap-module-eval-source-map' otherwise |
| WebpackConfig.PortFor | webpack.config.js:199 | PORT when set and non-empty, 3000 otherwise |
| WebpackConfig.DevServerFor | webpack.config.js:198-216 | port as above, host 0.0.0.0, publicPath '/', contentBase ./src, history fallback on, open off, and exactly the proxy routes /scrm and /blessCodeActivity, both to the test origin with changeOrigin |
| WebpackConfig.ConfigFor | webpack.config.js:11-218 | the record's parts are the functions above applied to the flags of the resolved mode; the variable sets are looked up with the resolved mode; context is `<dir>/src` and the two entries are fixed |
| Patterns.LruPackageIsInNodeModules | webpack.config.js:105-110 | every path the lru allow-list admits is also removed by the node_modules exclusion, so the two babel rules never both apply |
| Patterns.TypeScriptIsNotScript | webpack.config.js:93-98 | no path matches both the TypeScript and the script pattern |
| Patterns.StylesheetIsExclusive | webpack.config.js:114 | a stylesheet path matches no script, TypeScript, JSON, document or image pattern |
| Patterns.TypeScriptPatternCases | webpack.config.js:93 | for every name, `name.ts` and `name.tsx` match and `name.js` and `name.ts.map` do not: the extension must end the path |
| Patterns.ScriptPatternCases | webpack.config.js:98 | for every name, `.js`, `.jsx` and, the group being optional, a bare trailing dot match; `.json`, `.mjs` and `.ts` do not |
| Patterns.NodeModulesPatternCases | webpack.config.js:94 | a path matches exactly when `node_modules` occurs in it at some index, before or after anything |
| Patterns.LruPatternCases | webpack.config.js:110 | after `node_modules` and either separator, every package name starting with `lru` is admitted, since `-*` allows zero dashes (`lru-cache` and `lrucache` alike) |
| Patterns.StylesheetPatternCases | webpack.config.js:114 | for every name, .css, .scss and .sass are stylesheets and .less is not; the Sass test at line 149 takes .scss and .sass but not .css |
| Patterns.DataPatternCases | webpack.config.js:160-165 | for every name, `.json` is JSON and `.json5` is not; .xml, .html, .txt and .md are documents and .htm is not |
| Patterns.FontNamed | webpack.config.js:169 | for every name, a path is a font whenever its suffix, once case-folded, is one of .svg, .woff, .woff2, .ttf or .eot followed by nothing or by `?` and a query without a line break |
| Patterns.FontPatternCases | webpack.config.js:169 | for every name, each of .svg, .woff, .woff2, .ttf and .eot is a font, and so are the mixed-case `.WOFF2` and `.Svg` |
| Patterns.FontQueryCases | webpack.config.js:169 | for every name and every query that starts with `?` and has no line break, `.ttf` and `.eot` followed by that query are fonts |
| Patterns.FontNeedsExtension | webpack.config.js:169 | a path without a dot is no font |
| Patterns.ImagePatternCases | webpack.config.js:173 | for every name, .jpg, .jpeg, .png and .gif are images; with no `i` flag `.JPG` is not, nor is `.webp` |
| ModuleDispatch.StyleChainShape | webpack.config.js:113-158 | the chain is injector-or-extractor, exactly one css-loader (CSS modules iff outside node_modules and src/style, with importLoaders exactly then), postcss-loader, and sass-loader only for .sass/.scss with src/style on its include path; every sourceMap is !isPro |
| ModuleDispatch.CssOneOfContribution | webpack.config.js:119-141 | the oneOf picks the global css-loader under node_modules or src/style and the CSS-modules one elsewhere, and sets no module type |
| ModuleDispatch.InjectRuleDispatch | webpack.config.js:116-118 | the first style sub-rule always gives style-loader, or the extraction loader in production |
| ModuleDispatch.PostcssRuleDispatch | webpack.config.js:142-147 | the postcss sub-rule always applies, with sourceMap !isPro |
| ModuleDispatch.SassRuleDispatch | webpack.config.js:148-156 | the sass sub-rule applies exactly to .sass and .scss paths |
| ModuleDispatch.StyleSubRulesPhase | webpack.config.js:115-157 | the nested style rules give exactly the style chain in the normal phase and nothing in the pre phase |
| ModuleDispatch.StyleSubRulesType | webpack.config.js:115-157 | the nested style rules set no module type |
| ModuleDispatch.StyleRuleContribution | webpack.config.js:113-158 | the style rule gives the style chain exactly to stylesheets |
| ModuleDispatch.TsRuleDispatch | webpack.config.js:92-96 | ts-loader exactly for .ts/.tsx outside node_modules |
| ModuleDispatch.SourceMapRuleDispatch | webpack.config.js:97-102 | source-map-loader, as a pre-loader, exactly for script paths not under `<dir>/src` |
| ModuleDispatch.BabelRulesDispatch | webpack.config.js:103-112 | the two babel rules together give babel-loader once, exactly to scripts outside node_modules or in an lru package |
| ModuleDispatch.ScriptRulesDispatch | webpack.config.js:92-112 | the four script rules give ts-loader, then the source-map pre-loader, then babel-loader, each under its own condition |
| ModuleDispatch.ScriptRulesType | webpack.config.js:92-112 | the script rules set no module type |
| ModuleDispatch.JsonRuleDispatch | webpack.config.js:159-163 | json-loader and type javascript/auto exactly for .json |
| ModuleDispatch.DocumentRuleDispatch | webpack.config.js:164-167 | raw-loader exactly for .xml/.html/.txt/.md |
| ModuleDispatch.FontRuleDispatch | webpack.config.js:168-171 | fonts (case-insensitive, optional query) get file-loader in production and url-loader otherwise |
| ModuleDispatch.ImageRuleDispatch | webpack.config.js:172-175 | images get url-loader with limit 10000 in every mode |
| ModuleDispatch.AssetRulesDispatch | webpack.config.js:159-175 | the four asset rules give json, raw, font and image loaders in that order, each under its own condition |
| ModuleDispatch.AssetRulesType | webpack.config.js:159-175 | the asset rules set javascript/auto exactly for JSON |
| ModuleDispatch.RulesSplit | webpack.config.js:91-176 | the table runs as the script rules, then the style rule, then the asset rules |
| ModuleDispatch.PhaseSplit | webpack.config.js:91-176 | each phase's loaders are the script rules', then the style rule's, then the asset rules' |
| ModuleDispatch.TypeSplit | webpack.config.js:91-176 | the module type is the last group's that sets one |
| ModuleDispatch.RulesPre | webpack.config.js:97-102 | the whole table's pre-loaders are the source-map loader, exactly for scripts outside src |
| ModuleDispatch.RulesNormal | webpack.config.js:91-176 | the whole table's normal loaders are the script loaders, then the style chain for stylesheets, then the asset loaders |
| ModuleDispatch.RulesType | webpack.config.js:159-163 | the whole table sets javascript/auto exactly for JSON |
| ModuleDispatch.DispatchMatchesReference | webpack.config.js:90-177 | for every mode and path, matching the rule table gives exactly the category-by-category dispatch `Expected` |
| DispatchProperties.ScriptDispatch | webpack.config.js:97-112 | a script gets the source-map pre-loader iff outside src, babel-loader iff outside node_modules or in an lru package, and never ts-loader |
| DispatchProperties.TypeScriptDispatch | webpack.config.js:92-96 | a .ts/.tsx file gets ts-loader iff outside node_modules, never babel-loader and no pre-loader |
| DispatchProperties.StyleDispatch | webpack.config.js:113-158 | a stylesheet gets exactly the style chain (plus the font loader only when its path also reads as a font with a query), no pre-loader and no type; it starts with style-loader outside production and the extraction loader in production |
| DispatchProperties.ModuleTypeOnlyForJson | webpack.config.js:159-163 | a module type is set iff the path is JSON, and it is javascript/auto; json-loader is present iff the path is JSON |
| DispatchProperties.ScriptLoadersMembers | webpack.config.js:92-112 | ts-loader and babel-loader each appear exactly for their own sources, and nothing else comes from the script rules |
| DispatchProperties.AssetLoadersMembers | webpack.config.js:159-175 | each asset loader appears exactly for its own category: json, raw, file-loader only in production, unlimited url-loader only outside it, limited url-loader for images |
| DispatchProperties.StyleChainMembers | webpack.config.js:113-158 | the style chain holds no script, JSON, document, font or image loader |
| DispatchProperties.NormalParts | webpack.config.js:91-176 | every normal loader comes from the script loaders, the style chain of a stylesheet, or the asset loaders |
| DispatchProperties.AssetDispatch | webpack.config.js:164-175 | raw-loader iff document; file-loader iff font in production; unlimited url-loader iff font outside production; url-loader with limit 10000 iff image, in every mode |
| DispatchProperties.UnmatchedPassThrough | webpack.config.js:91-176 | a path in no category gets no loader and no module type |
| DispatchProperties.ModeAffectsOnlyStylesAndFonts | webpack.config.js:113-175 | pre-loaders and module types never depend on the mode; neither does the whole dispatch of a path that is neither stylesheet nor font |
| BuildModes.UatOverrideIgnoresMode | webpack.config.js:13-18 | with isuat 'true' the whole configuration is the same for every `mode` |
| BuildModes.UatBuild | webpack.config.js:21-197 | a uat build has plain output and CSS names, full source maps, the split-chunks policy, and keeps console calls |
| BuildModes.UatStylesheetsInjected | webpack.config.js:117 | in a uat build every stylesheet starts with style-loader |
| BuildModes.UnrecognisedModeBuild | webpack.config.js:21-197 | for an unrecognised mode this file adds no check: all flags false give plain names, cheap source maps, and the split-chunks policy without dropping console |
| BuildModes.ProductionBuild | webpack.config.js:21-197 | a production build hashes all four emitted names, maps fully and drops console calls |
| BuildModes.DevelopmentStylesheetsInjected | webpack.config.js:117 | in a development build every stylesheet starts with style-loader, so the registered extraction plugin receives nothing to extract |
| BuildModes.ProductionStylesheetsExtracted | webpack.config.js:117 | in a production build every stylesheet starts with the extraction loader instead of style-loader |
| BuildModes.DevelopmentBuild | webpack.config.js:21-197 | a development build keeps webpack's default optimization, unhashed output names, the extraction plugin configured with the plain names `[name].css` and `[id].css`, and cheap source maps |

## Left out

- The `resolve` block (webpack.config.js:34-49) is static data that no decision reads.
- What webpack, its loaders and its plugins do is not modelled. They appear only as tags carrying the options the configuration passes them. This covers ts-loader, babel, css, sass, postcss, cssnano, Uglify, HtmlWebpackPlugin, the copy plugin and the bundle analyzer.
- The cache-group assignment algorithm is not modelled. That includes how webpack breaks priority ties at bundle time. `OptimizationFor` states the two groups exactly, priorities included, but not how webpack assigns modules to them.
- The `./env` module is not part of this model. `envSet` is a function parameter, and its `raw` and `stringified` views are string maps. It is assumed to return a `{raw, stringified}` pair for every mode, including an unrecognised or missing one. Whatever `./env` does with such a mode, including throwing, is not modelled.
- HtmlOptions: non-string raw values are not modelled.
- `path.resolve` and `__dirname` are modelled as plain concatenation `dir + "/" + rel`, with no normalisation.
- `process.env.PUBLIC_PATH` and `process.env.PORT` become parameters.
- Number-valued argv entries are integers, so NaN and fractional values are not modelled. Arrays (which a repeated flag such as `--report --report` or `--isuat true --isuat true` produces), `null` and objects are not modelled either: an array is truthy, and it is never `=== 'true'`. Environment.Truthy is exact only for the values that remain.
- webpack 4 removes the `?query` part of a resource before it tests rule conditions. So the font pattern's optional query tail never sees a query in webpack, and the case in DispatchProperties.StyleDispatch where a stylesheet path also reads as a font with a query cannot arise there. The model tests the pattern on whatever path it is given.
- Case folding under a regular expression's `i` flag is modelled on ASCII letters only. JavaScript without the `u` flag folds other letters too (`é` matches `É`), but no character at or above code 128 folds to an ASCII letter, and the font pattern's letters are all ASCII, so the ASCII folding decides that pattern exactly.
- The order in which webpack runs the pre and normal phases is not modelled. Nor is the loader execution order within a chain; the model keeps the listed order only.
