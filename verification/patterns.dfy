/**
 * The regular expressions of the module rules, each as a tag and a string
 * predicate over the resource path that gives its meaning.
 */
module Patterns {

  import opened Text

  datatype Pattern =
    | TypeScript    // /\.tsx?$/
    | Script        // /\.(jsx|js)?$/
    | NodeModules   // /node_modules/
    | LruPackage    // /node_modules(\/|\\)(lru-*)/
    | Stylesheet    // /\.(css|scss|sass)$/
    | Sass          // /\.(sass|scss)$/
    | Json          // /\.json$/
    | Document      // /\.(xml|html|txt|md)$/
    | Font          // /\.(svg|woff2?|ttf|eot)(\?.*)?$/i
    | Image         // /\.(jpe?g|png|gif)$/

  predicate IsTypeScript(p: string) {
    EndsWith(p, ".ts") || EndsWith(p, ".tsx")
  }

  /** The group is optional, so a path that merely ends in "." matches as well. */
  predicate IsScript(p: string) {
    EndsWith(p, ".js") || EndsWith(p, ".jsx") || EndsWith(p, ".")
  }

  predicate InNodeModules(p: string) {
    Contains(p, "node_modules")
  }

  /** `lru-*` allows zero dashes, so any package whose name starts with "lru" is allowed. */
  predicate IsLruPackage(p: string) {
    Contains(p, "node_modules/lru") || Contains(p, "node_modules\\lru")
  }

  predicate IsStylesheet(p: string) {
    EndsWith(p, ".css") || EndsWith(p, ".scss") || EndsWith(p, ".sass")
  }

  predicate IsSass(p: string) {
    EndsWith(p, ".sass") || EndsWith(p, ".scss")
  }

  predicate IsJson(p: string) {
    EndsWith(p, ".json")
  }

  predicate IsDocument(p: string) {
    EndsWith(p, ".xml") || EndsWith(p, ".html") || EndsWith(p, ".txt") || EndsWith(p, ".md")
  }

  /** What may follow a font extension: nothing, or `?` and a query without line terminators. */
  predicate QueryTail(s: string) {
    s == [] || (s[0] == '?' && forall i :: 1 <= i < |s| ==> !IsLineTerminator(s[i]))
  }

  predicate FontExtensionThenQuery(s: string, ext: string) {
    StartsWith(s, ext) && QueryTail(s[|ext|..])
  }

  /** The font pattern, tried at every position of an already case-folded path. */
  predicate FontFrom(s: string)
    decreases |s|
  {
    || FontExtensionThenQuery(s, ".svg")
    || FontExtensionThenQuery(s, ".woff")
    || FontExtensionThenQuery(s, ".woff2")
    || FontExtensionThenQuery(s, ".ttf")
    || FontExtensionThenQuery(s, ".eot")
    || (|s| > 0 && FontFrom(s[1..]))
  }

  predicate IsFont(p: string) {
    FontFrom(Lower(p))
  }

  predicate IsImage(p: string) {
    EndsWith(p, ".jpg") || EndsWith(p, ".jpeg") || EndsWith(p, ".png") || EndsWith(p, ".gif")
  }

  /** Whether a pattern's regular expression matches the path. */
  predicate Matches(pat: Pattern, p: string) {
    match pat
    case TypeScript => IsTypeScript(p)
    case Script => IsScript(p)
    case NodeModules => InNodeModules(p)
    case LruPackage => IsLruPackage(p)
    case Stylesheet => IsStylesheet(p)
    case Sass => IsSass(p)
    case Json => IsJson(p)
    case Document => IsDocument(p)
    case Font => IsFont(p)
    case Image => IsImage(p)
  }

  /** Every path the `lru` allow-list admits is a path the `node_modules` exclusion removes. */
  lemma LruPackageIsInNodeModules(p: string)
    requires IsLruPackage(p)
    ensures InNodeModules(p)
  {
    if Contains(p, "node_modules/lru") {
      assert "node_modules/lru" == "node_modules" + "/lru";
      ContainsShorter(p, "node_modules", "/lru");
    } else {
      assert "node_modules\\lru" == "node_modules" + "\\lru";
      ContainsShorter(p, "node_modules", "\\lru");
    }
  }

  /** The TypeScript and script patterns never match the same path. */
  lemma TypeScriptIsNotScript(p: string)
    requires IsTypeScript(p)
    ensures !IsScript(p)
  {
    assert p[|p| - 1] == 's' || p[|p| - 1] == 'x';
    assert EndsWith(p, ".ts") ==> p[|p| - 2] == 't';
    assert EndsWith(p, ".tsx") ==> p[|p| - 3] == 't';
  }

  /** A stylesheet path ends in "ss", which no script, TypeScript, JSON, document or image path does. */
  lemma StylesheetIsExclusive(p: string)
    requires IsStylesheet(p)
    ensures !IsScript(p) && !IsTypeScript(p) && !IsJson(p) && !IsDocument(p) && !IsImage(p)
  {
    assert p[|p| - 1] == 's' && p[|p| - 2] == 's';
  }

  // ---------------------------------------------------------------- what each pattern admits

  /** `\.tsx?$`: `.ts` and `.tsx` at the very end, whatever comes before; nothing after them. */
  lemma TypeScriptPatternCases(name: string)
    ensures IsTypeScript(name + ".ts") && IsTypeScript(name + ".tsx")
    ensures !IsTypeScript(name + ".js") && !IsTypeScript(name + ".ts.map")
  {
    EndsWithAppended(name, ".ts");
    EndsWithAppended(name, ".tsx");
    assert (name + ".js")[|name| + 1] == 'j';
    assert (name + ".ts.map")[|name| + 6] == 'p';
  }

  /** `\.(jsx|js)?$`: `.js`, `.jsx` and, the group being optional, a bare trailing dot; not `.json`, `.mjs` or `.ts`. */
  lemma ScriptPatternCases(name: string)
    ensures IsScript(name + ".js") && IsScript(name + ".jsx") && IsScript(name + ".")
    ensures !IsScript(name + ".json") && !IsScript(name + ".mjs") && !IsScript(name + ".ts")
  {
    EndsWithAppended(name, ".js");
    EndsWithAppended(name, ".jsx");
    EndsWithAppended(name, ".");
    assert (name + ".json")[|name| + 4] == 'n';
    assert (name + ".mjs")[|name| + 1] == 'm' && (name + ".mjs")[|name| + 3] == 's';
    assert (name + ".ts")[|name| + 1] == 't' && (name + ".ts")[|name| + 2] == 's';
  }

  /** `/node_modules/` has no anchor: it matches exactly the paths with `node_modules` at some index. */
  lemma NodeModulesPatternCases(p: string, pre: string, post: string)
    ensures InNodeModules(p) <==> exists i :: OccursAt(p, "node_modules", i)
    ensures InNodeModules(pre + "node_modules" + post)
  {
    ContainsIffOccurrence(p, "node_modules");
    ContainsBetween(pre, "node_modules", post);
  }

  /**
   * `node_modules(\/|\\)(lru-*)`: either separator, and `-*` admits zero
   * dashes, so every package whose name starts with `lru` is admitted.
   */
  lemma LruPatternCases(pre: string, rest: string)
    ensures IsLruPackage(pre + "node_modules/lru" + rest)
    ensures IsLruPackage(pre + "node_modules\\lru" + rest)
  {
    ContainsBetween(pre, "node_modules/lru", rest);
    ContainsBetween(pre, "node_modules\\lru", rest);
  }

  /** `\.(css|scss|sass)$` and `\.(sass|scss)$`: Less is no stylesheet here, and plain CSS is not Sass. */
  lemma StylesheetPatternCases(name: string)
    ensures IsStylesheet(name + ".css") && IsStylesheet(name + ".scss") && IsStylesheet(name + ".sass")
    ensures !IsStylesheet(name + ".less")
    ensures IsSass(name + ".scss") && IsSass(name + ".sass") && !IsSass(name + ".css")
  {
    EndsWithAppended(name, ".css");
    EndsWithAppended(name, ".scss");
    EndsWithAppended(name, ".sass");
    assert (name + ".less")[|name| + 1] == 'l' && (name + ".less")[|name| + 2] == 'e';
    assert (name + ".css")[|name|] == '.' && (name + ".css")[|name| + 1] == 'c';
  }

  /** `\.json$` and `\.(xml|html|txt|md)$`. */
  lemma DataPatternCases(name: string)
    ensures IsJson(name + ".json") && !IsJson(name + ".json5")
    ensures IsDocument(name + ".xml") && IsDocument(name + ".html") && IsDocument(name + ".txt") && IsDocument(name + ".md")
    ensures !IsDocument(name + ".htm")
  {
    EndsWithAppended(name, ".json");
    assert (name + ".json5")[|name| + 5] == '5';
    EndsWithAppended(name, ".xml");
    EndsWithAppended(name, ".html");
    EndsWithAppended(name, ".txt");
    EndsWithAppended(name, ".md");
    assert (name + ".htm")[|name| + 3] == 'm' && (name + ".htm")[|name| + 2] == 't';
  }

  /** `\.(jpe?g|png|gif)$` has no `i` flag: an upper-case extension is no image, nor is `.webp`. */
  lemma ImagePatternCases(name: string)
    ensures IsImage(name + ".jpg") && IsImage(name + ".jpeg") && IsImage(name + ".png") && IsImage(name + ".gif")
    ensures !IsImage(name + ".JPG") && !IsImage(name + ".webp")
  {
    EndsWithAppended(name, ".jpg");
    EndsWithAppended(name, ".jpeg");
    EndsWithAppended(name, ".png");
    EndsWithAppended(name, ".gif");
    assert (name + ".JPG")[|name| + 3] == 'G';
    assert (name + ".webp")[|name| + 4] == 'p';
  }

  /** A font extension found after any prefix is found in the whole string. */
  lemma {:induction false} FontAfter(pre: string, s: string)
    requires FontFrom(s)
    ensures FontFrom(pre + s)
  {
    if |pre| > 0 {
      assert (pre + s)[1..] == pre[1..] + s;
      FontAfter(pre[1..], s);
    } else {
      assert pre + s == s;
    }
  }

  /** Without a dot there is no font extension. */
  lemma {:induction false} FontNeedsDot(s: string)
    requires '.' !in s
    ensures !FontFrom(s)
  {
    if |s| > 0 {
      assert s[0] != '.';
      assert forall c :: c in s[1..] ==> c in s;
      FontNeedsDot(s[1..]);
    }
  }

  /** A path is a font when its suffix, once case-folded, is a font extension and an optional query; its name does not matter. */
  lemma FontNamed(name: string, suffix: string, ext: string)
    requires FontExtensionThenQuery(Lower(suffix), ext)
    requires ext in {".svg", ".woff", ".woff2", ".ttf", ".eot"}
    ensures IsFont(name + suffix)
  {
    LowerAppend(name, suffix);
    FontAfter(Lower(name), Lower(suffix));
  }

  /** `\.(svg|woff2?|ttf|eot)(\?.*)?$` with the `i` flag: every extension, in any letter case. */
  lemma FontPatternCases(name: string)
    ensures IsFont(name + ".svg") && IsFont(name + ".woff") && IsFont(name + ".woff2")
    ensures IsFont(name + ".ttf") && IsFont(name + ".eot")
    ensures IsFont(name + ".WOFF2") && IsFont(name + ".Svg")
  {
    assert Lower(".svg") == ".svg" && Lower(".Svg") == ".svg";
    FontNamed(name, ".svg", ".svg");
    FontNamed(name, ".Svg", ".svg");
    assert Lower(".woff") == ".woff";
    FontNamed(name, ".woff", ".woff");
    assert Lower(".woff2") == ".woff2" && Lower(".WOFF2") == ".woff2";
    FontNamed(name, ".woff2", ".woff2");
    FontNamed(name, ".WOFF2", ".woff2");
    assert Lower(".ttf") == ".ttf";
    FontNamed(name, ".ttf", ".ttf");
    assert Lower(".eot") == ".eot";
    FontNamed(name, ".eot", ".eot");
  }

  /** An extension already in lower case followed by a query reads, case-folded, as that extension and that query. */
  lemma FoldedQuery(ext: string, query: string)
    requires Lower(ext) == ext
    requires |query| > 0 && query[0] == '?'
    requires forall i :: 0 < i < |query| ==> !IsLineTerminator(query[i])
    ensures FontExtensionThenQuery(Lower(ext + query), ext)
  {
    LowerKeepsPunctuation(query);
    LowerAppend(ext, query);
    assert Lower(ext + query)[|ext|..] == Lower(query);
  }

  /** The font pattern admits `?` and any query without a line break after the extension, such as a cache-busting version. */
  lemma FontQueryCases(name: string, query: string)
    requires |query| > 0 && query[0] == '?'
    requires forall i :: 0 < i < |query| ==> !IsLineTerminator(query[i])
    ensures IsFont(name + ".ttf" + query) && IsFont(name + ".eot" + query)
  {
    assert Lower(".ttf") == ".ttf";
    FoldedQuery(".ttf", query);
    FontNamed(name, ".ttf" + query, ".ttf");
    assert name + ".ttf" + query == name + (".ttf" + query);
    assert Lower(".eot") == ".eot";
    FoldedQuery(".eot", query);
    FontNamed(name, ".eot" + query, ".eot");
    assert name + ".eot" + query == name + (".eot" + query);
  }

  /** A path without a dot is no font, whatever its letter case. */
  lemma FontNeedsExtension(p: string)
    requires '.' !in p
    ensures !IsFont(p)
  {
    LowerKeepsPunctuation(p);
    FontNeedsDot(Lower(p));
  }
}
