/**
 * The shape of webpack's `module.rules` as the configuration writes it, and
 * how webpack matches a resource path against it: a rule applies when its
 * `test` and `include` conditions hold and its `exclude` condition does not;
 * an applying rule contributes its own loaders, then every applying nested
 * rule of `rules`, then the first applying rule of `oneOf`. A rule's
 * `enforce: 'pre'` puts its loaders in the pre-loader phase.
 */
module RuleSet {

  import opened Wrappers
  import opened Text
  import opened Patterns

  /** A rule condition: a regular expression, or a list of absolute paths of which the resource must start with one. */
  datatype Cond = Regex(pattern: Pattern) | Under(dirs: seq<string>)

  predicate Holds(c: Cond, p: string) {
    match c
    case Regex(pat) => Matches(pat, p)
    case Under(dirs) => exists d :: d in dirs && StartsWith(p, d)
  }

  datatype Enforce = Normal | Pre

  /** The options `css-loader` receives. */
  datatype CssOptions = CssOptions(modules: bool, sourceMap: bool, importLoaders: Option<nat>, minimize: bool)

  /** The loaders the rules name, each with the options the configuration passes to it. */
  datatype Loader =
    | TsLoader
    | SourceMapLoader
    | BabelLoader
    | StyleLoader
    | MiniCssExtractLoader
    | CssLoader(css: CssOptions)
    | PostcssLoader(sourceMap: bool)
    | SassLoader(sourceMap: bool, data: string, includePaths: seq<string>)
    | JsonLoader
    | RawLoader
    | FileLoader
    | UrlLoader(limit: Option<nat>)

  datatype ModuleType = JavascriptAuto

  datatype Rule = Rule(
    test: Option<Cond> := None,
    includes: Option<Cond> := None,
    excludes: Option<Cond> := None,
    enforce: Enforce := Normal,
    uses: seq<Loader> := [],
    moduleType: Option<ModuleType> := None,
    rules: seq<Rule> := [],
    oneOf: seq<Rule> := [])

  predicate Applies(r: Rule, p: string) {
    && (r.test.None? || Holds(r.test.value, p))
    && (r.includes.None? || Holds(r.includes.value, p))
    && (r.excludes.None? || !Holds(r.excludes.value, p))
  }

  /** What an applying rule contributes to the module: a module type, or a loader in a phase. */
  datatype Effect = SetType(moduleType: ModuleType) | Use(enforce: Enforce, loader: Loader)

  /** The effects of a rule itself, before those of its nested rules. */
  function Own(r: Rule): seq<Effect> {
    (if r.moduleType.Some? then [SetType(r.moduleType.value)] else [])
    + Tagged(r.enforce, r.uses)
  }

  /** What a rule contributes when it applies: its own effects, every applying nested rule, the first applying `oneOf` rule. */
  function Contribution(r: Rule, p: string): seq<Effect>
    decreases r
  {
    if Applies(r, p) then Own(r) + RunAll(r.rules, p) + RunFirst(r.oneOf, p) else []
  }

  /** Every applying rule of a list, in order. */
  function RunAll(rs: seq<Rule>, p: string): seq<Effect>
    decreases rs
  {
    if rs == [] then [] else Contribution(rs[0], p) + RunAll(rs[1..], p)
  }

  /** The first applying rule of a `oneOf` list, if any. */
  function RunFirst(rs: seq<Rule>, p: string): seq<Effect>
    decreases rs
  {
    if rs == [] then []
    else if Applies(rs[0], p) then Contribution(rs[0], p)
    else RunFirst(rs[1..], p)
  }

  /** The loaders of one phase, in the order the rules list them. */
  function Phase(effects: seq<Effect>, e: Enforce): seq<Loader> {
    if effects == [] then []
    else
      (if effects[0].Use? && effects[0].enforce == e then [effects[0].loader] else [])
      + Phase(effects[1..], e)
  }

  /** The module type the rules set; a later setting overrides an earlier one. */
  function TypeOf(effects: seq<Effect>): Option<ModuleType> {
    if effects == [] then None
    else
      var rest := TypeOf(effects[1..]);
      if rest.Some? then rest
      else if effects[0].SetType? then Some(effects[0].moduleType)
      else None
  }

  /** What the rules decide for one resource path. */
  datatype Dispatch = Dispatch(pre: seq<Loader>, normal: seq<Loader>, moduleType: Option<ModuleType>)

  function DispatchOf(rules: seq<Rule>, p: string): Dispatch {
    var effects := RunAll(rules, p);
    Dispatch(Phase(effects, Pre), Phase(effects, Normal), TypeOf(effects))
  }

  lemma {:induction false} PhaseAppend(a: seq<Effect>, b: seq<Effect>, e: Enforce)
    ensures Phase(a + b, e) == Phase(a, e) + Phase(b, e)
  {
    if a == [] {
      assert a + b == b;
    } else {
      assert (a + b)[1..] == a[1..] + b;
      PhaseAppend(a[1..], b, e);
    }
  }

  lemma {:induction false} TypeOfAppend(a: seq<Effect>, b: seq<Effect>)
    ensures TypeOf(a + b) == if TypeOf(b).Some? then TypeOf(b) else TypeOf(a)
  {
    if a == [] {
      assert a + b == b;
    } else {
      assert (a + b)[1..] == a[1..] + b;
      TypeOfAppend(a[1..], b);
    }
  }

  /** Running a list is running its head and then its tail. */
  lemma RunAllCons(r: Rule, rs: seq<Rule>, p: string)
    ensures RunAll([r] + rs, p) == Contribution(r, p) + RunAll(rs, p)
  {
    assert ([r] + rs)[1..] == rs;
  }

  /** The use effects of a loader list in one phase. */
  function Tagged(en: Enforce, uses: seq<Loader>): seq<Effect> {
    seq(|uses|, i requires 0 <= i < |uses| => Use(en, uses[i]))
  }

  lemma {:induction false} PhaseTagged(en: Enforce, uses: seq<Loader>, e: Enforce)
    ensures Phase(Tagged(en, uses), e) == if en == e then uses else []
    ensures TypeOf(Tagged(en, uses)) == None
  {
    if uses != [] {
      assert Tagged(en, uses)[1..] == Tagged(en, uses[1..]);
      PhaseTagged(en, uses[1..], e);
      assert uses == [uses[0]] + uses[1..];
    }
  }

  /** A rule without nested rules contributes its loaders to its own phase, and its module type. */
  lemma LeafContribution(r: Rule, p: string, e: Enforce)
    requires r.rules == [] && r.oneOf == []
    ensures Phase(Contribution(r, p), e) == if Applies(r, p) && r.enforce == e then r.uses else []
    ensures TypeOf(Contribution(r, p)) == if Applies(r, p) then r.moduleType else None
  {
    if Applies(r, p) {
      var head := if r.moduleType.Some? then [SetType(r.moduleType.value)] else [];
      assert Contribution(r, p) == head + Tagged(r.enforce, r.uses) + [];
      assert Contribution(r, p) == head + Tagged(r.enforce, r.uses);
      PhaseAppend(head, Tagged(r.enforce, r.uses), e);
      TypeOfAppend(head, Tagged(r.enforce, r.uses));
      PhaseTagged(r.enforce, r.uses, e);
    }
  }

  /** Running two lists one after the other is running their concatenation. */
  lemma {:induction false} RunAllAppend(a: seq<Rule>, b: seq<Rule>, p: string)
    ensures RunAll(a + b, p) == RunAll(a, p) + RunAll(b, p)
  {
    if a == [] {
      assert a + b == b;
    } else {
      assert (a + b)[0] == a[0] && (a + b)[1..] == a[1..] + b;
      RunAllAppend(a[1..], b, p);
    }
  }

  /** The loaders of one phase of a list: those of its head, then those of its tail. */
  lemma PhaseCons(r: Rule, rs: seq<Rule>, p: string, e: Enforce)
    ensures Phase(RunAll([r] + rs, p), e) == Phase(Contribution(r, p), e) + Phase(RunAll(rs, p), e)
  {
    RunAllCons(r, rs, p);
    PhaseAppend(Contribution(r, p), RunAll(rs, p), e);
  }

  /** The module type of a list: its tail's if the tail sets one, else its head's. */
  lemma TypeOfCons(r: Rule, rs: seq<Rule>, p: string)
    ensures TypeOf(RunAll([r] + rs, p)) ==
      if TypeOf(RunAll(rs, p)).Some? then TypeOf(RunAll(rs, p)) else TypeOf(Contribution(r, p))
  {
    RunAllCons(r, rs, p);
    TypeOfAppend(Contribution(r, p), RunAll(rs, p));
  }

  /** Four sequences laid end to end, however the concatenation is grouped. */
  lemma Regroup<T>(a: seq<T>, b: seq<T>, c: seq<T>, d: seq<T>)
    ensures a + (b + (c + d)) == a + b + c + d
    ensures a + b + (c + d) == a + b + c + d
  {
  }

  /** The phases of a list of four rules, one rule at a time. */
  lemma PhasesOfFour(a: Rule, b: Rule, c: Rule, d: Rule, p: string, e: Enforce)
    ensures Phase(RunAll([a, b, c, d], p), e) ==
      Phase(Contribution(a, p), e) + (Phase(Contribution(b, p), e)
      + (Phase(Contribution(c, p), e) + Phase(Contribution(d, p), e)))
  {
    assert [a, b, c, d] == [a] + ([b] + ([c] + ([d] + [])));
    PhaseCons(a, [b] + ([c] + ([d] + [])), p, e);
    PhaseCons(b, [c] + ([d] + []), p, e);
    PhaseCons(c, [d] + [], p, e);
    PhaseCons(d, [], p, e);
  }

  /** A list of four rules of which only the first may set a module type has that rule's module type. */
  lemma TypeOfFour(a: Rule, b: Rule, c: Rule, d: Rule, p: string)
    requires TypeOf(Contribution(b, p)) == None
    requires TypeOf(Contribution(c, p)) == None
    requires TypeOf(Contribution(d, p)) == None
    ensures TypeOf(RunAll([a, b, c, d], p)) == TypeOf(Contribution(a, p))
  {
    assert [a, b, c, d] == [a] + ([b] + ([c] + ([d] + [])));
    TypeOfCons(a, [b] + ([c] + ([d] + [])), p);
    TypeOfCons(b, [c] + ([d] + []), p);
    TypeOfCons(c, [d] + [], p);
    TypeOfCons(d, [], p);
  }
}
