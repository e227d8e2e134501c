/**
 * Environment resolution: the webpack invocation flags `argv.mode` and
 * `argv.isuat` become the resolved mode `envMode` and the three booleans
 * `isPro`, `isDev` and `isUat` that every later decision reads.
 */
module Environment {

  import opened Wrappers

  /**
   * A value of an `argv` property as the command line hands it over: absent,
   * a flag without an argument, a string, or a number.
   */
  datatype JsValue = Undefined | Bool(b: bool) | Str(s: string) | Num(n: int)

  /**
   * JavaScript truthiness, as `argv.report ? … : …` tests it: the falsy
   * values are exactly `undefined`, `false`, the empty string and 0, so the
   * strings "false" and "0" are truthy.
   */
  function Truthy(v: JsValue): (b: bool)
    ensures !b <==> v in {Undefined, Bool(false), Str(""), Num(0)}
  {
    match v
    case Undefined => false
    case Bool(b) => b
    case Str(s) => s != ""
    case Num(n) => n != 0
  }

  /** The build targets the configuration recognises. */
  datatype Target = Development | Production | Uat

  function TargetName(t: Target): string {
    match t
    case Development => "development"
    case Production => "production"
    case Uat => "uat"
  }

  /** `envMode`: `argv.mode`, unless `argv.isuat` is exactly the string 'true'. */
  function ResolveMode(mode: JsValue, isuat: JsValue): (envMode: JsValue)
    ensures isuat == Str("true") ==> envMode == Str(TargetName(Uat))
    ensures isuat != Str("true") ==> envMode == mode
    ensures isuat == Bool(true) ==> envMode == mode
  {
    if isuat == Str("true") then Str("uat") else mode
  }

  /** The derived booleans `isPro`, `isDev`, `isUat`. */
  datatype Flags = Flags(isPro: bool, isDev: bool, isUat: bool)

  /** The target a resolved mode names, if any. */
  function Recognise(envMode: JsValue): (t: Option<Target>)
    ensures t.Some? ==> envMode == Str(TargetName(t.value))
    ensures t.None? ==> forall u: Target :: envMode != Str(TargetName(u))
  {
    if envMode == Str("production") then Some(Production)
    else if envMode == Str("development") then Some(Development)
    else if envMode == Str("uat") then Some(Uat)
    else None
  }

  /**
   * The three booleans are strict comparisons of the resolved mode: at most
   * one holds, exactly one holds when the mode names a target, and an
   * unrecognised mode (or none) leaves all three false, with no check in
   * this file.
   */
  function FlagsOf(envMode: JsValue): (f: Flags)
    ensures !(f.isPro && f.isDev) && !(f.isPro && f.isUat) && !(f.isDev && f.isUat)
    ensures f.isPro <==> Recognise(envMode) == Some(Production)
    ensures f.isDev <==> Recognise(envMode) == Some(Development)
    ensures f.isUat <==> Recognise(envMode) == Some(Uat)
    ensures (f.isPro || f.isDev || f.isUat) <==> Recognise(envMode).Some?
  {
    Flags(envMode == Str("production"), envMode == Str("development"), envMode == Str("uat"))
  }

  /** The flags of an invocation: the `isuat` override decides before `mode` is looked at. */
  function FlagsFor(mode: JsValue, isuat: JsValue): (f: Flags)
    ensures isuat == Str("true") ==> f == Flags(false, false, true)
    ensures isuat != Str("true") && mode == Str("production") ==> f == Flags(true, false, false)
    ensures isuat != Str("true") && mode == Str("development") ==> f == Flags(false, true, false)
  {
    FlagsOf(ResolveMode(mode, isuat))
  }
}
