/**
 * Parameter validation and normalisation of the newest client revision
 * (class YeePHP): the constants it checks against, the colour-value and
 * fade-effect rules, and the shape of each colour command.
 */
module YeeParams {
  import opened Protocol

  const AllowedMethods: seq<string> :=
    ["get_prop", "toggle", "set_bright", "set_name", "set_rgb",
     "set_power", "set_default", "set_ct_abx", "set_hsv"]
  const AllowedProps: seq<string> := ["bright", "rgb", "name", "power"]
  const AllowedFadeEffects: seq<string> := ["smooth", "sudden"]
  const AllowedColorTypes: seq<string> := ["ct", "rgb", "hsv"]

  const DefaultFadeEffect: string := "smooth"
  const DefaultFadeDelay: int := 300
  const MinFadeDelay: int := 30
  const MaxFadeDelay: int := 3000
  const DefaultSaturation: int := 50

  /**
   * The caller's options for a colour change (`$params` of `setColor`):
   * each key may be present or absent.
   */
  datatype ColorOptions = ColorOptions(
    colorType: Option<string>,
    sat: Option<int>,
    effect: Option<string>,
    delay: Option<int>)

  /** A command before it is given an id: a method name and its parameters. */
  datatype Request = Request(methodName: string, params: seq<Value>)

  /** The accepted range of a colour value for each colour type. */
  predicate ColorValueInRange(colorType: string, value: int) {
    || (colorType == "ct" && 1700 <= value <= 6500)
    || (colorType == "rgb" && 0 <= value <= 0xFF_FFFF)
    || (colorType == "hsv" && 0 <= value <= 359)
  }

  /** The command that sets a colour of the given type. */
  function ColorMethod(colorType: string): (m: string)
    requires colorType in AllowedColorTypes
    ensures m in AllowedMethods
  {
    if colorType == "ct" then "set_ct_abx"
    else if colorType == "rgb" then "set_rgb"
    else "set_hsv"
  }

  /** The saturation an HSV change ends up with: 50 when absent, else clamped into [0,100]. */
  function Saturation(sat: Option<int>): (s: int)
    ensures 0 <= s <= 100
    ensures sat.None? ==> s == DefaultSaturation
    ensures sat.Some? ==> s == Max(0, Min(100, sat.value))
  {
    if sat.None? then DefaultSaturation else ClampPercent(sat.value)
  }

  /** The effect that applies: the one given, or `smooth`. */
  function EffectOf(opts: ColorOptions): string {
    opts.effect.GetOr(DefaultFadeEffect)
  }

  /** The fade rules: a known effect, and for `smooth` a given delay within [30,3000]. */
  predicate FadeAccepted(opts: ColorOptions) {
    && EffectOf(opts) in AllowedFadeEffects
    && (EffectOf(opts) == "smooth" && opts.delay.Some? ==>
          MinFadeDelay <= opts.delay.value <= MaxFadeDelay)
  }

  /** The delay sent on the wire: 0 for `sudden`, otherwise the given delay or 300. */
  function WireDelay(opts: ColorOptions): int {
    if EffectOf(opts) == "sudden" then 0 else opts.delay.GetOr(DefaultFadeDelay)
  }

  /** `checkColorValue`: range check by colour type, and saturation defaulting for `hsv`. */
  function CheckColorValue(value: int, opts: ColorOptions): (r: Result<ColorOptions, Error>)
    ensures r.Success? <==> opts.colorType.Some? && ColorValueInRange(opts.colorType.value, value)
    ensures r.Failure? && opts.colorType.Some? && opts.colorType.value in AllowedColorTypes ==>
              r.error == InvalidColorValue(value)
    ensures r.Failure? && !(opts.colorType.Some? && opts.colorType.value in AllowedColorTypes) ==>
              r.error == InvalidColorType
    ensures r.Success? && opts.colorType != Some("hsv") ==> r.value == opts
    ensures r.Success? && opts.colorType == Some("hsv") ==>
              r.value == opts.(sat := Some(Saturation(opts.sat)))
  {
    if opts.colorType == Some("ct") then
      if value < 1700 || value > 6500 then Failure(InvalidColorValue(value)) else Success(opts)
    else if opts.colorType == Some("rgb") then
      if value < 0 || value > 16777215 then Failure(InvalidColorValue(value)) else Success(opts)
    else if opts.colorType == Some("hsv") then
      if value < 0 || value > 359 then Failure(InvalidColorValue(value))
      else if opts.sat.None? then Success(opts.(sat := Some(DefaultSaturation)))
      else if opts.sat.value > 100 then Success(opts.(sat := Some(100)))
      else if opts.sat.value < 0 then Success(opts.(sat := Some(0)))
      else Success(opts)
    else
      Failure(InvalidColorType)
  }

  /** `checkFadeParams`: validate the effect, default it, and settle the delay. */
  function CheckFadeParams(opts: ColorOptions): (r: Result<ColorOptions, Error>)
    ensures r.Success? <==> FadeAccepted(opts)
    ensures r.Failure? ==>
              r.error == if EffectOf(opts) !in AllowedFadeEffects then InvalidEffect
                         else InvalidDelay(opts.delay.value)
    ensures r.Success? ==>
              && r.value.colorType == opts.colorType
              && r.value.sat == opts.sat
              && r.value.effect == Some(EffectOf(opts))
    ensures r.Success? && EffectOf(opts) == "sudden" ==> r.value.delay.None?
    ensures r.Success? && EffectOf(opts) == "smooth" ==>
              && r.value.delay == Some(opts.delay.GetOr(DefaultFadeDelay))
              && MinFadeDelay <= r.value.delay.value <= MaxFadeDelay
  {
    if opts.effect.Some? && opts.effect.value !in AllowedFadeEffects then
      Failure(InvalidEffect)
    else
      var o := if opts.effect.None? then opts.(effect := Some(DefaultFadeEffect)) else opts;
      if o.effect.value == "sudden" then
        Success(o.(delay := None))
      else if o.delay.Some? then
        if o.delay.value < MinFadeDelay || o.delay.value > MaxFadeDelay then
          Failure(InvalidDelay(o.delay.value))
        else
          Success(o)
      else
        Success(o.(delay := Some(DefaultFadeDelay)))
  }

  /** `createColorJob`: the command for a colour type, with `[value, (sat,) effect, delay-or-0]`. */
  function ColorJob(value: int, opts: ColorOptions): (r: Result<Request, Error>)
    ensures r.Success? <==> opts.colorType.Some? && opts.colorType.value in AllowedColorTypes
    ensures r.Failure? ==> r.error == InvalidColorType
    ensures r.Success? ==>
              && r.value.methodName == ColorMethod(opts.colorType.value)
              && |r.value.params| == (if opts.colorType.value == "hsv" then 4 else 3)
              && r.value.params[0] == Int(value)
              && r.value.params[|r.value.params| - 2] == (if opts.effect.Some? then Str(opts.effect.value) else Null)
              && r.value.params[|r.value.params| - 1] == Int(opts.delay.GetOr(0))
    ensures r.Success? && opts.colorType == Some("hsv") ==>
              r.value.params[1] == (if opts.sat.Some? then Int(opts.sat.value) else Null)
  {
    var effect := if opts.effect.Some? then Str(opts.effect.value) else Null;
    var delay := Int(if opts.delay.Some? then opts.delay.value else 0);
    if opts.colorType == Some("ct") then
      Success(Request("set_ct_abx", [Int(value), effect, delay]))
    else if opts.colorType == Some("rgb") then
      Success(Request("set_rgb", [Int(value), effect, delay]))
    else if opts.colorType == Some("hsv") then
      var sat := if opts.sat.Some? then Int(opts.sat.value) else Null;
      Success(Request("set_hsv", [Int(value), sat, effect, delay]))
    else
      Failure(InvalidColorType)
  }

  /**
   * The whole of `setColor` short of queueing: default the type to `rgb`,
   * reject an unknown type, check the value, check the fade, build the command.
   */
  function SetColorRequest(color: int, opts: ColorOptions): (r: Result<Request, Error>)
    ensures var t := opts.colorType.GetOr("rgb");
      r.Success? <==> t in AllowedColorTypes && ColorValueInRange(t, color) && FadeAccepted(opts)
    ensures var t := opts.colorType.GetOr("rgb");
      r.Failure? ==>
        r.error == if t !in AllowedColorTypes then InvalidColorType
                   else if !ColorValueInRange(t, color) then InvalidColorValue(color)
                   else if EffectOf(opts) !in AllowedFadeEffects then InvalidEffect
                   else InvalidDelay(opts.delay.value)
    ensures var t := opts.colorType.GetOr("rgb");
      r.Success? ==>
        && r.value.methodName == ColorMethod(t)
        && NoNulls(r.value.params)
        && r.value.params ==
             if t == "hsv" then [Int(color), Int(Saturation(opts.sat)), Str(EffectOf(opts)), Int(WireDelay(opts))]
             else [Int(color), Str(EffectOf(opts)), Int(WireDelay(opts))]
    ensures r.Success? && EffectOf(opts) == "sudden" ==> r.value.params[|r.value.params| - 1] == Int(0)
  {
    var typed := if opts.colorType.None? then opts.(colorType := Some("rgb")) else opts;
    if typed.colorType.value !in AllowedColorTypes then
      Failure(InvalidColorType)
    else
      match CheckColorValue(color, typed)
      case Failure(e) => Failure(e)
      case Success(checked) =>
        match CheckFadeParams(checked)
        case Failure(e) => Failure(e)
        case Success(faded) => ColorJob(color, faded)
  }

  /**
   * The `setPower` guard `!$power === 'on' || !$power === 'off'`: `!` binds
   * first and yields a boolean, which is never identical to a string, so the
   * guard never fires and every power string is accepted.
   */
  function PowerGuardFires(power: string): (fires: bool)
    ensures !fires
  {
    Identical(Not(Str(power)), Str("on")) || Identical(Not(Str(power)), Str("off"))
  }
}
