/**
 * The speed-limit rule of MainActivity: a known limit and the vehicle's
 * speed select one of two display variants of the speed sign.
 */
module SpeedLimits {

  import opened Resources

  /** The value of maxAllowedSpeed while no speed limit is known. */
  const NoLimit: real := -1.0

  /** Kotlin's Int.MIN_VALUE and Int.MAX_VALUE. */
  const IntMin: int := -0x8000_0000
  const IntMax: int := 0x7fff_ffff

  /** The two display variants, each with its sign image and its text colour. */
  datatype SpeedLimit = Overspeeding | NormalSpeed
  {
    function ImageRes(): Drawable
    {
      match this
      case Overspeeding => SpeedLimitOverspeeding
      case NormalSpeed => SpeedLimitNormal
    }

    function TextColor(): Color
    {
      match this
      case Overspeeding => White
      case NormalSpeed => Black
    }
  }

  /** The variant chosen for a vehicle speed under a known limit. */
  function Classify(speed: real, maxAllowedSpeed: real): SpeedLimit
  {
    if speed > maxAllowedSpeed && maxAllowedSpeed > 0.0 then Overspeeding else NormalSpeed
  }

  /** Overspeeding exactly when the speed exceeds a positive limit; normal otherwise. */
  lemma OverspeedingIffAbovePositiveLimit(speed: real, maxAllowedSpeed: real)
    ensures Classify(speed, maxAllowedSpeed) == Overspeeding <==> speed > maxAllowedSpeed > 0.0
    ensures Classify(speed, maxAllowedSpeed) == NormalSpeed <==> speed <= maxAllowedSpeed || maxAllowedSpeed <= 0.0
  {
  }

  /** A limit of zero, or any negative limit, never warns. */
  lemma NonPositiveLimitIsNormal(speed: real, maxAllowedSpeed: real)
    requires maxAllowedSpeed <= 0.0
    ensures Classify(speed, maxAllowedSpeed) == NormalSpeed
  {
  }

  /** Driving faster never clears a warning; a higher limit never raises one. */
  lemma ClassifyIsMonotone(speed: real, faster: real, maxAllowedSpeed: real, higher: real)
    requires speed <= faster
    requires 0.0 < maxAllowedSpeed <= higher
    ensures Classify(speed, maxAllowedSpeed) == Overspeeding ==> Classify(faster, maxAllowedSpeed) == Overspeeding
    ensures Classify(speed, higher) == Overspeeding ==> Classify(speed, maxAllowedSpeed) == Overspeeding
  {
  }

  /**
   * The fixed display attributes: the overspeeding image with white text, the
   * normal image with black text; so image and colour each tell the variants apart.
   */
  lemma DisplayAttributes(a: SpeedLimit, b: SpeedLimit)
    ensures Overspeeding.ImageRes() == SpeedLimitOverspeeding && Overspeeding.TextColor() == White
    ensures NormalSpeed.ImageRes() == SpeedLimitNormal && NormalSpeed.TextColor() == Black
    ensures a.ImageRes() == b.ImageRes() <==> a == b
    ensures a.TextColor() == b.TextColor() <==> a == b
  {
  }

  /**
   * Kotlin's Float.toInt(): rounds toward zero and saturates at the bounds of
   * a 32-bit Int.
   */
  function TruncateToInt(x: real): (n: int)
    ensures IntMin <= n <= IntMax
    ensures 0.0 <= x ==> 0 <= n && n as real <= x && (n == IntMax || x < n as real + 1.0)
    ensures x <= 0.0 ==> n <= 0 && x <= n as real && (n == IntMin || n as real - 1.0 < x)
  {
    if x >= 0.0 then
      (if x.Floor > IntMax then IntMax else x.Floor)
    else
      var t := -((-x).Floor);
      if t < IntMin then IntMin else t
  }

  /** A whole number in range is shown as itself. */
  lemma TruncateKeepsWholeNumbers(k: int)
    requires IntMin <= k <= IntMax
    ensures TruncateToInt(k as real) == k
  {
  }
}
