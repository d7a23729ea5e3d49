/**
 * The Android resources the activity shows: the drawables of R.drawable and
 * the two colours of android.R.color that the speed sign uses.
 */
module Resources {

  datatype Drawable =
    | SpeedLimitOverspeeding
    | SpeedLimitNormal
    | DirectionsCarOrange
    | DirectionsWalk
    | TwoWheeler
    | AltRoute
    | Traffic

  datatype Color = White | Black
}
