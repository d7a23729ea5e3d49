# ArSpeedLimit: permission gate, speed-limit warning, detection icon and vision lifecycle

ArSpeedLimit is an Android app that lays a camera view over the road, shows an
icon for the objects the Mapbox Vision SDK detects, and switches its speed-limit
sign to the overspeeding image with white text when the vehicle drives faster
than the limit the SDK read from a road sign. All perception lives in the closed SDK. This project models the four
decision rules the app itself contains, with every SDK and view call recorded
as an event in a log:

- **Permission reconciliation** (`Permissions`, from `BaseActivity`): every
  permission the manifest requests must be granted, except that on versions
  newer than Android 11 (R) a denied FOREGROUND_SERVICE, WRITE_EXTERNAL_STORAGE
  or READ_EXTERNAL_STORAGE is skipped, and on R and older a denied
  READ_MEDIA_IMAGES, READ_MEDIA_VIDEO or READ_MEDIA_AUDIO is skipped.
  `AllPermissionsGranted` is the source's loop, with its `continue` and early
  `return false`, proved equal to the recursive predicate `AllSatisfied`.
  The lemmas beside it cover the characterisation per element, monotonicity in
  the granted set, blocking by any denied non-exempt permission, indifference to
  exempt ones, and independence from list order.
- **Speed-limit state** (`SpeedLimits`, and the fields `maxAllowedSpeed`,
  `speedSignImage`, `speedTextColor`, `speedText`, `speedAlertVisible` of
  `Activity.MainActivity`): `-1` means that no limit is known. A speed is
  Overspeeding exactly when it exceeds a positive limit. Each variant has a
  fixed image and text colour. The label shows the limit truncated to a 32-bit
  Int, as Kotlin's `Float.toInt()` does: toward zero, saturating at the bounds.
- **Detection icon** (`Detections`, and `MainActivity.OnFrameDetectionsUpdated`):
  each detection of class Car, Person, Bicycle, TrafficSign or TrafficLight with
  confidence strictly above 0.6 posts its icon, in list order. So the view shows
  the icon of the last such detection, or keeps its icon when none qualifies.
- **Vision manager lifecycle** (`VisionLifecycle`, and
  `MainActivity.StartVisionManager` / `StopVisionManager`): a start issues six
  SDK calls inside one try block and sets `visionManagerWasInit` only after the
  last one. Any call may throw; the parameter `throwing` names the calls that
  do. A stop issues the three teardown calls, the reverse of what the start
  acquired, and clears the flag. Both are no-ops in the wrong state.

`BaseActivity` is abstract and `MainActivity` is its only subclass, so the model
folds both into one class, `Activity.MainActivity`. There, the inherited
`OnCreate` and `OnRequestPermissionsResult` call `OnPermissionsGranted`, which
starts the vision manager. The permission oracle (`checkSelfPermission`), the
package manager and the SDK version are inputs (`Permissions.Platform`). SDK
callbacks are method calls with their payloads as parameters.

`onStart` starts the vision manager without checking any permission
(`OnStart` has no permission test), so the permission gate in `onCreate` does
not keep the SDK from starting when permissions are missing: the next
`onStart` starts it anyway.

The source comment beside the exemption test speaks of devices older than
Android P. The code tests `SDK_INT > R`, and the model follows the code.

`VisionLifecycle.FailedStartLeavesResources` states what a start that throws
part-way leaves behind. If any call after `VisionManager.create` throws, the
manager has been created and possibly started, but the flag stays false. So
`stopVisionManager` releases nothing, and the next start creates the manager again.

## Model

| member | source | states |
|---|---|---|
| `Permissions.RequiredPermissions` | app/src/main/java/com/intelligentapps/arspeedlimit/BaseActivity.kt:87-105 | the manifest's requested list when the package is found (an empty list stays empty), and no permissions when the lookup fails |
| `Permissions.AllPermissionsGranted` | app/src/main/java/com/intelligentapps/arspeedlimit/BaseActivity.kt:58-85 | true iff every required permission is granted or exempt for the SDK version; equals `AllSatisfied`; an empty list yields true |
| `Permissions.AllSatisfiedIff` | app/src/main/java/com/intelligentapps/arspeedlimit/BaseActivity.kt:59-83 | the list is satisfied iff each element is granted or exempt, each checked on its own |
| `Permissions.GrantingMoreKeepsSatisfied` | app/src/main/java/com/intelligentapps/arspeedlimit/BaseActivity.kt:59-83 | granting more permissions never turns a true result into false |
| `Permissions.DeniedPermissionBlocks` | app/src/main/java/com/intelligentapps/arspeedlimit/BaseActivity.kt:81 | one required permission that is denied and not exempt makes the result false |
| `Permissions.ExemptPermissionIsSkipped` | app/src/main/java/com/intelligentapps/arspeedlimit/BaseActivity.kt:68-79 | for a permission exempt at this SDK version (foreground service and legacy storage above R, media permissions at R and below), granting or denying it does not change the result |
| `Permissions.ExemptionsDoNotCrossVersions` | app/src/main/java/com/intelligentapps/arspeedlimit/BaseActivity.kt:68-81 | a denied media permission above R, or a denied legacy storage or foreground-service permission at R and below, makes the result false |
| `Permissions.OnlyTheSetOfPermissionsMatters` | app/src/main/java/com/intelligentapps/arspeedlimit/BaseActivity.kt:59-84 | two lists naming the same permissions, in any order and with any repetition, get the same result |
| `Activity.MainActivity.OnCreate` | app/src/main/java/com/intelligentapps/arspeedlimit/BaseActivity.kt:49-55 | views are set up first; then the vision manager is started iff all permissions are satisfied, otherwise the required list is requested with code 123 and nothing else happens |
| `Activity.MainActivity.OnRequestPermissionsResult` | app/src/main/java/com/intelligentapps/arspeedlimit/BaseActivity.kt:112-121 | starts the vision manager only when all permissions are satisfied and the request code is 123; otherwise changes nothing |
| `SpeedLimits.OverspeedingIffAbovePositiveLimit` | app/src/main/java/com/intelligentapps/arspeedlimit/MainActivity.kt:162-166 | Overspeeding iff speed > limit and limit > 0; NormalSpeed otherwise |
| `SpeedLimits.NonPositiveLimitIsNormal` | app/src/main/java/com/intelligentapps/arspeedlimit/MainActivity.kt:162 | a limit of 0 or any negative limit always yields NormalSpeed |
| `SpeedLimits.ClassifyIsMonotone` | app/src/main/java/com/intelligentapps/arspeedlimit/MainActivity.kt:162-166 | driving faster never clears a warning and a higher positive limit never raises one |
| `SpeedLimits.DisplayAttributes` | app/src/main/java/com/intelligentapps/arspeedlimit/MainActivity.kt:61-64 | Overspeeding shows the overspeeding drawable with white text and NormalSpeed the normal drawable with black text, so image and colour each identify the variant |
| `SpeedLimits.TruncateToInt` | app/src/main/java/com/intelligentapps/arspeedlimit/MainActivity.kt:200 | the label value is the limit rounded toward zero and saturated to the 32-bit Int range |
| `SpeedLimits.TruncateKeepsWholeNumbers` | app/src/main/java/com/intelligentapps/arspeedlimit/MainActivity.kt:200 | a whole-number limit in Int range is shown as itself |
| `Activity.MainActivity.constructor` | app/src/main/java/com/intelligentapps/arspeedlimit/MainActivity.kt:48-49 | starts with no known limit (-1), the vision manager not initialised, and nothing shown or issued |
| `Activity.MainActivity.OnRoadRestrictionsUpdated` | app/src/main/java/com/intelligentapps/arspeedlimit/MainActivity.kt:195-205 | always stores the car maximum; only when it is not -1 sets the label to its truncation and shows the alert; keeps the invariant that a known limit is on the label |
| `Activity.MainActivity.OnVehicleStateUpdated` | app/src/main/java/com/intelligentapps/arspeedlimit/MainActivity.kt:156-172 | with limit -1 issues no call and changes no view; otherwise sets the sign image and text colour of the variant `Classify` picks |
| `Detections.ClassIcon` | app/src/main/java/com/intelligentapps/arspeedlimit/MainActivity.kt:120-144 | exactly the five tracked classes have an icon, and each icon maps back to its class |
| `Detections.LastQualifying` | app/src/main/java/com/intelligentapps/arspeedlimit/MainActivity.kt:117-146 | the index of a qualifying detection (tracked class, confidence > 0.6) with no qualifying one after it; none iff no detection qualifies |
| `Detections.LastPostedIconWins` | app/src/main/java/com/intelligentapps/arspeedlimit/MainActivity.kt:117-146 | a frame posts an update iff some detection qualifies, and the last update posted is the icon of the last qualifying detection |
| `Detections.PostedIconsAreQualifyingIcons` | app/src/main/java/com/intelligentapps/arspeedlimit/MainActivity.kt:117-146 | the class icon of every qualifying detection is posted, every posted icon is the class icon of some qualifying detection, and no more icons are posted than there are detections |
| `Activity.MainActivity.OnFrameDetectionsUpdated` | app/src/main/java/com/intelligentapps/arspeedlimit/MainActivity.kt:117-146 | posts one icon per qualifying detection in list order; the view ends on the icon of the last qualifying detection, unchanged if none qualifies |
| `VisionLifecycle.Attempted` | app/src/main/java/com/intelligentapps/arspeedlimit/MainActivity.kt:258-283 | the calls issued in one try block are the prefix up to and including the first that throws, or all of them when none throws |
| `VisionLifecycle.AttemptedStopsAtFirstThrow` | app/src/main/java/com/intelligentapps/arspeedlimit/MainActivity.kt:258-283 | when call k is the first to throw, exactly calls 0..k are issued |
| `VisionLifecycle.StopReversesStart` | app/src/main/java/com/intelligentapps/arspeedlimit/MainActivity.kt:286-295 | the stop sequence releases what a completed start acquired, last acquired first released |
| `VisionLifecycle.TeardownReversesOrder` | app/src/main/java/com/intelligentapps/arspeedlimit/MainActivity.kt:286-295 | releases are issued last acquired first: the teardown of a run followed by more calls releases what the later calls acquired before what the run acquired |
| `VisionLifecycle.TeardownReleasesEach` | app/src/main/java/com/intelligentapps/arspeedlimit/MainActivity.kt:260-276 | every acquiring call of a run has its release in the run's teardown |
| `VisionLifecycle.FailedStartLeavesResources` | app/src/main/java/com/intelligentapps/arspeedlimit/MainActivity.kt:258-283 | when a start call other than the first throws, VisionManager was already created and needs a destroy that no stop will issue |
| `Activity.MainActivity.StartVisionManager` | app/src/main/java/com/intelligentapps/arspeedlimit/MainActivity.kt:257-284 | idempotent: with the flag set issues nothing; otherwise issues create, set view, start, set listener, safety create, set safety listener up to the first that throws, and sets the flag iff none threw |
| `Activity.MainActivity.StopVisionManager` | app/src/main/java/com/intelligentapps/arspeedlimit/MainActivity.kt:286-295 | only with the flag set issues safety destroy, stop, destroy in that order; the flag ends false, so a second stop is a no-op |
| `Activity.MainActivity.OnPermissionsGranted` | app/src/main/java/com/intelligentapps/arspeedlimit/MainActivity.kt:208-210 | starts the vision manager |
| `Activity.MainActivity.OnStart` | app/src/main/java/com/intelligentapps/arspeedlimit/MainActivity.kt:237-240 | starts the vision manager (a no-op if the grant flow already did) |
| `Activity.MainActivity.OnStop` | app/src/main/java/com/intelligentapps/arspeedlimit/MainActivity.kt:242-245 | stops the vision manager |

## Left out

- The Mapbox Vision and VisionSafety SDKs: their calls are entries of the call log and their callbacks are methods with the payload as parameters; what the SDK detects is not modelled.
- `runOnUiThread`: posted UI updates run at once and in order. In the source, the road-restriction update reads `maxAllowedSpeed` when the posted update runs, not when it is posted. A later callback in between would change the label; the model does not capture that interleaving.
- Floating point: speeds, limits and confidences are reals. NaN and rounding are not modelled. If the SDK's confidence is a Float, Kotlin compares it, widened to Double, with the Double 0.6, so a confidence of exactly `0.6f` (slightly above 0.6 as a Double) would pass there but not in the model.
- The decimal text of the speed label: the model keeps the Int that is converted to text.
- `checkSelfPermission` is the membership test in the granted set; its `!==` comparison with PERMISSION_GRANTED is read as plain inequality.
- `requiredPermissions` when the package manager returns a null `requestedPermissions` (a manifest with no permissions): the Kotlin non-null declaration would throw there, outside the caught NameNotFoundException. The model assumes a list.
- `OnRequestPermissionsResult` takes no permission or grant-result arrays, because the source ignores them and checks the permissions afresh.
- Activity.MainActivity.StartVisionManager: swallows every throw of a start call, but the source's `catch (e: Exception)` catches only `java.lang.Exception` and its subclasses. A `java.lang.Error` thrown by a start call (an `UnsatisfiedLinkError` while `VisionManager.create()` loads native code, say) escapes `startVisionManager`, `onStart` and `onCreate` with the flag still false; the model does not capture that propagation.
- A teardown call that throws: `stopVisionManager` has no try block, so the exception would leave `onStop`. The model lets only start calls throw.
- `Log.d` of a swallowed start exception: logging.
- The not-supported dialog and VisionLogger call in `BaseActivity.onCreate`, the title, the toasts in `MainActivity.onCreate`, and `SystemInfoUtils.isVisionSupported`: UI and a hardware probe.
- `dpToPx`: display-density float scaling for the dialog.
- `convertImageToBitmap` and `drawSingleDetection`: unused bitmap I/O and floating-point geometry.
- `onCollisionsUpdated`: forwards the SDK object's text to a label. It reads `collisions[0]`, so it fails on an empty array.
- `initViews`, `onResume` and `onPause`: view lookup and forwarding to the vision view. `initViews` appears as the `InitViews` log entry.
- The empty SDK listener callbacks (authorization, segmentation, sign classification, road and world description, camera, country, update completed).
- MyApplication.kt: one conditional SDK `init` call.
- The SDK's detection classes beyond the five tracked ones are all represented by `OtherClass`.
