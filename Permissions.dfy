/**
 * Permission reconciliation of BaseActivity: every permission the manifest
 * requests must be granted, except those that the running Android version
 * exempts, before the vision pipeline may start.
 */
module Permissions {

  type Permission = string

  const ForegroundService: Permission := "android.permission.FOREGROUND_SERVICE"
  const WriteExternalStorage: Permission := "android.permission.WRITE_EXTERNAL_STORAGE"
  const ReadExternalStorage: Permission := "android.permission.READ_EXTERNAL_STORAGE"
  const ReadMediaImages: Permission := "android.permission.READ_MEDIA_IMAGES"
  const ReadMediaVideo: Permission := "android.permission.READ_MEDIA_VIDEO"
  const ReadMediaAudio: Permission := "android.permission.READ_MEDIA_AUDIO"

  /** Build.VERSION_CODES.R (Android 11). */
  const VersionCodeR: int := 30

  /** The request code the activity passes to requestPermissions. */
  const PermissionsRequestCode: int := 123

  /** Skipped when denied on versions newer than R. */
  const LegacyExempt: set<Permission> := {ForegroundService, WriteExternalStorage, ReadExternalStorage}

  /** Skipped when denied on R and older. */
  const MediaExempt: set<Permission> := {ReadMediaImages, ReadMediaVideo, ReadMediaAudio}

  /** What the package manager answers when asked for the app's own package. */
  datatype PackageLookup =
    | Found(requestedPermissions: seq<Permission>)
    | NameNotFound

  /** The parts of the device the permission check consults. */
  datatype Platform = Platform(lookup: PackageLookup, granted: set<Permission>, sdkInt: int)

  predicate Exempt(p: Permission, sdkInt: int)
  {
    if sdkInt > VersionCodeR then p in LegacyExempt else p in MediaExempt
  }

  /** A permission does not hold the app back: it is granted, or exempt. */
  predicate Satisfied(p: Permission, granted: set<Permission>, sdkInt: int)
  {
    p in granted || Exempt(p, sdkInt)
  }

  predicate AllSatisfied(required: seq<Permission>, granted: set<Permission>, sdkInt: int)
  {
    required == [] || (Satisfied(required[0], granted, sdkInt) && AllSatisfied(required[1..], granted, sdkInt))
  }

  /** The requiredPermissions getter: the manifest's list, or none if the lookup fails. */
  function RequiredPermissions(lookup: PackageLookup): (r: seq<Permission>)
    ensures lookup.Found? ==> r == lookup.requestedPermissions
    ensures lookup.NameNotFound? ==> r == []
  {
    match lookup
    case Found(requested) => if |requested| > 0 then requested else []
    case NameNotFound => []
  }

  /** allPermissionsGranted: scans the list, skipping exempt denials, failing on the first other one. */
  method AllPermissionsGranted(required: seq<Permission>, granted: set<Permission>, sdkInt: int)
    returns (ok: bool)
    ensures ok <==> forall i :: 0 <= i < |required| ==> Satisfied(required[i], granted, sdkInt)
    ensures ok == AllSatisfied(required, granted, sdkInt)
    ensures required == [] ==> ok
  {
    AllSatisfiedIff(required, granted, sdkInt);
    for i := 0 to |required|
      invariant forall j :: 0 <= j < i ==> Satisfied(required[j], granted, sdkInt)
    {
      var permission := required[i];
      if permission !in granted {
        if sdkInt > VersionCodeR {
          if permission == ForegroundService || permission == WriteExternalStorage
            || permission == ReadExternalStorage
          {
            continue;
          }
        } else {
          if permission == ReadMediaImages || permission == ReadMediaVideo
            || permission == ReadMediaAudio
          {
            continue;
          }
        }
        return false;
      }
    }
    return true;
  }

  /** The recursive definition and the per-element reading agree. */
  lemma {:induction false} AllSatisfiedIff(required: seq<Permission>, granted: set<Permission>, sdkInt: int)
    ensures AllSatisfied(required, granted, sdkInt)
            <==> forall i :: 0 <= i < |required| ==> Satisfied(required[i], granted, sdkInt)
  {
    if required != [] {
      AllSatisfiedIff(required[1..], granted, sdkInt);
      assert forall i :: 1 <= i < |required| ==> required[i] == required[1..][i - 1];
    }
  }

  /** Granting more permissions never turns a satisfied list into an unsatisfied one. */
  lemma {:induction false} GrantingMoreKeepsSatisfied(
    required: seq<Permission>, granted: set<Permission>, more: set<Permission>, sdkInt: int)
    requires granted <= more
    requires AllSatisfied(required, granted, sdkInt)
    ensures AllSatisfied(required, more, sdkInt)
  {
    if required != [] {
      GrantingMoreKeepsSatisfied(required[1..], granted, more, sdkInt);
    }
  }

  /** One required permission that is neither granted nor exempt fails the whole check. */
  lemma {:induction false} DeniedPermissionBlocks(
    required: seq<Permission>, granted: set<Permission>, sdkInt: int, p: Permission)
    requires p in required
    requires !Satisfied(p, granted, sdkInt)
    ensures !AllSatisfied(required, granted, sdkInt)
  {
    if required[0] != p {
      assert required == [required[0]] + required[1..];
      DeniedPermissionBlocks(required[1..], granted, sdkInt, p);
    }
  }

  /**
   * Whether an exempt permission is granted or denied never changes the outcome:
   * the loop skips it.
   */
  lemma {:induction false} ExemptPermissionIsSkipped(
    required: seq<Permission>, granted: set<Permission>, sdkInt: int, p: Permission)
    requires Exempt(p, sdkInt)
    ensures AllSatisfied(required, granted - {p}, sdkInt) == AllSatisfied(required, granted + {p}, sdkInt)
  {
    if required != [] {
      ExemptPermissionIsSkipped(required[1..], granted, sdkInt, p);
    }
  }

  /**
   * An exemption holds only on its own side of the version test: a denied
   * media permission on a version newer than R, or a denied legacy storage or
   * foreground-service permission on R and older, fails the check.
   */
  lemma {:induction false} ExemptionsDoNotCrossVersions(
    required: seq<Permission>, granted: set<Permission>, sdkInt: int, p: Permission)
    requires p in required && p !in granted
    requires (sdkInt > VersionCodeR && p in MediaExempt) || (sdkInt <= VersionCodeR && p in LegacyExempt)
    ensures !AllSatisfied(required, granted, sdkInt)
  {
    DeniedPermissionBlocks(required, granted, sdkInt, p);
  }

  /** The outcome depends only on which permissions are listed, not on order or repetition. */
  lemma OnlyTheSetOfPermissionsMatters(
    required: seq<Permission>, other: seq<Permission>, granted: set<Permission>, sdkInt: int)
    requires forall p :: p in required <==> p in other
    ensures AllSatisfied(required, granted, sdkInt) == AllSatisfied(other, granted, sdkInt)
  {
    AllSatisfiedIff(required, granted, sdkInt);
    AllSatisfiedIff(other, granted, sdkInt);
    if AllSatisfied(required, granted, sdkInt) {
      forall j | 0 <= j < |other| ensures Satisfied(other[j], granted, sdkInt) {
        assert other[j] in required;
      }
    }
    if AllSatisfied(other, granted, sdkInt) {
      forall j | 0 <= j < |required| ensures Satisfied(required[j], granted, sdkInt) {
        assert required[j] in other;
      }
    }
  }
}
