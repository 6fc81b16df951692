/** The release script's version logic (scripts/version-up.js): comparing
    dotted numeric versions, choosing the master version between package.json
    and build.gradle, and bumping its patch number and the Android build code.

    A version is the list of its numeric components, `"1.2.3"` being
    `[1, 2, 3]`; reading and writing the files is not part of the model. */
module Versioning {

  type Version = seq<nat>

  function Max(a: nat, b: nat): nat { if a >= b then a else b }

  /** Component `i` of `v`, a missing component reading as 0 (`parts[i] || 0`). */
  function Part(v: Version, i: nat): nat { if i < |v| then v[i] else 0 }

  /** Reference order: the sign of the first component, at `i` or later, in
      which `a` and `b` differ (1 if `a` is larger there, -1 if smaller, 0 if
      they never differ). */
  function CompareFrom(a: Version, b: Version, i: nat): (r: int)
    ensures -1 <= r <= 1
    decreases Max(|a|, |b|) - i
  {
    if i >= Max(|a|, |b|) then 0
    else if Part(a, i) > Part(b, i) then 1
    else if Part(a, i) < Part(b, i) then -1
    else CompareFrom(a, b, i + 1)
  }

  function Compare(a: Version, b: Version): int { CompareFrom(a, b, 0) }

  /** `compareVersions`: a loop over the longer length with early returns. */
  method CompareVersions(v1: Version, v2: Version) returns (r: int)
    ensures r == Compare(v1, v2)
    ensures r == 1 || r == 0 || r == -1
  {
    var len := Max(|v1|, |v2|);
    for i := 0 to len
      invariant CompareFrom(v1, v2, i) == Compare(v1, v2)
    {
      var p1 := Part(v1, i);
      var p2 := Part(v2, i);
      if p1 > p2 { return 1; }
      if p1 < p2 { return -1; }
    }
    return 0;
  }

  // ---------------------------------------------------------------------
  // Properties of the order

  /** One step of the comparison, also past the end of both versions. */
  lemma {:induction false} CompareFromStep(a: Version, b: Version, i: nat)
    ensures CompareFrom(a, b, i) ==
      if Part(a, i) > Part(b, i) then 1
      else if Part(a, i) < Part(b, i) then -1
      else CompareFrom(a, b, i + 1)
  {
  }

  /** Past the end of both versions nothing differs any more. */
  lemma {:induction false} CompareFromPastEnd(a: Version, b: Version, i: nat)
    requires i >= Max(|a|, |b|)
    ensures CompareFrom(a, b, i) == 0
  {
  }

  /** From position `i` on, "equal" means every later component is equal. */
  lemma {:induction false} CompareFromZero(a: Version, b: Version, i: nat)
    ensures CompareFrom(a, b, i) == 0 <==> forall j: nat :: i <= j ==> Part(a, j) == Part(b, j)
    decreases Max(|a|, |b|) - i
  {
    if i < Max(|a|, |b|) {
      CompareFromZero(a, b, i + 1);
      if CompareFrom(a, b, i) == 0 {
        forall j: nat | i <= j ensures Part(a, j) == Part(b, j) {
          if j > i { assert i + 1 <= j; }
        }
      }
    }
  }

  /** Two versions compare equal exactly when they agree in every component,
      missing ones read as 0: so `1.2` and `1.2.0` are the same version. */
  lemma EqualIffSameParts(a: Version, b: Version)
    ensures Compare(a, b) == 0 <==> forall j: nat :: Part(a, j) == Part(b, j)
  {
    CompareFromZero(a, b, 0);
  }

  /** Appending zero components never changes the comparison. */
  lemma TrailingZerosIgnored(v: Version, n: nat)
    ensures Compare(v + seq(n, _ => 0), v) == 0
  {
    var w := v + seq(n, _ => 0);
    forall j: nat ensures Part(w, j) == Part(v, j) {
      if j >= |v| && j < |w| { assert w[j] == 0; }
    }
    EqualIffSameParts(w, v);
  }

  lemma {:induction false} CompareFromSelf(v: Version, i: nat)
    ensures CompareFrom(v, v, i) == 0
    decreases Max(|v|, |v|) - i
  {
    if i < |v| { CompareFromSelf(v, i + 1); }
  }

  /** `compareVersions(v, v) == 0`. */
  lemma CompareReflexive(v: Version)
    ensures Compare(v, v) == 0
  {
    CompareFromSelf(v, 0);
  }

  lemma {:induction false} CompareFromAntisymmetric(a: Version, b: Version, i: nat)
    ensures CompareFrom(a, b, i) == -CompareFrom(b, a, i)
    decreases Max(|a|, |b|) - i
  {
    if i < Max(|a|, |b|) { CompareFromAntisymmetric(a, b, i + 1); }
  }

  /** `compareVersions(a, b) == -compareVersions(b, a)`. */
  lemma CompareAntisymmetric(a: Version, b: Version)
    ensures Compare(a, b) == -Compare(b, a)
  {
    CompareFromAntisymmetric(a, b, 0);
  }

  /** Position `k` decides the comparison in favour of `a`: `a` is larger
      there and the two agree on every component from `i` up to `k`. */
  ghost predicate DecidedAt(a: Version, b: Version, i: nat, k: nat)
  {
    i <= k && Part(a, k) > Part(b, k) && forall j: nat :: i <= j < k ==> Part(a, j) == Part(b, j)
  }

  lemma {:induction false} GreaterFromIffDecided(a: Version, b: Version, i: nat)
    ensures CompareFrom(a, b, i) == 1 <==> exists k: nat :: DecidedAt(a, b, i, k)
    decreases Max(|a|, |b|) - i
  {
    if i >= Max(|a|, |b|) {
      CompareFromPastEnd(a, b, i);
      forall k: nat ensures !DecidedAt(a, b, i, k) { }
    } else {
      GreaterFromIffDecided(a, b, i + 1);
      if Part(a, i) > Part(b, i) {
        assert DecidedAt(a, b, i, i);
      } else if Part(a, i) < Part(b, i) {
        forall k: nat ensures !DecidedAt(a, b, i, k) {
          if i < k { assert Part(a, i) != Part(b, i); }
        }
      } else {
        assert CompareFrom(a, b, i) == CompareFrom(a, b, i + 1);
        if CompareFrom(a, b, i + 1) == 1 {
          var k: nat :| DecidedAt(a, b, i + 1, k);
          assert DecidedAt(a, b, i, k);
        }
        forall k: nat | DecidedAt(a, b, i, k) ensures DecidedAt(a, b, i + 1, k) {
          assert k != i;
        }
      }
    }
  }

  /** The comparison is decided by the first differing component, compared
      as a number: `a` is greater exactly when some component of `a` is
      larger and all earlier ones are equal. */
  lemma GreaterIffFirstDifferenceLarger(a: Version, b: Version)
    ensures Compare(a, b) == 1 <==>
      exists k: nat :: Part(a, k) > Part(b, k) && forall j: nat :: j < k ==> Part(a, j) == Part(b, j)
  {
    GreaterFromIffDecided(a, b, 0);
    assert forall k: nat :: DecidedAt(a, b, 0, k) <==>
      (Part(a, k) > Part(b, k) && forall j: nat :: j < k ==> Part(a, j) == Part(b, j));
  }

  /** Components are compared as numbers, not as text. */
  lemma NumericNotTextual()
    ensures Compare([1, 10], [1, 9]) == 1
    ensures Compare([1, 2], [1, 2, 0]) == 0
    ensures Compare([2], [1, 99, 99]) == 1
  {
    assert CompareFrom([1, 10], [1, 9], 0) == CompareFrom([1, 10], [1, 9], 1);
    assert CompareFrom([1, 2], [1, 2, 0], 0) == CompareFrom([1, 2], [1, 2, 0], 3);
  }

  lemma {:induction false} CompareFromTransitive(a: Version, b: Version, c: Version, i: nat)
    requires CompareFrom(a, b, i) >= 0 && CompareFrom(b, c, i) >= 0
    ensures CompareFrom(a, c, i) >= 0
    ensures CompareFrom(a, b, i) == 1 || CompareFrom(b, c, i) == 1 ==> CompareFrom(a, c, i) == 1
    decreases Max(Max(|a|, |b|), |c|) - i
  {
    CompareFromStep(a, b, i);
    CompareFromStep(b, c, i);
    CompareFromStep(a, c, i);
    if i >= Max(Max(|a|, |b|), |c|) {
      CompareFromPastEnd(a, b, i);
      CompareFromPastEnd(b, c, i);
      CompareFromPastEnd(a, c, i);
    } else if Part(a, i) == Part(b, i) && Part(b, i) == Part(c, i) {
      CompareFromTransitive(a, b, c, i + 1);
    }
  }

  /** The order is transitive, strictly so when either step is strict. */
  lemma CompareTransitive(a: Version, b: Version, c: Version)
    requires Compare(a, b) >= 0 && Compare(b, c) >= 0
    ensures Compare(a, c) >= 0
    ensures Compare(a, b) == 1 || Compare(b, c) == 1 ==> Compare(a, c) == 1
  {
    CompareFromTransitive(a, b, c, 0);
  }

  // ---------------------------------------------------------------------
  // Master version and bump

  /** Step 2 of the script: the gradle version becomes master only when it is
      strictly greater than the package version. */
  function MasterVersion(pkgVersion: Version, gradleVersion: Version): Version
  {
    if Compare(gradleVersion, pkgVersion) > 0 then gradleVersion else pkgVersion
  }

  /** The master version is the higher of the two (at least as high as both),
      and on a tie it is the package version. */
  lemma MasterIsHighest(pkgVersion: Version, gradleVersion: Version)
    ensures Compare(MasterVersion(pkgVersion, gradleVersion), pkgVersion) >= 0
    ensures Compare(MasterVersion(pkgVersion, gradleVersion), gradleVersion) >= 0
    ensures Compare(gradleVersion, pkgVersion) <= 0 ==> MasterVersion(pkgVersion, gradleVersion) == pkgVersion
    ensures Compare(gradleVersion, pkgVersion) > 0 ==> MasterVersion(pkgVersion, gradleVersion) == gradleVersion
  {
    CompareReflexive(pkgVersion);
    CompareReflexive(gradleVersion);
    CompareAntisymmetric(gradleVersion, pkgVersion);
  }

  /** `v` padded with zeros to at least major, minor and patch. */
  function Padded(v: Version): Version
  {
    if |v| >= 3 then v else v + seq(3 - |v|, _ => 0)
  }

  /** `v` padded, with its patch (third) component incremented. */
  function Bumped(v: Version): Version
  {
    Padded(v)[2 := Padded(v)[2] + 1]
  }

  /** The bumped version has at least three components; the third is one more
      than before (0 + 1 when it was missing) and every other component is the
      old one (0 where padded). */
  lemma BumpedShape(v: Version)
    ensures |Bumped(v)| == Max(|v|, 3)
    ensures Bumped(v)[2] == Part(v, 2) + 1
    ensures forall i :: 0 <= i < |Bumped(v)| && i != 2 ==> Bumped(v)[i] == Part(v, i)
  {
  }

  /** The bump moves strictly up. */
  lemma BumpedIsGreater(v: Version)
    ensures Compare(Bumped(v), v) == 1
  {
    var w := Bumped(v);
    BumpedShape(v);
    GreaterFromIffDecided(w, v, 0);
    assert DecidedAt(w, v, 0, 2);
  }

  /** No downgrade: the new version is strictly greater than both inputs. */
  lemma NoDowngrade(pkgVersion: Version, gradleVersion: Version)
    ensures Compare(Bumped(MasterVersion(pkgVersion, gradleVersion)), pkgVersion) == 1
    ensures Compare(Bumped(MasterVersion(pkgVersion, gradleVersion)), gradleVersion) == 1
  {
    var m := MasterVersion(pkgVersion, gradleVersion);
    MasterIsHighest(pkgVersion, gradleVersion);
    BumpedIsGreater(m);
    CompareTransitive(Bumped(m), m, pkgVersion);
    CompareTransitive(Bumped(m), m, gradleVersion);
  }

  /** Step 2 of the script: pick the master, pad it with a `while` loop that
      pushes zeros, increment the patch, and increment the build code. */
  method BumpVersion(pkgVersion: Version, gradleVersion: Version, currentVersionCode: nat)
    returns (newVersion: Version, newVersionCode: nat)
    ensures newVersion == Bumped(MasterVersion(pkgVersion, gradleVersion))
    ensures Compare(newVersion, pkgVersion) == 1 && Compare(newVersion, gradleVersion) == 1
    ensures newVersionCode == currentVersionCode + 1
  {
    var masterVersion := pkgVersion;
    var c := CompareVersions(gradleVersion, pkgVersion);
    if c > 0 {
      masterVersion := gradleVersion;
    }
    var versionParts := masterVersion;
    while |versionParts| < 3
      invariant |masterVersion| <= |versionParts| <= Max(|masterVersion|, 3)
      invariant versionParts == masterVersion + seq(|versionParts| - |masterVersion|, _ => 0)
    {
      versionParts := versionParts + [0];
    }
    assert versionParts == Padded(masterVersion);
    versionParts := versionParts[2 := versionParts[2] + 1];
    newVersion := versionParts;
    newVersionCode := currentVersionCode + 1;
    NoDowngrade(pkgVersion, gradleVersion);
  }
}
