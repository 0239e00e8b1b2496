/**
 The version a Helm chart could be upgraded to (controllers/helmchart_semver.go), with the precedence of section 11 of
 Semantic Versioning 2.0.0. How a version string is parsed is a parameter.
 */
module Semver {
  import opened Common
  import opened Texts

  datatype Identifier = Numeric(value: nat) | Alphanumeric(text: string)

  datatype Version = Version(major: nat, minor: nat, patch: nat, prerelease: seq<Identifier>, metadata: string)

  // ----- Precedence -----

  /** Numeric identifiers come before alphanumeric ones. */
  function CompareIdentifiers(a: Identifier, b: Identifier): int {
    match (a, b)
    case (Numeric(m), Numeric(n)) => CompareNumbers(m, n)
    case (Numeric(_), Alphanumeric(_)) => -1
    case (Alphanumeric(_), Numeric(_)) => 1
    case (Alphanumeric(s), Alphanumeric(t)) => CompareTexts(s, t)
  }

  /** Field by field; the longer list is higher if all preceding fields are equal. */
  function CompareFields(a: seq<Identifier>, b: seq<Identifier>): int {
    if a == [] || b == [] then CompareNumbers(|a|, |b|)
    else if CompareIdentifiers(a[0], b[0]) != 0 then CompareIdentifiers(a[0], b[0])
    else CompareFields(a[1..], b[1..])
  }

  /** A version without prerelease is higher than one with. */
  function ComparePrereleases(a: seq<Identifier>, b: seq<Identifier>): int {
    if a == [] && b == [] then 0
    else if a == [] then 1
    else if b == [] then -1
    else CompareFields(a, b)
  }

  /** Build metadata plays no part. */
  function Compare(v: Version, w: Version): int {
    if v.major != w.major then CompareNumbers(v.major, w.major)
    else if v.minor != w.minor then CompareNumbers(v.minor, w.minor)
    else if v.patch != w.patch then CompareNumbers(v.patch, w.patch)
    else ComparePrereleases(v.prerelease, w.prerelease)
  }

  predicate GreaterThan(v: Version, w: Version) {
    Compare(v, w) > 0
  }

  // ----- Precedence is a total preorder -----

  lemma IdentifiersAreOrdered(a: Identifier, b: Identifier, c: Identifier)
    ensures CompareIdentifiers(b, a) == -CompareIdentifiers(a, b)
    ensures CompareIdentifiers(a, b) == 0 <==> a == b
    ensures CompareIdentifiers(a, b) <= 0 && CompareIdentifiers(b, c) <= 0 ==> CompareIdentifiers(a, c) <= 0
  {
    if a.Alphanumeric? && b.Alphanumeric? {
      TextsAreOrdered(a.text, b.text, if c.Alphanumeric? then c.text else []);
    }
  }

  lemma {:induction false} FieldsAreOrdered(a: seq<Identifier>, b: seq<Identifier>, c: seq<Identifier>)
    ensures CompareFields(b, a) == -CompareFields(a, b)
    ensures CompareFields(a, b) == 0 <==> a == b
    ensures CompareFields(a, b) <= 0 && CompareFields(b, c) <= 0 ==> CompareFields(a, c) <= 0
    decreases |a|
  {
    if a != [] && b != [] {
      IdentifiersAreOrdered(a[0], b[0], if c == [] then a[0] else c[0]);
      if c != [] {
        IdentifiersAreOrdered(b[0], c[0], a[0]);
        IdentifiersAreOrdered(a[0], c[0], b[0]);
        IdentifiersAreOrdered(c[0], a[0], b[0]);
        IdentifiersAreOrdered(b[0], a[0], c[0]);
      }
      FieldsAreOrdered(a[1..], b[1..], if c == [] then [] else c[1..]);
      assert a == [a[0]] + a[1..] && b == [b[0]] + b[1..];
    }
  }

  /** Total, reflexive, transitive, and two versions are equivalent exactly when they differ in metadata at most. */
  lemma PrecedenceIsTotalPreorder(u: Version, v: Version, w: Version)
    ensures Compare(v, u) == -Compare(u, v)
    ensures Compare(u, v) == 0 <==> u.(metadata := "") == v.(metadata := "")
    ensures Compare(u, v) <= 0 && Compare(v, w) <= 0 ==> Compare(u, w) <= 0
    ensures Compare(u, v) < 0 && Compare(v, w) <= 0 ==> Compare(u, w) < 0
  {
    FieldsAreOrdered(u.prerelease, v.prerelease, w.prerelease);
    FieldsAreOrdered(w.prerelease, u.prerelease, v.prerelease);
    FieldsAreOrdered(v.prerelease, w.prerelease, u.prerelease);
  }

  // ----- Section 11, in its own terms -----

  /** Numbers by value, texts in ASCII order, and numbers before texts. */
  ghost predicate IdentifierPrecedes(a: Identifier, b: Identifier) {
    || (a.Numeric? && b.Numeric? && a.value < b.value)
    || (a.Numeric? && b.Alphanumeric?)
    || (a.Alphanumeric? && b.Alphanumeric? && TextPrecedes(a.text, b.text))
  }

  /** The lists agree up to i, where the first one ends before the other or has the identifier that comes first. */
  ghost predicate FieldsPrecedeAt(a: seq<Identifier>, b: seq<Identifier>, i: nat) {
    && i <= |a| && i < |b| && (forall k :: 0 <= k < i ==> a[k] == b[k])
    && (i < |a| ==> IdentifierPrecedes(a[i], b[i]))
  }

  /** The first difference decides, and with none the shorter list comes first. */
  ghost predicate FieldsPrecede(a: seq<Identifier>, b: seq<Identifier>) {
    exists i: nat :: FieldsPrecedeAt(a, b, i)
  }

  /** By major, minor and patch version; with these equal a prerelease comes before its release. */
  ghost predicate Precedes(v: Version, w: Version) {
    || v.major < w.major
    || (v.major == w.major && v.minor < w.minor)
    || (v.major == w.major && v.minor == w.minor && v.patch < w.patch)
    || (v.major == w.major && v.minor == w.minor && v.patch == w.patch
        && v.prerelease != [] && (w.prerelease == [] || FieldsPrecede(v.prerelease, w.prerelease)))
  }

  lemma IdentifiersFollowSection11(a: Identifier, b: Identifier)
    ensures CompareIdentifiers(a, b) < 0 <==> IdentifierPrecedes(a, b)
  {
    if a.Alphanumeric? && b.Alphanumeric? {
      CompareTextsIsLexicographic(a.text, b.text);
    }
  }

  lemma FieldsPrecedeAtShifts(a: seq<Identifier>, b: seq<Identifier>, i: nat)
    requires a != [] && b != [] && a[0] == b[0]
    ensures FieldsPrecedeAt(a, b, i + 1) <==> FieldsPrecedeAt(a[1..], b[1..], i)
    ensures !FieldsPrecedeAt(a, b, 0)
  {
    IdentifiersAreOrdered(a[0], a[0], a[0]);
    IdentifiersFollowSection11(a[0], a[0]);
    if FieldsPrecedeAt(a[1..], b[1..], i) {
      forall k | 0 <= k < i + 1
        ensures a[k] == b[k]
      {
        assert k > 0 ==> a[1..][k - 1] == b[1..][k - 1];
      }
    }
  }

  lemma {:induction false} FieldsFollowSection11(a: seq<Identifier>, b: seq<Identifier>)
    ensures CompareFields(a, b) < 0 <==> FieldsPrecede(a, b)
    decreases |a|
  {
    if a == [] || b == [] {
      assert CompareFields(a, b) < 0 <==> FieldsPrecedeAt(a, b, 0);
    } else if a[0] != b[0] {
      IdentifiersFollowSection11(a[0], b[0]);
      IdentifiersAreOrdered(a[0], b[0], b[0]);
      assert CompareFields(a, b) < 0 <==> FieldsPrecedeAt(a, b, 0);
    } else {
      IdentifiersAreOrdered(a[0], a[0], a[0]);
      FieldsFollowSection11(a[1..], b[1..]);
      if i: nat :| FieldsPrecedeAt(a[1..], b[1..], i) {
        FieldsPrecedeAtShifts(a, b, i);
      }
      if i: nat :| FieldsPrecedeAt(a, b, i) {
        FieldsPrecedeAtShifts(a, b, if i > 0 then i - 1 else 0);
      }
    }
  }

  /** The comparison is the precedence of the standard. */
  lemma PrecedenceIsSection11(v: Version, w: Version)
    ensures Compare(v, w) < 0 <==> Precedes(v, w)
    ensures GreaterThan(v, w) <==> Precedes(w, v)
  {
    FieldsFollowSection11(v.prerelease, w.prerelease);
    FieldsFollowSection11(w.prerelease, v.prerelease);
    PrecedenceIsTotalPreorder(v, w, w);
  }

  // ----- The newest version -----

  type Parser = string -> Option<Version>

  /** A version that counts as an update: newer, and a prerelease only if the current version is one. */
  predicate Eligible(parse: Parser, current: Version, text: string) {
    && parse(text).Some? && GreaterThan(parse(text).value, current)
    && (parse(text).value.prerelease != [] ==> current.prerelease != [])
  }

  predicate SameMinor(v: Version, current: Version) {
    v.major == current.major && v.minor == current.minor
  }

  /** Nothing that is eligible is higher. */
  predicate Greatest(parse: Parser, current: Version, available: seq<string>, sameMinor: bool, latest: Option<Version>)
  {
    if latest.None? then
      forall s :: s in available && Eligible(parse, current, s) ==> sameMinor && !SameMinor(parse(s).value, current)
    else
      && (exists s :: s in available && Eligible(parse, current, s) && parse(s) == latest)
      && (sameMinor ==> SameMinor(latest.value, current))
      && (forall s ::
            s in available && Eligible(parse, current, s) && (sameMinor ==> SameMinor(parse(s).value, current)) ==>
              Compare(parse(s).value, latest.value) <= 0)
  }

  datatype Diff = InvalidCurrent | Diff(overall: Option<Version>, patch: Option<Version>)

  method HelmChartVersionDiff(parse: Parser, currentVersion: string, availableVersions: seq<string>)
    returns (diff: Diff)
    ensures diff.InvalidCurrent? <==> parse(currentVersion).None?
    ensures diff.Diff? ==> Greatest(parse, parse(currentVersion).value, availableVersions, false, diff.overall)
    ensures diff.Diff? ==> Greatest(parse, parse(currentVersion).value, availableVersions, true, diff.patch)
  {
    if parse(currentVersion).None? {
      return InvalidCurrent;
    }
    var current := parse(currentVersion).value;
    var includePrerelease := current.prerelease != [];
    var overall: Option<Version> := None;
    var patch: Option<Version> := None;
    for i := 0 to |availableVersions|
      invariant Greatest(parse, current, availableVersions[..i], false, overall)
      invariant Greatest(parse, current, availableVersions[..i], true, patch)
    {
      var text := availableVersions[i];
      assert availableVersions[..i + 1] == availableVersions[..i] + [text];
      if parse(text).None? {
        continue;
      }
      var candidate := parse(text).value;
      if candidate.prerelease != [] && !includePrerelease {
        continue;
      }
      if !GreaterThan(candidate, current) {
        continue;
      }
      if overall.None? || GreaterThan(candidate, overall.value) {
        StaysGreatest(parse, current, availableVersions[..i], text, false, overall, Some(candidate));
        overall := Some(candidate);
      } else {
        StaysGreatest(parse, current, availableVersions[..i], text, false, overall, overall);
      }
      if SameMinor(candidate, current) && (patch.None? || GreaterThan(candidate, patch.value)) {
        StaysGreatest(parse, current, availableVersions[..i], text, true, patch, Some(candidate));
        patch := Some(candidate);
      } else {
        StaysGreatest(parse, current, availableVersions[..i], text, true, patch, patch);
      }
    }
    assert availableVersions[..|availableVersions|] == availableVersions;
    diff := Diff(overall, patch);
  }

  lemma StaysGreatest(parse: Parser, current: Version, available: seq<string>, text: string, sameMinor: bool,
                      latest: Option<Version>, next: Option<Version>)
    requires Greatest(parse, current, available, sameMinor, latest) && Eligible(parse, current, text)
    requires var v := parse(text).value;
             next == if (sameMinor ==> SameMinor(v, current)) && (latest.None? || GreaterThan(v, latest.value))
                     then Some(v) else latest
    ensures Greatest(parse, current, available + [text], sameMinor, next)
  {
    var v := parse(text).value;
    if next.Some? {
      assert text in available + [text];
      assert forall s :: s in available ==> s in available + [text];
      forall s | s in available + [text] && Eligible(parse, current, s)
        && (sameMinor ==> SameMinor(parse(s).value, current))
        ensures Compare(parse(s).value, next.value) <= 0
      {
        var w := parse(s).value;
        if latest.Some? {
          PrecedenceIsTotalPreorder(w, latest.value, v);
          PrecedenceIsTotalPreorder(latest.value, v, v);
        }
        PrecedenceIsTotalPreorder(v, v, v);
      }
    }
  }

  /** The order of the list, and repetitions in it, matter at most for the metadata of the result. */
  lemma GreatestIsUnique(parse: Parser, current: Version, a: seq<string>, b: seq<string>, sameMinor: bool,
                         latestA: Option<Version>, latestB: Option<Version>)
    requires forall s :: s in a <==> s in b
    requires Greatest(parse, current, a, sameMinor, latestA) && Greatest(parse, current, b, sameMinor, latestB)
    ensures latestA.Some? <==> latestB.Some?
    ensures latestA.Some? ==> latestA.value.(metadata := "") == latestB.value.(metadata := "")
  {
    if latestA.Some? && latestB.Some? {
      PrecedenceIsTotalPreorder(latestA.value, latestB.value, latestB.value);
    }
  }

  /** The newest patch is never above the newest version, and neither is a prerelease for a stable pin. */
  lemma PatchIsWithinOverall(parse: Parser, current: Version, available: seq<string>, overall: Option<Version>,
                             patch: Option<Version>)
    requires Greatest(parse, current, available, false, overall) && Greatest(parse, current, available, true, patch)
    ensures patch.Some? ==> overall.Some? && Compare(patch.value, overall.value) <= 0
    ensures overall.Some? ==>
            GreaterThan(overall.value, current) && (current.prerelease == [] ==> overall.value.prerelease == [])
    ensures patch.Some? ==>
            GreaterThan(patch.value, current) && (current.prerelease == [] ==> patch.value.prerelease == [])
  {
  }

  /**
   An update is a version that the current one precedes; a prerelease is one only for a pin to a prerelease. If any is
   available, one is reported that none of them follows; for the patch the same goes for those of the minor line.
   */
  lemma NoUpdateIsMissed(parse: Parser, current: Version, available: seq<string>, overall: Option<Version>,
                         patch: Option<Version>, s: string)
    requires Greatest(parse, current, available, false, overall) && Greatest(parse, current, available, true, patch)
    requires s in available && parse(s).Some? && Precedes(current, parse(s).value)
    requires parse(s).value.prerelease == [] || current.prerelease != []
    ensures overall.Some? && Precedes(current, overall.value) && !Precedes(overall.value, parse(s).value)
    ensures parse(s).value.major == current.major && parse(s).value.minor == current.minor ==>
              && patch.Some? && Precedes(current, patch.value) && !Precedes(patch.value, parse(s).value)
              && patch.value.major == current.major && patch.value.minor == current.minor
  {
    var v := parse(s).value;
    PrecedenceIsSection11(v, current);
    assert Eligible(parse, current, s);
    PrecedenceIsSection11(overall.value, v);
    PrecedenceIsSection11(overall.value, current);
    PrecedenceIsTotalPreorder(overall.value, v, v);
    if patch.Some? {
      PrecedenceIsSection11(patch.value, v);
      PrecedenceIsSection11(patch.value, current);
      PrecedenceIsTotalPreorder(patch.value, v, v);
    }
  }

  /** And if none is, none is reported. */
  lemma NoUpdateIsInvented(parse: Parser, current: Version, available: seq<string>, latest: Option<Version>,
                           sameMinor: bool)
    requires Greatest(parse, current, available, sameMinor, latest) && latest.Some?
    ensures exists s :: s in available && parse(s) == latest
    ensures Precedes(current, latest.value) && (latest.value.prerelease == [] || current.prerelease != [])
    ensures sameMinor ==> latest.value.major == current.major && latest.value.minor == current.minor
  {
    PrecedenceIsSection11(latest.value, current);
  }

  /** Following the newest version ends: nothing is newer than what was reported as newest. */
  lemma NewestIsUpToDate(parse: Parser, current: Version, available: seq<string>, overall: Option<Version>)
    requires Greatest(parse, current, available, false, overall) && overall.Some?
    ensures Greatest(parse, overall.value, available, false, None)
  {
    forall s | s in available
      ensures !Eligible(parse, overall.value, s)
    {
      if parse(s).Some? {
        PrecedenceIsTotalPreorder(current, overall.value, parse(s).value);
        PrecedenceIsTotalPreorder(overall.value, parse(s).value, current);
      }
    }
  }
}
