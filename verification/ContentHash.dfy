/**
 The hash of everything that decides what applying a chart does (controllers/helm_apply_tracking.go: getChartApplyHash,
 getResourcesHash). SHA-256 and the encodings are parameters. What is proved assumes that the contents at hand do not
 collide.
 */
module ContentHash {
  import opened Sorting
  import opened Texts

  /** A rendered resource, as JSON. */
  type Content = string

  /** chartApplyInputs */
  datatype Inputs = Inputs(resourcesHash: string, tier: int, timeout: int, skipNamespaceCreation: bool,
                           chartVersion: string)

  predicate NoCollision<A(==), B(==)>(f: A -> B, x: A, y: A) {
    f(x) == f(y) ==> x == y
  }

  /** No two of these resources collide, and a hexadecimal digest has a fixed length. */
  ghost predicate Digests(f: Content -> string, resources: set<Content>, length: nat) {
    && length > 0
    && (forall x, y :: x in resources && y in resources ==> NoCollision(f, x, y))
    && (forall x :: x in resources ==> |f(x)| == length)
  }

  function Contents(a: seq<Content>, b: seq<Content>): set<Content> {
    (set c | c in a) + (set c | c in b)
  }

  function Hashes(resources: seq<Content>, digest: Content -> string): seq<string> {
    if resources == [] then [] else Hashes(resources[..|resources| - 1], digest) + [digest(resources[|resources| - 1])]
  }

  function Joined(s: seq<string>): string {
    if s == [] then "" else Joined(s[..|s| - 1]) + s[|s| - 1]
  }

  /** The hash over the sorted hashes of the resources. */
  ghost predicate IsResourcesHash(resources: seq<Content>, digest: Content -> string, overall: string -> string,
                                  hash: string)
  {
    exists sorted :: SortedBy(sorted, TextLeq) && multiset(sorted) == multiset(Hashes(resources, digest))
                     && hash == overall(Joined(sorted))
  }

  method GetResourcesHash(resources: seq<Content>, digest: Content -> string, overall: string -> string)
    returns (hash: string)
    ensures IsResourcesHash(resources, digest, overall, hash)
  {
    var hashes := new string[|resources|];
    for i := 0 to |resources|
      invariant hashes[..i] == Hashes(resources[..i], digest)
    {
      hashes[i] := digest(resources[i]);
      assert resources[..i + 1][..i] == resources[..i];
      assert hashes[..i + 1] == hashes[..i] + [hashes[i]];
    }
    assert resources[..|resources|] == resources && hashes[..|resources|] == hashes[..];
    TextLeqIsTotalOrder();
    var sorted := SortBy(hashes[..], TextLeq);
    var text := "";
    for i := 0 to |sorted|
      invariant text == Joined(sorted[..i])
    {
      assert sorted[..i + 1][..i] == sorted[..i];
      text := text + sorted[i];
    }
    assert sorted[..|sorted|] == sorted;
    hash := overall(text);
  }

  lemma {:induction false} HashesMembers(resources: seq<Content>, digest: Content -> string, all: set<Content>,
                                         length: nat, c: Content)
    requires Digests(digest, all, length) && c in all && forall r :: r in resources ==> r in all
    ensures multiset(Hashes(resources, digest))[digest(c)] == multiset(resources)[c]
  {
    if resources != [] {
      var last := resources[|resources| - 1];
      assert last in resources;
      assert NoCollision(digest, last, c);
      HashesMembers(resources[..|resources| - 1], digest, all, length, c);
      assert resources == resources[..|resources| - 1] + [last];
    }
  }

  lemma {:induction false} HashesAreDigests(resources: seq<Content>, digest: Content -> string)
    ensures forall h :: h in Hashes(resources, digest) ==> exists c :: c in resources && h == digest(c)
  {
    if resources != [] {
      var rest, last := resources[..|resources| - 1], resources[|resources| - 1];
      HashesAreDigests(rest, digest);
      assert last in resources && forall c :: c in rest ==> c in resources;
    }
  }

  /** The same resources, in any order, have the same hashes, and only they have. */
  lemma HashesMatchIff(a: seq<Content>, b: seq<Content>, digest: Content -> string, length: nat)
    requires Digests(digest, Contents(a, b), length)
    ensures multiset(Hashes(a, digest)) == multiset(Hashes(b, digest)) <==> multiset(a) == multiset(b)
  {
    var all := Contents(a, b);
    if multiset(a) == multiset(b) {
      forall h
        ensures multiset(Hashes(a, digest))[h] == multiset(Hashes(b, digest))[h]
      {
        HashesAreDigests(a, digest);
        HashesAreDigests(b, digest);
        if h in Hashes(a, digest) || h in Hashes(b, digest) {
          var c :| c in all && h == digest(c);
          HashesMembers(a, digest, all, length, c);
          HashesMembers(b, digest, all, length, c);
        }
      }
    }
    if multiset(Hashes(a, digest)) == multiset(Hashes(b, digest)) {
      forall c
        ensures multiset(a)[c] == multiset(b)[c]
      {
        if c in all {
          HashesMembers(a, digest, all, length, c);
          HashesMembers(b, digest, all, length, c);
        } else {
          assert c !in a && c !in b;
        }
      }
    }
  }

  /** Pieces of one length can be told apart in their concatenation. */
  lemma {:induction false} JoinedIsInjective(a: seq<string>, b: seq<string>, length: nat)
    requires length > 0 && (forall s :: s in a ==> |s| == length) && (forall s :: s in b ==> |s| == length)
    ensures Joined(a) == Joined(b) ==> a == b
    decreases |a|
  {
    if a != [] && b != [] {
      var n, m := |a| - 1, |b| - 1;
      assert a == a[..n] + [a[n]] && b == b[..m] + [b[m]];
      assert a[n] in a && b[m] in b;
      JoinedIsInjective(a[..n], b[..m], length);
      if Joined(a) == Joined(b) {
        var x, y := Joined(a[..n]), Joined(b[..m]);
        assert |x| == |y|;
        assert Joined(a)[..|x|] == x && Joined(b)[..|y|] == y;
        assert Joined(a)[|x|..] == a[n] && Joined(b)[|y|..] == b[m];
      }
    } else if a != [] {
      assert a[|a| - 1] in a;
    } else if b != [] {
      assert b[|b| - 1] in b;
    }
  }

  lemma DigestLengths(s: seq<string>, resources: seq<Content>, digest: Content -> string, all: set<Content>,
                      length: nat)
    requires Digests(digest, all, length) && multiset(s) == multiset(Hashes(resources, digest))
    requires forall r :: r in resources ==> r in all
    ensures forall h :: h in s ==> |h| == length
  {
    SameMembers(s, Hashes(resources, digest));
    HashesAreDigests(resources, digest);
  }

  /** The text that is hashed is the same exactly when the resources are, whatever their order. */
  lemma SortedTextMatchesIff(a: seq<Content>, b: seq<Content>, digest: Content -> string, length: nat, s: seq<string>,
                             t: seq<string>)
    requires Digests(digest, Contents(a, b), length)
    requires SortedBy(s, TextLeq) && multiset(s) == multiset(Hashes(a, digest))
    requires SortedBy(t, TextLeq) && multiset(t) == multiset(Hashes(b, digest))
    ensures Joined(s) == Joined(t) <==> multiset(a) == multiset(b)
  {
    TextLeqIsTotalOrder();
    SortedIsCanonical(s, t, TextLeq);
    DigestLengths(s, a, digest, Contents(a, b), length);
    DigestLengths(t, b, digest, Contents(a, b), length);
    JoinedIsInjective(s, t, length);
    HashesMatchIff(a, b, digest, length);
  }

  /** The last hash does not collide on the texts of the two lists. */
  ghost predicate NoTextCollision(a: seq<Content>, b: seq<Content>, digest: Content -> string,
                                  overall: string -> string)
  {
    forall s, t :: (&& SortedBy(s, TextLeq) && multiset(s) == multiset(Hashes(a, digest))
                    && SortedBy(t, TextLeq) && multiset(t) == multiset(Hashes(b, digest))) ==>
                     NoCollision(overall, Joined(s), Joined(t))
  }

  lemma ResourcesHashMatchesIff(a: seq<Content>, b: seq<Content>, digest: Content -> string, overall: string -> string,
                                length: nat, hashA: string, hashB: string)
    requires Digests(digest, Contents(a, b), length) && NoTextCollision(a, b, digest, overall)
    requires IsResourcesHash(a, digest, overall, hashA) && IsResourcesHash(b, digest, overall, hashB)
    ensures hashA == hashB <==> multiset(a) == multiset(b)
  {
    var s :| SortedBy(s, TextLeq) && multiset(s) == multiset(Hashes(a, digest)) && hashA == overall(Joined(s));
    var t :| SortedBy(t, TextLeq) && multiset(t) == multiset(Hashes(b, digest)) && hashB == overall(Joined(t));
    SortedTextMatchesIff(a, b, digest, length, s, t);
    assert NoCollision(overall, Joined(s), Joined(t));
  }

  /** Two charts have the same apply hash exactly when resources, tier, timeout, namespace setting and version agree. */
  lemma ApplyHashMatchesIff(a: seq<Content>, b: seq<Content>, digest: Content -> string, overall: string -> string,
                            length: nat, inputsA: Inputs, inputsB: Inputs, applyHash: Inputs -> string)
    requires Digests(digest, Contents(a, b), length) && NoTextCollision(a, b, digest, overall)
    requires NoCollision(applyHash, inputsA, inputsB)
    requires IsResourcesHash(a, digest, overall, inputsA.resourcesHash)
    requires IsResourcesHash(b, digest, overall, inputsB.resourcesHash)
    ensures applyHash(inputsA) == applyHash(inputsB) <==>
              && multiset(a) == multiset(b) && inputsA.tier == inputsB.tier && inputsA.timeout == inputsB.timeout
              && inputsA.skipNamespaceCreation == inputsB.skipNamespaceCreation
              && inputsA.chartVersion == inputsB.chartVersion
  {
    ResourcesHashMatchesIff(a, b, digest, overall, length, inputsA.resourcesHash, inputsB.resourcesHash);
  }
}
