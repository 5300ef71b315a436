/**
 The canonical form of a capability scope that action fingerprints are computed from:
 root and variable lists are trimmed, collected into an ordered set and listed again.
 */
module Fingerprints {
  import opened Text

  /** Lexicographic order by code point. */
  predicate Less(a: string, b: string) {
    b != [] && (a == [] || a[0] < b[0] || (a[0] == b[0] && Less(a[1..], b[1..])))
  }

  lemma {:induction false} LessIsTransitive(a: string, b: string, c: string)
    requires Less(a, b) && Less(b, c)
    ensures Less(a, c)
  {
    if a != [] && a[0] == b[0] && b[0] == c[0] {
      LessIsTransitive(a[1..], b[1..], c[1..]);
    }
  }

  lemma {:induction false} LessIsIrreflexive(a: string)
    ensures !Less(a, a)
  {
    if a != [] {
      LessIsIrreflexive(a[1..]);
    }
  }

  lemma {:induction false} LessIsTotal(a: string, b: string)
    ensures Less(a, b) || a == b || Less(b, a)
  {
    if a != [] && b != [] && a[0] == b[0] {
      LessIsTotal(a[1..], b[1..]);
      assert a == [a[0]] + a[1..] && b == [b[0]] + b[1..];
    }
  }

  predicate StrictlySorted(xs: seq<string>) {
    forall i, j | 0 <= i < j < |xs| :: Less(xs[i], xs[j])
  }

  function Entries(xs: seq<string>): set<string> {
    set x | x in xs
  }

  function TrimmedEntries(values: seq<string>): set<string> {
    set v | v in values :: Trim(v)
  }

  /** Insertion into an ordered set, listed in order. */
  function Insert(x: string, xs: seq<string>): seq<string> {
    if xs == [] then [x]
    else if x == xs[0] then xs
    else if Less(x, xs[0]) then [x] + xs
    else [xs[0]] + Insert(x, xs[1..])
  }

  function NormalizedPathList(values: seq<string>): seq<string> {
    if values == [] then []
    else Insert(Trim(values[0]), NormalizedPathList(values[1..]))
  }

  lemma {:induction false} InsertKeepsOrder(x: string, xs: seq<string>)
    requires StrictlySorted(xs)
    ensures StrictlySorted(Insert(x, xs))
    ensures Entries(Insert(x, xs)) == Entries(xs) + {x}
  {
    if xs != [] && x != xs[0] {
      if Less(x, xs[0]) {
        forall j | 0 <= j < |xs| ensures Less(x, xs[j]) {
          if j > 0 {
            LessIsTransitive(x, xs[0], xs[j]);
          }
        }
      } else {
        LessIsTotal(x, xs[0]);
        InsertKeepsOrder(x, xs[1..]);
        var rest := Insert(x, xs[1..]);
        forall y | y in rest ensures Less(xs[0], y) {
          assert y in Entries(rest);
        }
        assert Entries([xs[0]] + rest) == {xs[0]} + Entries(rest);
        assert Entries(xs) == {xs[0]} + Entries(xs[1..]);
      }
    }
  }

  lemma {:induction false} NormalizedPathListIsOrderedSet(values: seq<string>)
    ensures StrictlySorted(NormalizedPathList(values))
    ensures Entries(NormalizedPathList(values)) == TrimmedEntries(values)
  {
    if values != [] {
      NormalizedPathListIsOrderedSet(values[1..]);
      InsertKeepsOrder(Trim(values[0]), NormalizedPathList(values[1..]));
      assert TrimmedEntries(values) == {Trim(values[0])} + TrimmedEntries(values[1..]);
    }
  }

  lemma {:induction false} OrderedSetsAreUnique(xs: seq<string>, ys: seq<string>)
    requires StrictlySorted(xs) && StrictlySorted(ys) && Entries(xs) == Entries(ys)
    ensures xs == ys
  {
    assert xs != [] ==> xs[0] in Entries(xs);
    assert ys != [] ==> ys[0] in Entries(ys);
    if xs != [] && ys != [] {
      if xs[0] != ys[0] {
        LessIsTransitive(xs[0], ys[0], xs[0]);
        LessIsIrreflexive(xs[0]);
        assert false;
      }
      LessIsIrreflexive(xs[0]);
      assert Entries(xs[1..]) == Entries(xs) - {xs[0]};
      assert Entries(ys[1..]) == Entries(ys) - {ys[0]};
      OrderedSetsAreUnique(xs[1..], ys[1..]);
      assert xs == [xs[0]] + xs[1..] && ys == [ys[0]] + ys[1..];
    }
  }

  /** Order, repetition and surrounding space do not matter, and nothing else is forgotten. */
  lemma {:induction false} SameListIffSameTrimmedEntries(a: seq<string>, b: seq<string>)
    ensures NormalizedPathList(a) == NormalizedPathList(b) <==> TrimmedEntries(a) == TrimmedEntries(b)
  {
    NormalizedPathListIsOrderedSet(a);
    NormalizedPathListIsOrderedSet(b);
    if TrimmedEntries(a) == TrimmedEntries(b) {
      OrderedSetsAreUnique(NormalizedPathList(a), NormalizedPathList(b));
    }
  }

  lemma {:induction false} NormalizingTwiceChangesNothing(values: seq<string>)
    ensures NormalizedPathList(NormalizedPathList(values)) == NormalizedPathList(values)
  {
    var once := NormalizedPathList(values);
    NormalizedPathListIsOrderedSet(values);
    forall v | v in once ensures Trim(v) == v {
      assert v in Entries(once);
      var u :| u in values && Trim(u) == v;
      TrimIsIdempotent(u);
    }
    assert TrimmedEntries(once) == Entries(once) by {
      forall v | v in Entries(once) ensures v in TrimmedEntries(once) {
        assert v in once && Trim(v) == v;
      }
    }
    NormalizedPathListIsOrderedSet(once);
    OrderedSetsAreUnique(NormalizedPathList(once), once);
  }

  datatype NetworkPosture = Disabled | Enabled | Allowlisted

  datatype CapabilityScope = CapabilityScope(
    readRoots: seq<string>,
    writeRoots: seq<string>,
    network: NetworkPosture,
    variables: seq<string>,
    timeoutMs: nat,
    maxStdoutBytes: nat,
    maxStderrBytes: nat)

  function Canonical(scope: CapabilityScope): CapabilityScope {
    scope.(readRoots := NormalizedPathList(scope.readRoots),
           writeRoots := NormalizedPathList(scope.writeRoots),
           variables := NormalizedPathList(scope.variables))
  }

  /** The two scopes grant the same capabilities, whatever their lists look like. */
  predicate SameGrants(a: CapabilityScope, b: CapabilityScope) {
    && TrimmedEntries(a.readRoots) == TrimmedEntries(b.readRoots)
    && TrimmedEntries(a.writeRoots) == TrimmedEntries(b.writeRoots)
    && TrimmedEntries(a.variables) == TrimmedEntries(b.variables)
    && a.network == b.network && a.timeoutMs == b.timeoutMs
    && a.maxStdoutBytes == b.maxStdoutBytes && a.maxStderrBytes == b.maxStderrBytes
  }

  /** The part of the fingerprint input that comes from the scope identifies exactly what it grants. */
  lemma {:induction false} CanonicalScopeIdentifiesGrants(a: CapabilityScope, b: CapabilityScope)
    ensures Canonical(a) == Canonical(b) <==> SameGrants(a, b)
    ensures Canonical(Canonical(a)) == Canonical(a)
  {
    SameListIffSameTrimmedEntries(a.readRoots, b.readRoots);
    SameListIffSameTrimmedEntries(a.writeRoots, b.writeRoots);
    SameListIffSameTrimmedEntries(a.variables, b.variables);
    NormalizingTwiceChangesNothing(a.readRoots);
    NormalizingTwiceChangesNothing(a.writeRoots);
    NormalizingTwiceChangesNothing(a.variables);
  }
}
