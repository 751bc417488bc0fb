/** The bytes hashed for a release's resources: `resource_set_digest` of crates/pip-control/src/release.rs. */
module ReleaseDigest {
  import opened Prelude

  type Byte = b: nat | b < 256

  type Bytes = seq<Byte>

  datatype Artifact = Artifact(path: Bytes, sha256: Bytes, mode: nat)

  datatype ReleaseError = InvalidManifest | UnsafeArtifact(path: Bytes) | DuplicateArtifact(duplicate: Bytes)

  const MAX_ARTIFACTS: nat := 4096

  // ---- validation ----

  predicate PathByte(b: Byte) {
    (48 <= b <= 57) || (65 <= b <= 90) || (97 <= b <= 122) || b == 45 || b == 95 || b == 46 || b == 64
  }

  const SLASH: Byte := 47
  const DOT: Byte := 46

  predicate Normal(segment: Bytes) {
    segment != [] && segment != [DOT] && segment != [DOT, DOT] && forall i :: 0 <= i < |segment| ==>
      PathByte(segment[i])
  }

  function Segments(path: Bytes): (s: seq<Bytes>)
    ensures |s| >= 1
  {
    if path == [] then [[]]
    else
      var front, last := Segments(path[..|path| - 1]), path[|path| - 1];
      if last == SLASH then front + [[]] else front[|front| - 1 := front[|front| - 1] + [last]]
  }

  /** Relative paths of plain segments; inner empty and `.` segments vanish as path components. */
  predicate ValidPath(path: Bytes) {
    0 < |path| <= 4096 &&
    var segments := Segments(path);
    Normal(segments[0]) && forall i :: 1 <= i < |segments| ==>
      segments[i] == [] || segments[i] == [DOT] || Normal(segments[i])
  }

  function Joined(segments: seq<Bytes>): Bytes
    requires segments != []
  {
    if |segments| == 1 then segments[0]
    else Joined(segments[..|segments| - 1]) + [SLASH] + segments[|segments| - 1]
  }

  lemma JoinedGrows(segments: seq<Bytes>, last: Byte)
    requires segments != []
    ensures Joined(segments + [[]]) == Joined(segments) + [SLASH]
    ensures Joined(segments[|segments| - 1 := segments[|segments| - 1] + [last]]) == Joined(segments) + [last]
  {
    assert (segments + [[]])[..|segments|] == segments;
    var grown := segments[|segments| - 1 := segments[|segments| - 1] + [last]];
    assert grown[..|segments| - 1] == segments[..|segments| - 1];
  }

  /** The segments are what stands between the slashes. */
  lemma {:induction false} SegmentsJoin(path: Bytes)
    ensures Joined(Segments(path)) == path
    ensures forall i :: 0 <= i < |Segments(path)| ==> SLASH !in Segments(path)[i]
  {
    hide Joined;
    if path == [] {
      JoinedOne();
    } else {
      var front, last := path[..|path| - 1], path[|path| - 1];
      SegmentsJoin(front);
      JoinedGrows(Segments(front), last);
      assert path == front + [last];
    }
  }

  lemma JoinedOne()
    ensures Joined([[]]) == []
  {
  }

  /** A plain byte: a letter, a digit, or one of four signs. */
  predicate Plain(b: Byte) {
    'a' as int <= b <= 'z' as int || 'A' as int <= b <= 'Z' as int || '0' as int <= b <= '9' as int ||
    b in {'-' as int, '_' as int, '.' as int, '@' as int}
  }

  /** A valid path is relative, climbs nowhere, and uses plain bytes only. */
  lemma PathExactly(path: Bytes)
    ensures ValidPath(path) <==>
            1 <= |path| <= 4096 && Segments(path)[0] != [] && Segments(path)[0] != ['.' as int] &&
            forall i :: 0 <= i < |Segments(path)| ==>
              Segments(path)[i] != ['.' as int, '.' as int] &&
              forall k :: 0 <= k < |Segments(path)[i]| ==> Plain(Segments(path)[i][k])
  {
  }

  predicate ValidSha(sha: Bytes) {
    |sha| == 64 && forall i :: 0 <= i < |sha| ==> (48 <= sha[i] <= 57) || (97 <= sha[i] <= 102)
  }

  predicate ValidArtifact(a: Artifact) {
    ValidPath(a.path) && ValidSha(a.sha256) && (a.mode == 0x124 || a.mode == 0x16D)
  }

  /** A valid artifact has a valid path, a lower-case SHA-256 and mode 0444 or 0555. */
  lemma ArtifactExactly(a: Artifact)
    ensures ValidArtifact(a) <==>
            ValidPath(a.path) && a.mode in {292, 365} && |a.sha256| == 64 &&
            forall i :: 0 <= i < 64 ==>
              '0' as int <= a.sha256[i] <= '9' as int || 'a' as int <= a.sha256[i] <= 'f' as int
  {
  }

  predicate Distinct(artifacts: seq<Artifact>) {
    forall i, j :: 0 <= i < j < |artifacts| ==> artifacts[i].path != artifacts[j].path
  }

  predicate ValidCohort(artifacts: seq<Artifact>, binary: Bytes) {
    1 <= |artifacts| <= 4096 && ValidPath(binary) && Distinct(artifacts) &&
    forall i :: 0 <= i < |artifacts| ==> ValidArtifact(artifacts[i])
  }

  /** The resources are every artifact but the binary. */
  function Resources(artifacts: seq<Artifact>, binary: Bytes): set<Artifact> {
    set a | a in artifacts && a.path != binary
  }

  // ---- the encoding ----

  function BigEndian(n: nat, width: nat): Bytes {
    if width == 0 then [] else BigEndian(n / 256, width - 1) + [n % 256]
  }

  /** A length-prefixed field. */
  function Field(value: Bytes): Bytes { BigEndian(|value|, 8) + value }

  function Entry(a: Artifact): Bytes { Field(a.path) + (Field(BigEndian(a.mode, 4)) + Field(a.sha256)) }

  function Encode(artifacts: seq<Artifact>): Bytes {
    if artifacts == [] then [] else Encode(artifacts[..|artifacts| - 1]) + Entry(artifacts[|artifacts| - 1])
  }

  // ---- sorting by path ----

  predicate Less(a: Bytes, b: Bytes) {
    if b == [] then false
    else if a == [] then true
    else a[0] < b[0] || (a[0] == b[0] && Less(a[1..], b[1..]))
  }

  predicate Sorted(artifacts: seq<Artifact>) {
    forall i, j :: 0 <= i < j < |artifacts| ==> Less(artifacts[i].path, artifacts[j].path)
  }

  function Insert(a: Artifact, sorted: seq<Artifact>): (r: seq<Artifact>)
    requires Sorted(sorted) && forall i :: 0 <= i < |sorted| ==> sorted[i].path != a.path
    ensures Sorted(r) && |r| == |sorted| + 1 && forall x :: x in r <==> x == a || x in sorted
  {
    if sorted == [] then [a]
    else if Less(a.path, sorted[0].path) then
      LessThanAll(a, sorted);
      [a] + sorted
    else
      LessTotal(a.path, sorted[0].path);
      var rest := Insert(a, sorted[1..]);
      assert forall i :: 0 <= i < |rest| ==> rest[i] in rest;
      [sorted[0]] + rest
  }

  function SortByPath(artifacts: seq<Artifact>): (r: seq<Artifact>)
    requires Distinct(artifacts)
    ensures Sorted(r) && |r| == |artifacts| && forall x :: x in r <==> x in artifacts
  {
    if artifacts == [] then []
    else
      var front, last := artifacts[..|artifacts| - 1], artifacts[|artifacts| - 1];
      var rest := SortByPath(front);
      assert forall i :: 0 <= i < |rest| ==> rest[i] in front;
      Insert(last, rest)
  }

  lemma {:induction false} LessTotal(a: Bytes, b: Bytes)
    ensures Less(a, b) || Less(b, a) || a == b
    ensures !(Less(a, b) && Less(b, a)) && (a == b ==> !Less(a, b))
  {
    if a != [] && b != [] {
      LessTotal(a[1..], b[1..]);
      assert a == [a[0]] + a[1..] && b == [b[0]] + b[1..];
    }
  }

  lemma {:induction false} LessTransitive(a: Bytes, b: Bytes, c: Bytes)
    requires Less(a, b) && Less(b, c)
    ensures Less(a, c)
  {
    if a != [] && a[0] == b[0] == c[0] {
      LessTransitive(a[1..], b[1..], c[1..]);
    }
  }

  /** At k the first different bytes of two paths stand in order. */
  predicate DiffersAt(a: Bytes, b: Bytes, k: nat) { k < |a| && k < |b| && a[..k] == b[..k] && a[k] < b[k] }

  lemma DiffersLater(a: Bytes, b: Bytes, k: nat)
    requires a != [] && b != [] && a[0] == b[0]
    ensures DiffersAt(a, b, k + 1) <==> DiffersAt(a[1..], b[1..], k)
  {
    if k < |a| - 1 && k < |b| - 1 {
      assert a[..k + 1] == [a[0]] + a[1..][..k] && b[..k + 1] == [b[0]] + b[1..][..k];
      assert a[1..][..k] == a[..k + 1][1..] && b[1..][..k] == b[..k + 1][1..];
    }
  }

  /** The order of paths is lexicographic: a proper prefix comes first, otherwise the first different byte decides. */
  lemma {:induction false} LessExactly(a: Bytes, b: Bytes)
    ensures Less(a, b) <==> a < b || exists k: nat :: DiffersAt(a, b, k)
  {
    if a == [] || b == [] {
    } else if a[0] == b[0] {
      LessExactly(a[1..], b[1..]);
      assert a < b <==> a[1..] < b[1..] by {
        assert a == [a[0]] + a[1..] && b == [b[0]] + b[1..];
      }
      if k: nat :| DiffersAt(a[1..], b[1..], k) {
        DiffersLater(a, b, k);
      }
      if k: nat :| DiffersAt(a, b, k) {
        DiffersLater(a, b, k - 1);
      }
    } else if a[0] < b[0] {
      assert DiffersAt(a, b, 0);
    } else {
      forall k: nat ensures !DiffersAt(a, b, k) {
        assert k > 0 && k < |a| && k < |b| ==> a[..k][0] != b[..k][0];
      }
    }
  }

  lemma LessThanAll(a: Artifact, sorted: seq<Artifact>)
    requires Sorted(sorted) && sorted != [] && Less(a.path, sorted[0].path)
    ensures forall i :: 0 <= i < |sorted| ==> Less(a.path, sorted[i].path)
  {
    forall i | 0 < i < |sorted| ensures Less(a.path, sorted[i].path) {
      LessTransitive(a.path, sorted[0].path, sorted[i].path);
    }
  }

  // ---- the encoding is injective ----

  lemma {:induction false} BigEndianWidth(n: nat, width: nat)
    ensures |BigEndian(n, width)| == width
  {
    if width == 0 {
    } else {
      BigEndianWidth(n / 256, width - 1);
    }
  }

  function Power(width: nat): nat { if width == 0 then 1 else 256 * Power(width - 1) }

  /** The number that bytes spell, most significant first. */
  function ValueOf(bytes: Bytes): nat {
    if bytes == [] then 0 else bytes[0] * Power(|bytes| - 1) + ValueOf(bytes[1..])
  }

  lemma {:induction false} ValueAppend(bytes: Bytes, last: Byte)
    ensures ValueOf(bytes + [last]) == 256 * ValueOf(bytes) + last
  {
    if bytes == [] {
      assert bytes + [last] == [last];
    } else {
      assert (bytes + [last])[1..] == bytes[1..] + [last];
      ValueAppend(bytes[1..], last);
      assert Power(|bytes|) == 256 * Power(|bytes| - 1);
    }
  }

  /** Numbers that fit are written big-endian and can be read back. */
  lemma {:induction false} BigEndianReads(n: nat, width: nat)
    requires n < Power(width)
    ensures |BigEndian(n, width)| == width && ValueOf(BigEndian(n, width)) == n
  {
    if width == 0 {
    } else {
      BigEndianReads(n / 256, width - 1);
      ValueAppend(BigEndian(n / 256, width - 1), n % 256);
    }
  }

  lemma BigEndianInjective(m: nat, n: nat, width: nat)
    requires m < Power(width) && n < Power(width) && BigEndian(m, width) == BigEndian(n, width)
    ensures m == n
  {
    BigEndianReads(m, width);
    BigEndianReads(n, width);
  }

  lemma PowerOfEight()
    ensures Power(4) == 0x1_0000_0000 && Power(8) == 0x1_0000_0000_0000_0000
  {
  }

  /** A length-prefixed field can be split off the front of the bytes in one way only. */
  lemma FieldSplits(x: Bytes, restX: Bytes, y: Bytes, restY: Bytes)
    requires Field(x) + restX == Field(y) + restY
    requires |x| < Power(8) && |y| < Power(8)
    ensures x == y && restX == restY
  {
    var a, b := BigEndian(|x|, 8), BigEndian(|y|, 8);
    BigEndianWidth(|x|, 8);
    BigEndianWidth(|y|, 8);
    var s, t := Field(x) + restX, Field(y) + restY;
    assert s[..8] == a && t[..8] == b;
    BigEndianInjective(|x|, |y|, 8);
    assert s[8..8 + |x|] == x && t[8..8 + |y|] == y;
    assert s[8 + |x|..] == restX && t[8 + |y|..] == restY;
  }

  lemma EntrySplits(x: Artifact, restX: Bytes, y: Artifact, restY: Bytes)
    requires ValidArtifact(x) && ValidArtifact(y) && Entry(x) + restX == Entry(y) + restY
    ensures x == y && restX == restY
  {
    hide Field, BigEndian, ValidPath, ValidSha, Power;
    PowerOfEight();
    SmallFields(x);
    SmallFields(y);
    var mx, my := BigEndian(x.mode, 4), BigEndian(y.mode, 4);
    BigEndianWidth(x.mode, 4);
    BigEndianWidth(y.mode, 4);
    assert Entry(x) + restX == Field(x.path) + (Field(mx) + (Field(x.sha256) + restX));
    assert Entry(y) + restY == Field(y.path) + (Field(my) + (Field(y.sha256) + restY));
    FieldSplits(x.path, Field(mx) + (Field(x.sha256) + restX), y.path, Field(my) + (Field(y.sha256) + restY));
    FieldSplits(mx, Field(x.sha256) + restX, my, Field(y.sha256) + restY);
    FieldSplits(x.sha256, restX, y.sha256, restY);
    BigEndianInjective(x.mode, y.mode, 4);
  }

  lemma SmallFields(a: Artifact)
    requires ValidArtifact(a)
    ensures |a.path| <= 4096 && |a.sha256| == 64 && a.mode < 512
  {
  }

  /** The same bytes, read from the front. */
  function EncodeFront(artifacts: seq<Artifact>): Bytes {
    if artifacts == [] then [] else Entry(artifacts[0]) + EncodeFront(artifacts[1..])
  }

  lemma {:induction false} EncodeFrontAppend(a: seq<Artifact>, last: Artifact)
    ensures EncodeFront(a + [last]) == EncodeFront(a) + Entry(last)
  {
    hide Entry;
    if a == [] {
      assert a + [last] == [last] && [last][1..] == [];
      assert EncodeFront([last]) == Entry(last) + [];
    } else {
      assert (a + [last])[1..] == a[1..] + [last];
      EncodeFrontAppend(a[1..], last);
    }
  }

  lemma {:induction false} EncodeBothWays(artifacts: seq<Artifact>)
    ensures Encode(artifacts) == EncodeFront(artifacts)
  {
    hide Entry;
    if artifacts == [] {
    } else {
      var front, last := artifacts[..|artifacts| - 1], artifacts[|artifacts| - 1];
      EncodeBothWays(front);
      EncodeFrontAppend(front, last);
      assert artifacts == front + [last];
    }
  }

  lemma EntryNotEmpty(a: Artifact)
    ensures |Entry(a)| > 0
  {
  }

  lemma {:induction false} EncodeInjective(a: seq<Artifact>, b: seq<Artifact>)
    requires forall x :: x in a || x in b ==> ValidArtifact(x)
    requires EncodeFront(a) == EncodeFront(b)
    ensures a == b
    decreases |a|
  {
    hide Entry, ValidArtifact;
    if a == [] || b == [] {
      if a != [] { EntryNotEmpty(a[0]); }
      if b != [] { EntryNotEmpty(b[0]); }
    } else {
      assert a[0] in a && b[0] in b;
      EntrySplits(a[0], EncodeFront(a[1..]), b[0], EncodeFront(b[1..]));
      EncodeInjective(a[1..], b[1..]);
      assert a == [a[0]] + a[1..] && b == [b[0]] + b[1..];
    }
  }

  // ---- a set of resources has one sorted list ----

  lemma {:induction false} SortedUnique(a: seq<Artifact>, b: seq<Artifact>)
    requires Sorted(a) && Sorted(b) && forall x :: x in a <==> x in b
    ensures a == b
    decreases |a|
  {
    SameEmptiness(a, b);
    if a == [] {
    } else {
      SameFirst(a, b);
      forall x ensures x in a[1..] <==> x in b[1..] {
        RestMember(a, x);
        RestMember(b, x);
      }
      SortedUnique(a[1..], b[1..]);
      assert a == [a[0]] + a[1..] && b == [b[0]] + b[1..];
    }
  }

  lemma SameEmptiness(a: seq<Artifact>, b: seq<Artifact>)
    requires forall x :: x in a <==> x in b
    ensures a == [] <==> b == []
  {
    if a != [] { assert a[0] in b; }
    if b != [] { assert b[0] in a; }
  }

  lemma RestMember(a: seq<Artifact>, x: Artifact)
    requires Sorted(a) && a != []
    ensures x in a[1..] <==> x in a && x != a[0]
  {
    LessTotal(a[0].path, a[0].path);
    assert a == [a[0]] + a[1..];
  }

  lemma SameFirst(a: seq<Artifact>, b: seq<Artifact>)
    requires Sorted(a) && Sorted(b) && a != [] && b != [] && forall x :: x in a <==> x in b
    ensures a[0] == b[0]
  {
    assert a[0] in b && b[0] in a;
    var i :| 0 <= i < |a| && a[i] == b[0];
    var j :| 0 <= j < |b| && b[j] == a[0];
    LessTotal(a[0].path, b[0].path);
  }

  // ---- resource_set_digest ----

  function ResourceList(artifacts: seq<Artifact>, binary: Bytes): seq<Artifact> {
    if artifacts == [] then []
    else
      var front, last := ResourceList(artifacts[..|artifacts| - 1], binary), artifacts[|artifacts| - 1];
      if last.path != binary then front + [last] else front
  }

  lemma {:induction false} ResourceListHolds(artifacts: seq<Artifact>, binary: Bytes)
    requires Distinct(artifacts)
    ensures forall x :: x in ResourceList(artifacts, binary) <==> x in artifacts && x.path != binary
    ensures Distinct(ResourceList(artifacts, binary))
  {
    if artifacts == [] {
    } else {
      var front, last := artifacts[..|artifacts| - 1], artifacts[|artifacts| - 1];
      assert artifacts == front + [last];
      ResourceListHolds(front, binary);
      var list := ResourceList(front, binary);
      forall i | 0 <= i < |list| ensures list[i].path != last.path {
        assert list[i] in front;
      }
    }
  }

  /** The error names the artifact at i, which is unsafe or repeats an earlier path. */
  predicate Faulty(artifacts: seq<Artifact>, i: nat, e: ReleaseError)
    requires i < |artifacts|
  {
    if ValidArtifact(artifacts[i]) then
      e == DuplicateArtifact(artifacts[i].path) && exists k :: 0 <= k < i && artifacts[k].path == artifacts[i].path
    else e == UnsafeArtifact(artifacts[i].path)
  }

  /** Refuses an unsafe or repeated artifact, and keeps every artifact but the binary. */
  method CollectResources(artifacts: seq<Artifact>, binary: Bytes) returns (r: Result<seq<Artifact>, ReleaseError>)
    ensures r.Ok? <==> Distinct(artifacts) && forall i :: 0 <= i < |artifacts| ==> ValidArtifact(artifacts[i])
    ensures r.Ok? ==> r.value == ResourceList(artifacts, binary)
    ensures r.Err? ==> !r.error.InvalidManifest? && exists i :: 0 <= i < |artifacts| && Faulty(artifacts, i, r.error)
  {
    hide ValidArtifact;
    var seen: set<Bytes> := {};
    var resources: seq<Artifact> := [];
    for i := 0 to |artifacts|
      invariant forall p :: p in seen <==> exists k :: 0 <= k < i && artifacts[k].path == p
      invariant resources == ResourceList(artifacts[..i], binary)
      invariant Distinct(artifacts[..i]) && forall k :: 0 <= k < i ==> ValidArtifact(artifacts[k])
    {
      var artifact := artifacts[i];
      if !ValidArtifact(artifact) {
        assert Faulty(artifacts, i, UnsafeArtifact(artifact.path));
        return Err(UnsafeArtifact(artifact.path));
      }
      if artifact.path in seen {
        assert Faulty(artifacts, i, DuplicateArtifact(artifact.path));
        return Err(DuplicateArtifact(artifact.path));
      }
      assert artifacts[..i + 1][..i] == artifacts[..i];
      seen := seen + {artifact.path};
      if artifact.path != binary {
        resources := resources + [artifact];
      }
    }
    assert artifacts[..|artifacts|] == artifacts;
    return Ok(resources);
  }

  method HashResources(sorted: seq<Artifact>) returns (digest: Bytes)
    ensures digest == Encode(sorted)
  {
    digest := [];
    for i := 0 to |sorted|
      invariant digest == Encode(sorted[..i])
    {
      assert sorted[..i + 1][..i] == sorted[..i];
      digest := digest + Field(sorted[i].path);
      digest := digest + Field(BigEndian(sorted[i].mode, 4));
      digest := digest + Field(sorted[i].sha256);
      assert digest == Encode(sorted[..i]) + Entry(sorted[i]);
    }
    assert sorted[..|sorted|] == sorted;
  }

  /** The bytes hashed are the sorted resources, encoded; every invalid cohort is refused. */
  method ResourceSetBytes(artifacts: seq<Artifact>, binary: Bytes) returns (r: Result<Bytes, ReleaseError>)
    ensures r.Ok? <==> ValidCohort(artifacts, binary)
    ensures r.Ok? ==> Hashes(artifacts, binary, r.value)
  {
    hide ValidPath, ValidArtifact, Encode, Sorted, Hashes, ResourceList, SortByPath;
    if artifacts == [] || |artifacts| > MAX_ARTIFACTS || !ValidPath(binary) {
      return Err(InvalidManifest);
    }
    var collected := CollectResources(artifacts, binary);
    if collected.Err? {
      return Err(collected.error);
    }
    ResourceListHolds(artifacts, binary);
    var sorted := SortByPath(collected.value);
    var digest := HashResources(sorted);
    SortedHashes(artifacts, binary, sorted);
    return Ok(digest);
  }

  lemma SortedHashes(artifacts: seq<Artifact>, binary: Bytes, sorted: seq<Artifact>)
    requires Sorted(sorted) && forall x :: x in sorted <==> x in artifacts && x.path != binary
    ensures Hashes(artifacts, binary, Encode(sorted))
  {
  }

  /** The hashed bytes as a value, for comparing two cohorts. */
  ghost predicate Hashes(artifacts: seq<Artifact>, binary: Bytes, bytes: Bytes) {
    exists sorted :: Sorted(sorted) && (set x | x in sorted) == Resources(artifacts, binary) && bytes == Encode(sorted)
  }

  /** Canonical and injective: two valid cohorts give the same bytes exactly when they hold the same
      resources, whatever the order of their lists. */
  lemma SameBytesSameResources(
    a: seq<Artifact>, binaryA: Bytes, bytesA: Bytes, b: seq<Artifact>, binaryB: Bytes, bytesB: Bytes)
    requires ValidCohort(a, binaryA) && ValidCohort(b, binaryB)
    requires Hashes(a, binaryA, bytesA) && Hashes(b, binaryB, bytesB)
    ensures bytesA == bytesB <==> Resources(a, binaryA) == Resources(b, binaryB)
  {
    hide ValidPath, ValidArtifact, Encode, EncodeFront;
    var x :| Sorted(x) && (set e | e in x) == Resources(a, binaryA) && bytesA == Encode(x);
    var y :| Sorted(y) && (set e | e in y) == Resources(b, binaryB) && bytesB == Encode(y);
    assert forall e :: e in x <==> e in Resources(a, binaryA);
    assert forall e :: e in y <==> e in Resources(b, binaryB);
    if bytesA == bytesB {
      EncodeBothWays(x);
      EncodeBothWays(y);
      EncodeInjective(x, y);
    }
    if Resources(a, binaryA) == Resources(b, binaryB) {
      SortedUnique(x, y);
    }
  }
}
