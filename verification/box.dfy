/** Facts about 64-bit masks used by the feature bit-set. */
module Bits {
  lemma SingleBitsMeet(i: nat, j: nat)
    requires i < 17 && j < 17
    ensures ((1 as bv64 << i) & (1 as bv64 << j) != 0) <==> i == j
  {
  }

  /** Solver helper: `and` distributes over `or`. */
  lemma Distributes(x: bv64, y: bv64, z: bv64)
    ensures (x | y) & z == (x & z) | (y & z)
  {
  }

  /** Solver helper: an `or` is non-zero exactly when one side is. */
  lemma OrNonZero(a: bv64, b: bv64)
    ensures (a | b != 0) <==> (a != 0 || b != 0)
  {
  }

  /** Or-ing masks is set union: a bit is in the or of two masks exactly
      when it is in one of them. */
  lemma OrMeets(x: bv64, y: bv64, z: bv64)
    ensures ((x | y) & z != 0) <==> (x & z != 0 || y & z != 0)
  {
    Distributes(x, y, z);
    OrNonZero(x & z, y & z);
  }
}

/** What every sandbox implementation shares: the on-disk naming of boxes,
    the feature bit-set, the replies of operations an implementation does
    not provide, the order in which the base record is archived, and the
    registry that maps implementation names to their constructors. */
module Box {
  import opened Json
  import opened Logger
  import opened Bits

  // ---------------------------------------------------------------------
  // Box directories
  // ---------------------------------------------------------------------

  /** The directory of box `id` under the sandbox base path (Unix form):
      `<bp>/box_<id>/`. */
  function BoxBasePath(bp: string, id: nat): (p: string)
    ensures |p| >= |bp| + 7
    ensures p[..|bp|] == bp && p[|p| - 1] == '/'
  {
    bp + "/box_" + NatToDecimal(id) + "/"
  }

  /** Reads a box id back out of a directory name of that form. */
  function BoxIdOf(bp: string, p: string): Option<nat> {
    if |p| >= |bp| + 7 && p[..|bp|] == bp && p[|bp|..|bp| + 5] == "/box_" && p[|p| - 1] == '/'
       && AllDigits(p[|bp| + 5..|p| - 1])
    then Some(DigitsValue(p[|bp| + 5..|p| - 1]))
    else None
  }

  /** The id is recoverable from the directory name. */
  lemma BoxIdOfBoxBasePath(bp: string, id: nat)
    ensures BoxIdOf(bp, BoxBasePath(bp, id)) == Some(id)
  {
    var p := BoxBasePath(bp, id);
    var d := NatToDecimal(id);
    assert p[|bp|..|bp| + 5] == "/box_";
    assert p[|bp| + 5..|p| - 1] == d;
    NatToDecimalRoundTrip(id);
  }

  /** Two ids share a directory only if they are the same id. */
  lemma BoxBasePathInjective(bp: string, a: nat, b: nat)
    ensures BoxBasePath(bp, a) == BoxBasePath(bp, b) <==> a == b
  {
    BoxIdOfBoxBasePath(bp, a);
    BoxIdOfBoxBasePath(bp, b);
  }

  /** No box directory lies inside another one: the decimal id is closed by
      '/', so one name is never a proper prefix of another. */
  lemma BoxBasePathPrefixFree(bp: string, a: nat, b: nat)
    requires a != b
    ensures !(BoxBasePath(bp, a) <= BoxBasePath(bp, b))
  {
    var pa, pb := BoxBasePath(bp, a), BoxBasePath(bp, b);
    var da, db := NatToDecimal(a), NatToDecimal(b);
    if pa <= pb {
      assert pa[|bp| + 5 + |da|] == '/';
      if |da| == |db| {
        assert pa == pb;
        BoxBasePathInjective(bp, a, b);
      }
    }
  }

  // ---------------------------------------------------------------------
  // Features
  // ---------------------------------------------------------------------

  datatype Feature =
    | MemoryLimit | TimeLimit | WallTimeLimit | ProcessLimit | ProcessLimitFull
    | DiskLimit | DiskLimitFull | FolderMount | MemoryUsage | RunningTime | WallTime
    | Clearable | ProcessIsolation | IoRedirection | NetworkIsolation | ReturnCode | Signal

  /** The position of a feature's bit in the 64-bit mask. */
  function BitIndex(f: Feature): (k: nat)
    ensures k < 17
  {
    match f
    case MemoryLimit => 0
    case TimeLimit => 1
    case WallTimeLimit => 2
    case ProcessLimit => 3
    case ProcessLimitFull => 4
    case DiskLimit => 5
    case DiskLimitFull => 6
    case FolderMount => 7
    case MemoryUsage => 8
    case RunningTime => 9
    case WallTime => 10
    case Clearable => 11
    case ProcessIsolation => 12
    case IoRedirection => 13
    case NetworkIsolation => 14
    case ReturnCode => 15
    case Signal => 16
  }

  /** The mask constant of each feature. */
  function FeatureBit(f: Feature): (b: bv64)
    ensures b == 1 << BitIndex(f)
  {
    match f
    case MemoryLimit => 0x0000_0001
    case TimeLimit => 0x0000_0002
    case WallTimeLimit => 0x0000_0004
    case ProcessLimit => 0x0000_0008
    case ProcessLimitFull => 0x0000_0010
    case DiskLimit => 0x0000_0020
    case DiskLimitFull => 0x0000_0040
    case FolderMount => 0x0000_0080
    case MemoryUsage => 0x0000_0100
    case RunningTime => 0x0000_0200
    case WallTime => 0x0000_0400
    case Clearable => 0x0000_0800
    case ProcessIsolation => 0x0000_1000
    case IoRedirection => 0x0000_2000
    case NetworkIsolation => 0x0000_4000
    case ReturnCode => 0x0000_8000
    case Signal => 0x0001_0000
  }

  lemma BitIndexInjective(f: Feature, g: Feature)
    ensures BitIndex(f) == BitIndex(g) ==> f == g
  {
  }

  /** The constants are pairwise distinct single bits: two of them share a
      bit exactly when they are the same feature. */
  lemma FeatureBitsDisjoint(f: Feature, g: Feature)
    ensures (FeatureBit(f) & FeatureBit(g) != 0) <==> f == g
  {
    SingleBitsMeet(BitIndex(f), BitIndex(g));
    BitIndexInjective(f, g);
  }

  // ---------------------------------------------------------------------
  // Operations an implementation does not provide
  // ---------------------------------------------------------------------

  const NotImplementedCode: int := 254
  const NotImplementedMessage: string := "This method is not implemented by this sandbox!"

  /** The report every default operation sends to the error handler. */
  function NotImplemented(): (d: Diagnostic)
    ensures d.code == 254
  {
    Diagnostic(NotImplementedCode, NotImplementedMessage)
  }

  /** `serror`: a message followed by the C library's text for an errno. */
  function Serror(base: string, reason: string): (m: string)
    ensures |m| == |base| + 2 + |reason| && m[..|base|] == base
  {
    base + ": " + reason
  }

  // ---------------------------------------------------------------------
  // Archiving
  // ---------------------------------------------------------------------

  /** One value written to, or read from, a serialization archive. */
  datatype ArchiveItem = Number(n: nat) | Text(s: string)

  /** The base record goes to the archive as the id, then the base path. */
  function SerializeBase(id: nat, bp: string): (items: seq<ArchiveItem>)
    ensures |items| == 2
  {
    [Number(id), Text(bp)]
  }

  /** Reading the base record back from the front of an archive; also gives
      what follows it. */
  function DeserializeBase(items: seq<ArchiveItem>): Option<(nat, string, seq<ArchiveItem>)> {
    if |items| >= 2 && items[0].Number? && items[1].Text? then Some((items[0].n, items[1].s, items[2..]))
    else None
  }

  lemma BaseRoundTrip(id: nat, bp: string, rest: seq<ArchiveItem>)
    ensures DeserializeBase(SerializeBase(id, bp) + rest) == Some((id, bp, rest))
  {
    assert (SerializeBase(id, bp) + rest)[2..] == rest;
  }

  // ---------------------------------------------------------------------
  // The registry of implementations
  // ---------------------------------------------------------------------

  datatype SandboxKind = DummyUnixKind | NamespaceKind

  /** The names the implementations register themselves under at start-up. */
  function BuiltinCreators(): (m: map<string, SandboxKind>)
    ensures m.Keys == {"DummyUnixSandbox", "NamespaceSandbox"}
  {
    map["DummyUnixSandbox" := DummyUnixKind, "NamespaceSandbox" := NamespaceKind]
  }

  /** Registrations of distinct names commute, so the order of the two
      registrations does not matter. */
  lemma RegistrationsCommute(m: map<string, SandboxKind>, a: string, ka: SandboxKind, b: string, kb: SandboxKind)
    requires a != b
    ensures m[a := ka][b := kb] == m[b := kb][a := ka]
  {
  }

  class BoxCreators {
    var creators: map<string, SandboxKind>

    constructor()
      ensures creators == map[]
    {
      creators := map[];
    }

    /** `REGISTER_SANDBOX`: the name now maps to the implementation. */
    method Register(name: string, kind: SandboxKind)
      modifies this
      ensures creators == old(creators)[name := kind]
    {
      creators := creators[name := kind];
    }

    /** The two registrations the implementations perform. */
    method RegisterBuiltins()
      modifies this
      ensures creators == old(creators) + BuiltinCreators()
    {
      Register("DummyUnixSandbox", DummyUnixKind);
      Register("NamespaceSandbox", NamespaceKind);
    }

    /** The constructor registered under a name; none for a name never
        registered. */
    function CreatorFor(name: string): (r: Option<SandboxKind>)
      reads this
      ensures r.Some? <==> name in creators
      ensures r.Some? ==> creators[name] == r.value
    {
      if name in creators then Some(creators[name]) else None
    }
  }
}
