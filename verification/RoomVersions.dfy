/** Room versions: the flags that the authorisation rules branch on, and the versions the server knows. */
module RoomVersions {

  datatype EventFormat = V1V2 | V3 | V4Plus | V11HydraPlus

  datatype RoomVersion = RoomVersion(
    identifier: string,
    format: EventFormat,
    specialCaseAliases: bool,
    strictCanonicalJson: bool,
    limitNotifications: bool,
    implicitCreator: bool,
    restricted: bool,
    knock: bool,
    knockRestricted: bool,
    ownedState: bool, // MSC3757
    creatorPower: bool, // MSC4289
    roomIdsAsHashes: bool // MSC4291
  )

  const KNOWN_ROOM_VERSIONS: seq<RoomVersion> := [
    RoomVersion("1", V1V2, true, false, false, false, false, false, false, false, false, false),
    RoomVersion("2", V1V2, true, false, false, false, false, false, false, false, false, false),
    RoomVersion("3", V3, true, false, false, false, false, false, false, false, false, false),
    RoomVersion("4", V4Plus, true, false, false, false, false, false, false, false, false, false),
    RoomVersion("5", V4Plus, true, false, false, false, false, false, false, false, false, false),
    RoomVersion("6", V4Plus, false, true, true, false, false, false, false, false, false, false),
    RoomVersion("7", V4Plus, false, true, true, false, false, true, false, false, false, false),
    RoomVersion("8", V4Plus, false, true, true, false, true, true, false, false, false, false),
    RoomVersion("9", V4Plus, false, true, true, false, true, true, false, false, false, false),
    RoomVersion("10", V4Plus, false, true, true, false, true, true, true, false, false, false),
    RoomVersion("11", V4Plus, false, true, true, true, true, true, true, false, false, false),
    RoomVersion("12", V11HydraPlus, false, true, true, true, true, true, true, false, true, true),
    RoomVersion("org.matrix.msc3757.10", V4Plus, false, true, true, false, true, true, true, true, false, false),
    RoomVersion("org.matrix.msc3757.11", V4Plus, false, true, true, true, true, true, true, true, false, false),
    RoomVersion("org.matrix.hydra.11", V11HydraPlus, false, true, true, true, true, true, true, false, true, true)
  ]

  predicate IsKnownIdentifier(id: string) {
    exists i :: 0 <= i < |KNOWN_ROOM_VERSIONS| && KNOWN_ROOM_VERSIONS[i].identifier == id
  }

  /** Dependent flags are set together. */
  predicate Coherent(v: RoomVersion) {
    && (v.knockRestricted ==> v.restricted && v.knock)
    && (v.creatorPower ==> v.implicitCreator && v.strictCanonicalJson)
  }

  const IDENTIFIERS: seq<string> := [
    "1", "2", "3", "4", "5", "6", "7", "8", "9", "10", "11", "12",
    "org.matrix.msc3757.10", "org.matrix.msc3757.11", "org.matrix.hydra.11"
  ]

  /** Read flag by flag: from which version on each is set, the experimental versions coming last. */
  lemma {:induction false} FlagsByVersion(i: nat)
    requires i < |KNOWN_ROOM_VERSIONS|
    ensures |KNOWN_ROOM_VERSIONS| == |IDENTIFIERS|
    ensures var v := KNOWN_ROOM_VERSIONS[i];
      && v.identifier == IDENTIFIERS[i]
      && (v.format.V1V2? <==> i < 2) && (v.specialCaseAliases <==> i < 5)
      && (v.strictCanonicalJson <==> i >= 5) && (v.limitNotifications <==> i >= 5)
      && (v.knock <==> i >= 6) && (v.restricted <==> i >= 7) && (v.knockRestricted <==> i >= 9)
      && (v.implicitCreator <==> i in {10, 11, 13, 14}) && (v.ownedState <==> i in {12, 13})
      && (v.creatorPower <==> i in {11, 14}) && (v.roomIdsAsHashes <==> i in {11, 14})
  {
  }

  lemma {:induction false} KnownVersionsAreCoherent(v: RoomVersion)
    requires v in KNOWN_ROOM_VERSIONS
    ensures Coherent(v) && IsKnownIdentifier(v.identifier)
  {
    var i: nat :| i < |KNOWN_ROOM_VERSIONS| && KNOWN_ROOM_VERSIONS[i] == v;
    CoherentAt(i);
  }

  lemma {:induction false} CoherentAt(i: nat)
    requires i < |KNOWN_ROOM_VERSIONS|
    ensures Coherent(KNOWN_ROOM_VERSIONS[i])
  {
    FlagsByVersion(i);
  }
}
