/**
 The If-Match precondition of mission commands (app/api/routes/missions.py:1105-1155): the entity tag of a
 mission is its last event sequence.
 */
module MissionVersion {
  import opened Wrappers
  import opened MissionDomain
  import opened MissionSteps
  import opened MissionWorld
  import opened MissionSafety

  /** The header: missing, not an integer, or an integer between optional quotes. */
  datatype IfMatch = Absent | Unreadable | Number(n: int)

  datatype VersionError = InvalidVersion | NotFound | Conflict(current: nat, expected: nat)

  /** `_mission_etag`. */
  function ETag(m: Mission): IfMatch {
    Number(m.lastEventSequence)
  }

  /**
   `_ensure_mission_version`: a command without the header is let through, as is one that names the mission's last
   event; a header that is no number, or a negative one, is refused before the mission is looked for.
   */
  function EnsureVersion(m: Option<Mission>, header: IfMatch): (r: Result<(), VersionError>)
    ensures r.Success? <==> header.Absent? || (header.Number? && m.Some? && header.n == m.value.lastEventSequence)
    ensures r == Failure(InvalidVersion) <==> header.Unreadable? || (header.Number? && header.n < 0)
    ensures r == Failure(NotFound) <==> header.Number? && header.n >= 0 && m.None?
    ensures r.Failure? && r.error.Conflict? ==>
              m.Some? && r.error.current == m.value.lastEventSequence && header == Number(r.error.expected)
  {
    match header
    case Absent => Success(())
    case Unreadable => Failure(InvalidVersion)
    case Number(n) =>
      if n < 0 then Failure(InvalidVersion)
      else if m.None? then Failure(NotFound)
      else if m.value.lastEventSequence != n then Failure(Conflict(m.value.lastEventSequence, n))
      else Success(())
  }

  /**
   A client that read the mission and sends its tag back later: the command is let through only if the mission is
   still what the client saw, or only a worker's claim, which records no event, came in between; any change that
   recorded an event is answered with a conflict that names both versions.
   */
  lemma TagGuardsAgainstChanges(run: seq<World>, i: nat, j: nat)
    requires IsRun(NoStaleCopy, run) && i <= j < |run|
    ensures run[i].HasStored() && run[j].HasStored()
    ensures var seen, now := run[i].StoredMission(), run[j].StoredMission();
            && (EnsureVersion(Some(now), ETag(seen)).Success? <==> now == seen || OneClaim(seen, now))
            && (EnsureVersion(Some(now), ETag(seen)).Failure? ==>
                  && EnsureVersion(Some(now), ETag(seen)) == Failure(Conflict(now.lastEventSequence, seen.lastEventSequence))
                  && now.lastEventSequence > seen.lastEventSequence)
  {
    hide IsRun;
    RunEvolves(run, i, j);
  }
}
