/**
 The pure decisions of `browser-extension/src/capture-policy.js`: the identity
 vote and the resolution between protocol and activity ownership.
 */
module CapturePolicy {
  import opened Wrappers

  const VOTE_MAX_GAP_MS: real := 400.0
  const VOTE_MIN_SAMPLES: nat := 6
  const VOTE_MIN_MS: real := 250.0

  datatype Vote = Vote(deviceId: string, samples: nat, firstAt: real, lastAt: real)

  /** Keeps only a contiguous run of agreement about one device. */
  function NextIdentityVote(previous: Option<Vote>, deviceId: string, now: real): Vote {
    if
      && previous.Some?
      && previous.value.deviceId == deviceId
      && previous.value.lastAt <= now
      && now - previous.value.lastAt <= VOTE_MAX_GAP_MS
    then previous.value.(samples := previous.value.samples + 1, lastAt := now)
    else Vote(deviceId, 1, now, now)
  }

  predicate IdentityVoteReady(vote: Vote) {
    vote.samples >= VOTE_MIN_SAMPLES && vote.lastAt - vote.firstAt >= VOTE_MIN_MS
  }

  predicate IdentityVoteFresh(vote: Vote, now: real) {
    vote.lastAt <= now && now - vote.lastAt <= VOTE_MAX_GAP_MS
  }

  datatype RouteIdentity = RouteIdentity(
    deviceId: string,
    activityDeviceId: string,
    overriddenProtocolRawDeviceId: string)

  /** Activity ownership wins while the protocol repeats the mapping it disproved. */
  function ResolveRouteIdentity(
    protocolRawDeviceId: string,
    protocolDeviceId: string,
    currentDeviceId: string,
    activityDeviceId: string,
    overriddenProtocolRawDeviceId: string,
    protocolStale: bool): RouteIdentity
  {
    var activityStillOverrides :=
      && activityDeviceId != ""
      && (|| protocolRawDeviceId == ""
          || protocolStale
          || (overriddenProtocolRawDeviceId != "" && protocolRawDeviceId == overriddenProtocolRawDeviceId));
    if activityStillOverrides then
      RouteIdentity(activityDeviceId, activityDeviceId, overriddenProtocolRawDeviceId)
    else
      RouteIdentity(
        if protocolDeviceId != "" then protocolDeviceId else if protocolStale then currentDeviceId else "",
        "", "")
  }
}
