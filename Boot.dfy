/** main: the boot sequence. User data and instance id are fatal; DNS and
    the volume mount are only reported; the termination check is not
    started (its call is commented out), so main simply returns. */
module Boot {
  import opened Outcomes
  import opened UserData
  import opened Dns
  import opened Mount

  /** The steps of main, in the order they run. */
  datatype Step = GetUserData | GetInstanceId | NewSession | SetDnsStep | MountVolumeStep

  const AllSteps: seq<Step> := [GetUserData, GetInstanceId, NewSession, SetDnsStep, MountVolumeStep]

  /** How the process ends: os.Exit(code), a Go panic, or main returning. */
  datatype Ending = Exited(code: int) | Panicked | Returned

  /** The exit status the process reports: a Go panic exits with 2, a
      return from main with 0. */
  function ExitStatus(e: Ending): int
  {
    match e
    case Exited(code) => code
    case Panicked => 2
    case Returned => 0
  }

  /** What each step of main meets. userData is the outcome of getUserData:
      the fetch of the blob and, if it arrived, its parse. */
  datatype BootEnv = BootEnv(
    userData: Fetch<ParseResult>,
    instanceId: Fetch<string>,
    sessionOk: bool,        // session.Must panics when session creation fails
    publicIp: Fetch<string>,
    upsertOk: bool,
    mount: MountEnv,
    umask: int)

  /** The steps that ran, the non-fatal failures that were printed, and the
      ending. */
  datatype BootRun = BootRun(steps: seq<Step>, reported: seq<Step>, ending: Ending)

  /** getUserData returns an error (other than a panic). */
  predicate UserDataFails(u: Fetch<ParseResult>)
  {
    u.FetchError? || u.value.Malformed? || u.value.BadInterval? || u.value.BadThreshold?
  }

  /** The boot sequence of main. */
  function BootSequence(env: BootEnv): (r: BootRun)
    ensures 1 <= |r.steps| <= |AllSteps| && r.steps == AllSteps[..|r.steps|]
    ensures ExitStatus(r.ending) == 1 <==>
      UserDataFails(env.userData) || (env.userData.Fetched? && env.userData.value.Ok? && env.instanceId.FetchError?)
    ensures r.ending.Exited? ==> r.ending == Exited(1) && |r.steps| <= 2
    ensures r.ending == Panicked <==>
      || (env.userData.Fetched? && env.userData.value.IndexOutOfRange?)
      || (env.userData.Fetched? && env.userData.value.Ok? && env.instanceId.Fetched? && !env.sessionOk)
    ensures r.ending == Returned <==>
      env.userData.Fetched? && env.userData.value.Ok? && env.instanceId.Fetched? && env.sessionOk
    ensures r.ending == Returned ==> r.steps == AllSteps
    ensures r.ending == Returned ==>
      && (SetDnsStep in r.reported <==>
           SetDns(env.userData.value.config, env.publicIp, env.upsertOk).error.Some?)
      && (MountVolumeStep in r.reported <==> MountVolume(env.mount, env.umask).error.Some?)
    ensures forall s :: s in r.reported ==> s == SetDnsStep || s == MountVolumeStep
    ensures r.ending != Returned ==> r.reported == []
    ensures r.ending != Returned ==>
      |r.steps| == (if UserDataFails(env.userData) || !env.userData.value.Ok? then 1
                    else if env.instanceId.FetchError? then 2
                    else 3)
  {
    match env.userData
    case FetchError => BootRun([GetUserData], [], Exited(1))
    case Fetched(parsed) =>
      if parsed.IndexOutOfRange? then BootRun([GetUserData], [], Panicked)
      else if !parsed.Ok? then BootRun([GetUserData], [], Exited(1))
      else if env.instanceId.FetchError? then BootRun([GetUserData, GetInstanceId], [], Exited(1))
      else if !env.sessionOk then BootRun([GetUserData, GetInstanceId, NewSession], [], Panicked)
      else
        var dns := SetDns(parsed.config, env.publicIp, env.upsertOk);
        var mount := MountVolume(env.mount, env.umask);
        var reported := (if dns.error.Some? then [SetDnsStep] else [])
                      + (if mount.error.Some? then [MountVolumeStep] else []);
        BootRun(AllSteps, reported, Returned)
  }

  /** With getUserData as written, main never gets past its first step:
      every blob either exits with status 1 or panics, so no DNS record is
      set and no volume is mounted. */
  lemma AsWrittenBootStopsAtUserData(env: BootEnv, blob: string)
    requires env.userData == Fetched(ParseUserData(blob))
    ensures BootSequence(env).steps == [GetUserData]
    ensures ExitStatus(BootSequence(env).ending) in {1, 2}
  {
  }

  /** With the corrected parser, an encodable configuration reaches DNS and
      the mount, and their failures do not change the exit status 0. */
  lemma FixedBootProvisions(env: BootEnv, c: GameServerUserData)
    requires Encodable(c)
    requires env.userData == Fetched(ParseUserDataFixed(Encode(c)))
    requires env.instanceId.Fetched? && env.sessionOk
    ensures BootSequence(env).steps == AllSteps
    ensures BootSequence(env).ending == Returned && ExitStatus(BootSequence(env).ending) == 0
  {
    FixedRoundTrip(c);
  }
}
