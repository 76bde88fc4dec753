/** mountVolume: attach the volume, look for its device file, create the
    mount point under a cleared umask, mount. */
module Mount {
  import opened Outcomes

  const MaxProbes: nat := 5
  const Xvdf: string := "/dev/xvdf"
  const Nvme: string := "/dev/nvme1n1"
  const MountPoint: string := "/mnt/game"
  const FsType: string := "ext4"

  /** What one probe sees: whether os.Stat succeeds on /dev/xvdf and on
      /dev/nvme1n1. */
  datatype Observation = Observation(xvdfExists: bool, nvmeExists: bool)

  /** One observation for each probe the search may make. */
  type Observations = s: seq<Observation> | |s| == MaxProbes
    witness [Observation(false, false), Observation(false, false), Observation(false, false),
             Observation(false, false), Observation(false, false)]

  predicate Hit(o: Observation)
  {
    o.xvdfExists || o.nvmeExists
  }

  /** The device chosen on a successful probe: /dev/xvdf wins a tie. */
  function Choose(o: Observation): string
  {
    if !o.xvdfExists then Nvme else Xvdf
  }

  /** The first probe at which either device file exists. */
  function FirstHit(obs: seq<Observation>): (r: Option<nat>)
    ensures r.Some? ==> r.value < |obs| && Hit(obs[r.value])
    ensures r.Some? ==> forall j :: 0 <= j < r.value ==> !Hit(obs[j])
    ensures r.None? <==> forall j :: 0 <= j < |obs| ==> !Hit(obs[j])
  {
    if obs == [] then None
    else if Hit(obs[0]) then Some(0)
    else match FirstHit(obs[1..])
      case None => None
      case Some(k) => Some(k + 1)
  }

  /** The outcome of the search: found and deviceFile as the code leaves
      them, how many probes it made and how many one-second sleeps. */
  datatype Search = Search(found: bool, deviceFile: string, probes: nat, sleeps: nat)

  /** The search the loop performs, stated on the observations. */
  function DeviceSearch(obs: Observations): (s: Search)
  {
    match FirstHit(obs)
    case Some(k) => Search(true, Choose(obs[k]), k + 1, k)
    case None => Search(false, "", MaxProbes, MaxProbes)
  }

  /** The device-file loop of mountVolume: at most five probes, each
      testing both paths, stopping at the first probe that finds either, with
      a one-second sleep after every probe that finds neither. */
  method FindDeviceFile(obs: Observations) returns (found: bool, deviceFile: string, probes: nat, sleeps: nat)
    ensures Search(found, deviceFile, probes, sleeps) == DeviceSearch(obs)
  {
    found := false;
    deviceFile := "";
    probes, sleeps := 0, 0;
    for i := 0 to MaxProbes
      invariant !found && deviceFile == ""
      invariant probes == i && sleeps == i
      invariant forall j :: 0 <= j < i ==> !Hit(obs[j])
    {
      probes := probes + 1;
      var xvdf := obs[i].xvdfExists;
      var nvme := obs[i].nvmeExists;
      if xvdf || nvme {
        found := true;
        if !xvdf {
          deviceFile := Nvme;
        } else {
          deviceFile := Xvdf;
        }
        assert FirstHit(obs) == Some(i);
        break;
      }
      sleeps := sleeps + 1;
    }
  }

  /** The search makes between one and five probes and stops at the first
      that finds a device; "Device file not found" iff no probe found one. */
  lemma {:induction false} DeviceSearchStopsAtFirstHit(obs: Observations)
    ensures 1 <= DeviceSearch(obs).probes <= MaxProbes
    ensures !DeviceSearch(obs).found <==> forall j :: 0 <= j < MaxProbes ==> !Hit(obs[j])
    ensures DeviceSearch(obs).found ==>
      && Hit(obs[DeviceSearch(obs).probes - 1])
      && forall j :: 0 <= j < DeviceSearch(obs).probes - 1 ==> !Hit(obs[j])
    ensures !DeviceSearch(obs).found ==> DeviceSearch(obs).probes == MaxProbes
  {
  }

  /** A found device is one of the two candidates, /dev/xvdf whenever it
      exists on the deciding probe, /dev/nvme1n1 only when it does not. */
  lemma DeviceSearchTieBreak(obs: Observations)
    ensures var s := DeviceSearch(obs);
      && (s.found <==> s.deviceFile in {Xvdf, Nvme})
      && (s.found ==> (s.deviceFile == Xvdf <==> obs[s.probes - 1].xvdfExists))
      && (s.found ==> (s.deviceFile == Nvme <==> !obs[s.probes - 1].xvdfExists && obs[s.probes - 1].nvmeExists))
  {
  }

  /** The failures mountVolume reports, in the order its steps run. */
  datatype MountError =
    | AttachFailed     // "error attaching volume: ..."
    | DeviceNotFound   // "Device file not found"
    | MkdirFailed      // "error creating mount point: ..."
    | MountFailed      // "error mounting volume: ..."

  /** What the environment does at each step of mountVolume. */
  datatype MountEnv = MountEnv(attachOk: bool, obs: Observations, mkdirOk: bool, mountOk: bool)

  /** How mountVolume ends: the error (None for nil), the device handed to
      syscall.Mount if it was called, and the umask the process is left with. */
  datatype MountRun = MountRun(error: Option<MountError>, mountedDevice: Option<string>, umask: int)

  /** mountVolume over the outcomes of its steps. */
  function MountVolume(env: MountEnv, oldUmask: int): (r: MountRun)
    ensures r.error.None? <==>
      env.attachOk && DeviceSearch(env.obs).found && env.mkdirOk && env.mountOk
    ensures r.error == Some(DeviceNotFound) <==>
      env.attachOk && forall j :: 0 <= j < MaxProbes ==> !Hit(env.obs[j])
    ensures r.mountedDevice.Some? <==> env.attachOk && DeviceSearch(env.obs).found && env.mkdirOk
    ensures r.mountedDevice.Some? ==> r.mountedDevice.value == DeviceSearch(env.obs).deviceFile
    ensures r.mountedDevice.Some? ==> r.mountedDevice.value in {Xvdf, Nvme}
    ensures r.error == Some(AttachFailed) <==> !env.attachOk
    ensures r.error == Some(MkdirFailed) <==> env.attachOk && DeviceSearch(env.obs).found && !env.mkdirOk
    ensures r.error == Some(MountFailed) <==>
      env.attachOk && DeviceSearch(env.obs).found && env.mkdirOk && !env.mountOk
    ensures r.umask == (if r.error == Some(MkdirFailed) then 0 else oldUmask)
  {
    DeviceSearchTieBreak(env.obs);
    DeviceSearchStopsAtFirstHit(env.obs);
    if !env.attachOk then MountRun(Some(AttachFailed), None, oldUmask)
    else
      var search := DeviceSearch(env.obs);
      if !search.found then MountRun(Some(DeviceNotFound), None, oldUmask)
      // syscall.Umask(0) precedes os.Mkdir; the old mask is put back only
      // when Mkdir succeeds.
      else if !env.mkdirOk then MountRun(Some(MkdirFailed), None, 0)
      else if !env.mountOk then MountRun(Some(MountFailed), Some(search.deviceFile), oldUmask)
      else MountRun(None, Some(search.deviceFile), oldUmask)
  }
}
