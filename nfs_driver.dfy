/*
 * The NFS volume driver of volume/nfs/nfs.go as objects: the driver Root and
 * the Volume whose usage counter and host directory Mount and Unmount update
 * in place. Each external action is replaced by its outcome, passed in by the
 * caller; the actions attempted are appended to the ghost trace `effects`.
 * Every method is proved to do exactly what the matching step function of
 * NfsModel describes, so the lemmas there apply to the objects.
 */
module NfsVolumeDriver {
  import opened NfsModel

  class Root {

    constructor ()
    {
    }

    /** The driver's name. */
    function Name(): (n: string)
      ensures n == NfsDriverName && n == "nfs"
    {
      NfsDriverName
    }

    /** Creates a volume called `name`. The mounts directory is made sure to
        exist first (the stat, and the mkdir when it is absent, are returned
        in `rootEffects`), but whatever that reports is ignored: creation
        always succeeds with an unused, unmounted volume of this driver. */
    method Create(name: string, stat: StatOutcome, mkdirAll: Status)
      returns (v: Volume, err: Status, ghost rootEffects: seq<Effect>)
      ensures fresh(v)
      ensures err == Nil
      ensures rootEffects == EnsureNfsDirectoryExists(stat, mkdirAll).effects
      ensures v.Name() == name && v.DriverName() == Name()
      ensures v.State() == NewVolume(name) && v.effects == []
    {
      var ensured := EnsureNfsDirectoryExists(stat, mkdirAll);
      rootEffects := ensured.effects;
      v := new Volume(name, Name());
      err := Nil;
    }

    /** Removing a volume has nothing to do and never fails. */
    method Remove(v: Volume) returns (err: Status)
      ensures err == Nil
    {
      err := Nil;
    }
  }

  class Volume {
    /** Amount of container mounts using this volume. */
    var usedCount: int
    /** Unique name of the volume. */
    const name: string
    /** Name of the driver that created the volume. */
    const driverName: string
    /** Host directory the share is mounted on, "" when none is recorded. */
    var hostDirectory: string
    /** External actions attempted on behalf of this volume, oldest first. */
    ghost var effects: seq<Effect>

    constructor (name: string, driverName: string)
      ensures State() == VolumeState(name, driverName, 0, "")
      ensures effects == []
    {
      this.name := name;
      this.driverName := driverName;
      usedCount := 0;
      hostDirectory := "";
      effects := [];
    }

    /** The fields of the volume as one value. */
    function State(): VolumeState
      reads this
    {
      VolumeState(name, driverName, usedCount, hostDirectory)
    }

    function Name(): (n: string)
      ensures n == State().name
    {
      name
    }

    function DriverName(): (n: string)
      ensures n == State().driverName
    {
      driverName
    }

    /** Where the share is mounted; "" while it is not. */
    method Path() returns (p: string)
      ensures p == State().hostDirectory
    {
      p := hostDirectory;
    }

    /** Adds a user. Only a call that leaves the counter at most 1 creates a
        temporary directory, records it and runs the mount command on it. */
    method Mount(tempDir: TempDirOutcome, mountCmd: Status) returns (path: string, err: Status)
      modifies this
      ensures var r := MountStep(old(State()), tempDir, mountCmd);
              State() == r.state && path == r.path && err == r.status
              && effects == old(effects) + r.effects
    {
      // Even a failing Mount is followed by an Unmount, so the user is counted first.
      usedCount := usedCount + 1;
      if usedCount > 1 {
        return hostDirectory, Nil;
      }
      effects := effects + [MakeTempDir(NfsMountsDirectory)];
      match tempDir {
        case TempDirFailed(e) =>
          return "", Failed(e);
        case TempDirCreated(suffix) =>
          hostDirectory := TempDirPath(suffix);
      }
      effects := effects + [RunMountCmd(DriverName(), Name(), hostDirectory, MountOptions)];
      if mountCmd.Failed? {
        return "", mountCmd;
      }
      return hostDirectory, Nil;
    }

    /** Removes a user; unmounts the share and removes its directory once
        no user is left. */
    method Unmount(umountCmd: Status, removeDir: Status) returns (err: Status)
      modifies this
      ensures var r := UnmountStep(old(State()), umountCmd, removeDir);
              State() == r.state && err == r.status
              && effects == old(effects) + r.effects
    {
      // Release always reports nil, so there is no early return on its account.
      err := Release();
      if usedCount > 0 {
        return Nil;
      }
      effects := effects + [RunUmount(hostDirectory)];
      if umountCmd.Failed? {
        return umountCmd;
      }
      effects := effects + [RemoveDir(hostDirectory)];
      hostDirectory := "";
      return removeDir;
    }

    /** Decrements the counter, also when it is already 0; that case is only
        reported. */
    method Release() returns (err: Status)
      modifies this`usedCount, this`effects
      ensures var r := ReleaseStep(old(State()));
              State() == r.state && err == r.status
              && effects == old(effects) + r.effects
    {
      if usedCount == 0 {
        effects := effects + [ReportOverRelease(Name())];
      }
      usedCount := usedCount - 1;
      return Nil;
    }
  }
}
