/*
 * The bookkeeping of the NFS volume driver (volume/nfs/nfs.go) as values:
 * the state of one volume, one step function per operation, and lemmas about
 * sequences of Mount and Unmount calls. The external effects (temporary
 * directory creation, the mount command, umount, directory removal, the
 * stat/mkdir of the mounts directory) are not performed: each step receives
 * their outcome as an input and lists the effects it attempted, in order.
 */
module NfsModel {

  /** Directory under which every volume gets its own mount point. */
  const NfsMountsDirectory: string := "/var/lib/docker/nfs_mounts"

  /** Permissions used when the mounts directory is created (octal 0755). */
  const NfsMountsDirectoryPermissions: nat := 0x1ED

  /** The name the driver reports for itself and stamps on its volumes. */
  const NfsDriverName: string := "nfs"

  /** Options handed to the mount command: fail after 30 seconds, no retries. */
  const MountOptions: seq<string> := ["-o", "retry=0,timeo=30"]

  /** An operating-system error; only its identity matters to the driver. */
  datatype IoError = IoError(message: string)

  /** A Go `error` result: nil, or a failure carrying the error. */
  datatype Status = Nil | Failed(error: IoError)

  /** Outcome of creating a fresh temporary directory under the mounts directory. */
  datatype TempDirOutcome = TempDirCreated(suffix: string) | TempDirFailed(error: IoError)

  /** Outcome of stat-ing the mounts directory. */
  datatype StatOutcome = StatFound | StatNotExist | StatFailed(error: IoError)

  /** The external actions the driver attempts, in the order it attempts them. */
  datatype Effect =
    | StatMountsDirectory
    | MakeMountsDirectory(path: string, permissions: nat)
    | MakeTempDir(parent: string)
    | RunMountCmd(driver: string, source: string, target: string, options: seq<string>)
    | RunUmount(target: string)
    | RemoveDir(path: string)
    | ReportOverRelease(volume: string)

  /** Everything a volume records: its name, its driver, how many container
      mounts use it, and where the share is mounted ("" when it is not). */
  datatype VolumeState = VolumeState(name: string, driverName: string, usedCount: int, hostDirectory: string)

  datatype EnsureDirOutcome = EnsureDirOutcome(status: Status, effects: seq<Effect>)
  datatype MountOutcome = MountOutcome(state: VolumeState, path: string, status: Status, effects: seq<Effect>)
  datatype ReleaseOutcome = ReleaseOutcome(state: VolumeState, status: Status, effects: seq<Effect>)
  datatype UnmountOutcome = UnmountOutcome(state: VolumeState, status: Status, effects: seq<Effect>)

  /** A volume freshly returned by the driver's Create. */
  function NewVolume(name: string): VolumeState
  {
    VolumeState(name, NfsDriverName, 0, "")
  }

  /** True of a path that starts with the mounts directory followed by "/". */
  predicate InMountsDirectory(path: string)
  {
    |path| > |NfsMountsDirectory| && path[..|NfsMountsDirectory| + 1] == NfsMountsDirectory + "/"
  }

  /** The directory a successful temporary-directory creation returns:
      the mounts directory joined with the generated name. */
  function TempDirPath(suffix: string): (path: string)
    ensures InMountsDirectory(path)
    ensures path[|NfsMountsDirectory| + 1..] == suffix
  {
    NfsMountsDirectory + "/" + suffix
  }

  /** Makes sure the mounts directory exists: a stat that finds it succeeds,
      a stat that fails for another reason than absence reports that error,
      and an absent directory is created with the driver's permissions. */
  function EnsureNfsDirectoryExists(stat: StatOutcome, mkdirAll: Status): (r: EnsureDirOutcome)
    ensures r.status == Nil <==> stat.StatFound? || (stat.StatNotExist? && mkdirAll == Nil)
    ensures stat.StatFailed? ==> r.status == Failed(stat.error)
    ensures stat.StatNotExist? ==> r.status == mkdirAll
    ensures |r.effects| > 0 && r.effects[0] == StatMountsDirectory
    ensures MakeMountsDirectory(NfsMountsDirectory, NfsMountsDirectoryPermissions) in r.effects <==> stat.StatNotExist?
    ensures !stat.StatNotExist? ==> r.effects == [StatMountsDirectory]
    ensures stat.StatNotExist? ==>
      r.effects == [StatMountsDirectory, MakeMountsDirectory(NfsMountsDirectory, NfsMountsDirectoryPermissions)]
  {
    match stat
    case StatFound => EnsureDirOutcome(Nil, [StatMountsDirectory])
    case StatFailed(e) => EnsureDirOutcome(Failed(e), [StatMountsDirectory])
    case StatNotExist =>
      EnsureDirOutcome(mkdirAll, [StatMountsDirectory, MakeMountsDirectory(NfsMountsDirectory, NfsMountsDirectoryPermissions)])
  }

  /** One call of Mount. The user is counted before anything can fail; only a
      call that leaves the counter at most 1 creates a directory and mounts. */
  function MountStep(s: VolumeState, tempDir: TempDirOutcome, mountCmd: Status): (r: MountOutcome)
    // the counter goes up on every path, failures included; name and driver never change
    ensures r.state.name == s.name && r.state.driverName == s.driverName
    ensures r.state.usedCount == s.usedCount + 1
    // a success hands back the recorded directory, a failure the empty path
    ensures r.status == Nil ==> r.path == r.state.hostDirectory
    ensures r.status.Failed? ==> r.path == ""
    // already in use: the existing directory, no effect at all
    ensures s.usedCount >= 1 ==> r.status == Nil && r.state.hostDirectory == s.hostDirectory && r.effects == []
    // temporary directory failed: its error, directory untouched, nothing mounted
    ensures s.usedCount < 1 && tempDir.TempDirFailed? ==>
      r.status == Failed(tempDir.error) && r.state.hostDirectory == s.hostDirectory
      && r.effects == [MakeTempDir(NfsMountsDirectory)]
    // directory created: recorded before the mount command, kept even if that fails
    ensures s.usedCount < 1 && tempDir.TempDirCreated? ==>
      r.state.hostDirectory == TempDirPath(tempDir.suffix) && r.status == mountCmd
      && r.effects == [MakeTempDir(NfsMountsDirectory), RunMountCmd(s.driverName, s.name, r.state.hostDirectory, MountOptions)]
  {
    var counted := s.(usedCount := s.usedCount + 1);
    if counted.usedCount > 1 then
      MountOutcome(counted, s.hostDirectory, Nil, [])
    else
      match tempDir
      case TempDirFailed(e) =>
        MountOutcome(counted, "", Failed(e), [MakeTempDir(NfsMountsDirectory)])
      case TempDirCreated(suffix) =>
        var dir := TempDirPath(suffix);
        var effects := [MakeTempDir(NfsMountsDirectory), RunMountCmd(s.driverName, s.name, dir, MountOptions)];
        if mountCmd.Failed? then
          MountOutcome(counted.(hostDirectory := dir), "", mountCmd, effects)
        else
          MountOutcome(counted.(hostDirectory := dir), dir, Nil, effects)
  }

  /** One release of a user. It never fails; releasing an unused volume is
      only reported, and the counter then goes below zero. */
  function ReleaseStep(s: VolumeState): (r: ReleaseOutcome)
    ensures r.state.usedCount == s.usedCount - 1
    ensures r.state.name == s.name && r.state.driverName == s.driverName
    ensures r.state.hostDirectory == s.hostDirectory
    ensures r.status == Nil
    ensures r.effects == [] || r.effects == [ReportOverRelease(s.name)]
    ensures ReportOverRelease(s.name) in r.effects <==> s.usedCount == 0
  {
    var effects := if s.usedCount == 0 then [ReportOverRelease(s.name)] else [];
    ReleaseOutcome(s.(usedCount := s.usedCount - 1), Nil, effects)
  }

  /** One call of Unmount. The user is released first; the share is unmounted
      and its directory removed only once no user is left. */
  function UnmountStep(s: VolumeState, umountCmd: Status, removeDir: Status): (r: UnmountOutcome)
    ensures r.state.name == s.name && r.state.driverName == s.driverName
    ensures r.state.usedCount == s.usedCount - 1
    ensures ReportOverRelease(s.name) in r.effects <==> s.usedCount == 0
    // still in use: success, nothing unmounted, directory kept
    ensures s.usedCount > 1 ==> r.status == Nil && r.state.hostDirectory == s.hostDirectory && r.effects == []
    // last user: umount of the recorded directory is always attempted
    ensures s.usedCount <= 1 ==> RunUmount(s.hostDirectory) in r.effects
    // umount failed: its error, directory neither removed nor forgotten
    ensures s.usedCount <= 1 && umountCmd.Failed? ==>
      r.status == umountCmd && r.state.hostDirectory == s.hostDirectory
      && RemoveDir(s.hostDirectory) !in r.effects
      && r.effects == ReleaseStep(s).effects + [RunUmount(s.hostDirectory)]
    // umount succeeded: directory removed after it and forgotten even if removal failed
    ensures s.usedCount <= 1 && umountCmd == Nil ==>
      r.status == removeDir && r.state.hostDirectory == ""
      && r.effects == ReleaseStep(s).effects + [RunUmount(s.hostDirectory), RemoveDir(s.hostDirectory)]
  {
    // Release never fails, so Unmount never returns early on its account.
    var released := ReleaseStep(s);
    var t := released.state;
    if t.usedCount > 0 then
      UnmountOutcome(t, Nil, released.effects)
    else if umountCmd.Failed? then
      UnmountOutcome(t, umountCmd, released.effects + [RunUmount(t.hostDirectory)])
    else
      UnmountOutcome(t.(hostDirectory := ""), removeDir,
                     released.effects + [RunUmount(t.hostDirectory), RemoveDir(t.hostDirectory)])
  }

  /** A call a container makes on a volume, together with the outcomes of the
      external actions it would meet (unused outcomes are ignored). */
  datatype Call =
    | MountCall(tempDir: TempDirOutcome, mountCmd: Status)
    | UnmountCall(umountCmd: Status, removeDir: Status)

  function Apply(s: VolumeState, c: Call): VolumeState
  {
    match c
    case MountCall(tempDir, mountCmd) => MountStep(s, tempDir, mountCmd).state
    case UnmountCall(umountCmd, removeDir) => UnmountStep(s, umountCmd, removeDir).state
  }

  /** The state after the calls, made one after another. */
  function Run(s: VolumeState, calls: seq<Call>): VolumeState
    decreases |calls|
  {
    if calls == [] then s else Run(Apply(s, calls[0]), calls[1..])
  }

  function Mounts(calls: seq<Call>): nat
  {
    if calls == [] then 0 else (if calls[0].MountCall? then 1 else 0) + Mounts(calls[1..])
  }

  function Unmounts(calls: seq<Call>): nat
  {
    if calls == [] then 0 else (if calls[0].UnmountCall? then 1 else 0) + Unmounts(calls[1..])
  }

  /** No Unmount is made while the counter, starting at `count`, is not positive. */
  predicate NeverOverReleased(count: int, calls: seq<Call>)
    decreases |calls|
  {
    calls == [] ||
    ((calls[0].UnmountCall? ==> count > 0)
     && NeverOverReleased(if calls[0].MountCall? then count + 1 else count - 1, calls[1..]))
  }

  /** The directory operations the bookkeeping depends on succeed: a Mount
      gets its temporary directory, an Unmount gets its umount. The mount
      command and the directory removal may still fail. */
  predicate DirectoryOpsSucceed(c: Call)
  {
    match c
    case MountCall(tempDir, _) => tempDir.TempDirCreated?
    case UnmountCall(umountCmd, _) => umountCmd == Nil
  }

  /** The counter is never negative, and a directory is recorded exactly while
      the volume has users. */
  predicate Coherent(s: VolumeState)
  {
    s.usedCount >= 0 && (s.usedCount == 0 <==> s.hostDirectory == "")
  }

  /** Mount and Unmount move the counter by exactly one, whatever fails:
      after any calls it has moved by the number of Mounts minus Unmounts. */
  lemma {:induction false} UsedCountIsMountsMinusUnmounts(s: VolumeState, calls: seq<Call>)
    ensures Run(s, calls).usedCount == s.usedCount + Mounts(calls) - Unmounts(calls)
    ensures Run(s, calls).name == s.name && Run(s, calls).driverName == s.driverName
    decreases |calls|
  {
    if calls != [] {
      UsedCountIsMountsMinusUnmounts(Apply(s, calls[0]), calls[1..]);
    }
  }

  /** Whatever the outcomes, a recorded directory is always one created
      below the mounts directory. */
  lemma {:induction false} HostDirectoryStaysInMountsDirectory(s: VolumeState, calls: seq<Call>)
    requires s.hostDirectory == "" || InMountsDirectory(s.hostDirectory)
    ensures var t := Run(s, calls); t.hostDirectory == "" || InMountsDirectory(t.hostDirectory)
    decreases |calls|
  {
    if calls != [] {
      HostDirectoryStaysInMountsDirectory(Apply(s, calls[0]), calls[1..]);
    }
  }

  lemma ApplyKeepsCoherent(s: VolumeState, c: Call)
    requires DirectoryOpsSucceed(c)
    requires Coherent(s)
    requires c.UnmountCall? ==> s.usedCount > 0
    ensures Coherent(Apply(s, c))
  {
  }

  /** While temporary directories and umounts succeed and nothing is released
      more often than it was mounted, the bookkeeping stays coherent. */
  lemma {:induction false} CoherentRunStaysCoherent(s: VolumeState, calls: seq<Call>)
    requires forall i :: 0 <= i < |calls| ==> DirectoryOpsSucceed(calls[i])
    requires Coherent(s)
    requires NeverOverReleased(s.usedCount, calls)
    ensures Coherent(Run(s, calls))
    decreases |calls|
  {
    if calls != [] {
      ApplyKeepsCoherent(s, calls[0]);
      CoherentRunStaysCoherent(Apply(s, calls[0]), calls[1..]);
    }
  }

  /** A balanced sequence of Mounts and Unmounts, with no over-release and
      with its directory operations succeeding, brings an unused volume back
      to exactly its starting state: no user and no directory. */
  lemma BalancedRunReturnsToUnused(s: VolumeState, calls: seq<Call>)
    requires forall i :: 0 <= i < |calls| ==> DirectoryOpsSucceed(calls[i])
    requires s.usedCount == 0 && s.hostDirectory == ""
    requires NeverOverReleased(0, calls)
    requires Mounts(calls) == Unmounts(calls)
    ensures Run(s, calls) == s
  {
    UsedCountIsMountsMinusUnmounts(s, calls);
    CoherentRunStaysCoherent(s, calls);
  }

  /** First Mount followed by last Unmount: the directory is created, mounted,
      unmounted and removed, in that order, and the volume is unused again. */
  lemma FirstMountLastUnmountRoundTrip(s: VolumeState, suffix: string, removeDir: Status)
    requires s.usedCount == 0 && s.hostDirectory == ""
    ensures var m := MountStep(s, TempDirCreated(suffix), Nil);
            var u := UnmountStep(m.state, Nil, removeDir);
            var dir := TempDirPath(suffix);
            m.path == dir && m.status == Nil
            && u.state == s && u.status == removeDir
            && m.effects + u.effects
               == [MakeTempDir(NfsMountsDirectory), RunMountCmd(s.driverName, s.name, dir, MountOptions),
                   RunUmount(dir), RemoveDir(dir)]
  {
  }

  /** An extra user of a volume in use shares its directory: Mount then
      Unmount restores the state and touches nothing outside. */
  lemma SharedMountRoundTrip(s: VolumeState, tempDir: TempDirOutcome, mountCmd: Status, umountCmd: Status, removeDir: Status)
    requires s.usedCount >= 1
    ensures var m := MountStep(s, tempDir, mountCmd);
            var u := UnmountStep(m.state, umountCmd, removeDir);
            m.path == s.hostDirectory && m.status == Nil
            && u.state == s && u.status == Nil && m.effects + u.effects == []
  {
  }

  /** A first Mount that fails still counts its user, so the Unmount the
      caller makes afterwards balances it. */
  lemma FailedFirstMountStillCountsUser(s: VolumeState, tempDir: TempDirOutcome, mountCmd: Status)
    requires s.usedCount == 0
    requires tempDir.TempDirFailed? || mountCmd.Failed?
    ensures var m := MountStep(s, tempDir, mountCmd);
            m.status.Failed? && m.path == "" && m.state.usedCount == 1
            && UnmountStep(m.state, Nil, Nil).state.usedCount == 0
  {
  }

  /** After a first Mount whose temporary directory could not be created, a
      second Mount succeeds with the empty path and attempts nothing. */
  lemma MountAfterFailedTempDirReturnsEmptyPath(s: VolumeState, e: IoError, mountCmd: Status, tempDir2: TempDirOutcome, mountCmd2: Status)
    requires s.usedCount == 0 && s.hostDirectory == ""
    ensures var first := MountStep(s, TempDirFailed(e), mountCmd);
            var second := MountStep(first.state, tempDir2, mountCmd2);
            first.status == Failed(e)
            && second.status == Nil && second.path == "" && second.effects == []
  {
  }

  /** Unmounting an unused volume is reported, drives the counter to -1 and
      runs umount on the empty path; a following successful Mount then leaves
      a mounted directory with a counter of 0, so the bookkeeping is no longer
      coherent. */
  lemma OverReleaseBreaksCoherence(s: VolumeState, umountCmd: Status, removeDir: Status, suffix: string)
    requires s.usedCount == 0 && s.hostDirectory == ""
    ensures var u := UnmountStep(s, umountCmd, removeDir);
            var m := MountStep(u.state, TempDirCreated(suffix), Nil);
            u.state.usedCount == -1 && ReportOverRelease(s.name) in u.effects && RunUmount("") in u.effects
            && m.status == Nil && m.state.usedCount == 0 && m.state.hostDirectory == TempDirPath(suffix)
            && !Coherent(m.state)
  {
  }
}
