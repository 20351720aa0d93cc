# NFS volume driver: reference-counted mount lifecycle

This project models the NFS volume driver of Docker (`volume/nfs/nfs.go`)
in Dafny and proves properties of the model.

The driver (`Root`) creates volumes. Each `Volume` tracks two things:

- `usedCount`: how many container mounts use the volume;
- `hostDirectory`: the host directory the NFS share is mounted on.

`Mount` counts a new user. Only the call that leaves the counter at 1 or
less creates a fresh temporary directory under `/var/lib/docker/nfs_mounts`,
records it and runs the mount command with `-o retry=0,timeo=30`. Later
users get the recorded directory back. `Unmount` releases a user. Once no
user is left, it runs `umount` on the directory, removes the directory and
forgets it. `release` decrements the counter even when it is already 0; in
that case it only reports the over-release.

The model has two modules:

- `NfsModel` (nfs_model.dfy) holds the state of a volume as a value
  (`VolumeState`) and one step function per operation (`MountStep`,
  `ReleaseStep`, `UnmountStep`, `EnsureNfsDirectoryExists`). Their contracts
  state, path by path, which fields change, what is returned and which
  external actions are attempted, in order. It also holds lemmas about
  whole sequences of calls (`Run` over `Call`s).
- `NfsVolumeDriver` (nfs_driver.dfy) holds the classes `Root` and `Volume`.
  `Volume`'s fields are updated in place, step by step, as in the source. Each
  method is proved to produce exactly the new state, results and effects of
  the matching step function, so the lemmas of `NfsModel` apply to it.

The external actions are not performed. These are temporary-directory
creation, the mount command, `umount`, directory removal, and the stat and
mkdir of the mounts directory. Each one is a method or function input giving
its outcome: success (with the generated directory name for the temporary
directory) or an error. Each action a volume's operations attempt is
appended, with its arguments, to a ghost trace `effects` of the volume. The
stat and mkdir of the mounts directory happen in `Root.Create`, before the
volume exists; `Create` returns them as a ghost result `rootEffects`.

## Model

| member | source | states |
|---|---|---|
| `NfsModel.TempDirPath` | volume/nfs/nfs.go:99 | a created temporary directory's path starts with the mounts directory followed by "/", and the generated name can be read back from it |
| `NfsModel.EnsureNfsDirectoryExists` | volume/nfs/nfs.go:33-42 | nil exactly when the stat finds the directory, or finds it absent and mkdir succeeds; a stat error other than absence is returned; the attempted actions are exactly the stat, followed by mkdir with mode 0755 when the directory is absent |
| `NfsModel.MountStep` | volume/nfs/nfs.go:87-111 | the counter goes up by one on every path, failures included; name and driver never change; with an existing user: the recorded directory, nil and no external action; else a temp-dir failure returns "" and its error with the directory untouched; else the new directory is recorded, the mount command runs on it with the driver, volume name and options, the directory stays recorded if the mount fails, and success returns it |
| `NfsModel.ReleaseStep` | volume/nfs/nfs.go:140-148 | the counter goes down by one even from 0; nothing else changes; the result is always nil; an over-release is reported exactly when the counter was 0 |
| `NfsModel.UnmountStep` | volume/nfs/nfs.go:113-138 | the counter goes down by one; while users remain: nil, no umount, directory kept; for the last user umount is always run on the recorded directory; a failed umount returns its error and keeps the directory, and the attempted actions are exactly release's report (if any) and the umount; a successful umount is followed by removal, the directory is forgotten even if removal fails, and the removal's result is returned |
| `NfsModel.UsedCountIsMountsMinusUnmounts` | volume/nfs/nfs.go:91-147 | after any sequence of calls and any outcomes, the counter has moved by exactly the number of Mounts minus the number of Unmounts; name and driver are unchanged |
| `NfsModel.HostDirectoryStaysInMountsDirectory` | volume/nfs/nfs.go:99-136 | whatever the outcomes, a recorded directory is "" or a path starting with the mounts directory followed by "/" |
| `NfsModel.ApplyKeepsCoherent` | volume/nfs/nfs.go:94-136 | one call whose temp-dir creation or umount succeeds, and which is not an over-release, keeps the counter non-negative and a directory recorded exactly while there are users |
| `NfsModel.CoherentRunStaysCoherent` | volume/nfs/nfs.go:94-136 | the same over a whole sequence of calls that never over-releases; the mount command and the directory removal may fail |
| `NfsModel.BalancedRunReturnsToUnused` | volume/nfs/nfs.go:87-148 | a balanced sequence of Mounts and Unmounts that never over-releases, with its temp dirs and umounts succeeding, brings an unused volume back to usedCount 0 and hostDirectory "" |
| `NfsModel.FirstMountLastUnmountRoundTrip` | volume/nfs/nfs.go:99-137 | a successful first Mount and then Unmount: the returned path is the new directory; it is created, mounted, unmounted and removed in that order; the volume is unused again |
| `NfsModel.SharedMountRoundTrip` | volume/nfs/nfs.go:95-124 | on a volume in use, Mount then Unmount returns the existing directory, restores the state and attempts no external action |
| `NfsModel.FailedFirstMountStillCountsUser` | volume/nfs/nfs.go:91-109 | a first Mount failing at the temp dir or at the mount command returns "" and an error but leaves the counter at 1, which the following Unmount brings back to 0 |
| `NfsModel.MountAfterFailedTempDirReturnsEmptyPath` | volume/nfs/nfs.go:95-102 | after a first Mount whose temp dir failed, a second Mount returns the empty path with a nil error and attempts nothing |
| `NfsModel.OverReleaseBreaksCoherence` | volume/nfs/nfs.go:95-148 | Unmount on an unused volume is reported, sets the counter to -1 and runs umount on ""; a successful Mount after it mounts a directory while the counter is 0 |
| `NfsVolumeDriver.Root.Name` | volume/nfs/nfs.go:28-30 | the driver's name is always "nfs" |
| `NfsVolumeDriver.Root.Create` | volume/nfs/nfs.go:44-53 | first makes sure the mounts directory exists (its attempted stat and mkdir are returned as `rootEffects`, exactly as EnsureNfsDirectoryExists lists them); whatever that reported, always a nil error and a fresh volume with the requested name, driver "nfs", counter 0 and no directory |
| `NfsVolumeDriver.Root.Remove` | volume/nfs/nfs.go:55-58 | always a nil error |
| `NfsVolumeDriver.Volume.constructor` | volume/nfs/nfs.go:49-52 | a volume starts with the given name and driver, counter 0 and no directory |
| `NfsVolumeDriver.Volume.Name` | volume/nfs/nfs.go:73-75 | the name given at creation |
| `NfsVolumeDriver.Volume.DriverName` | volume/nfs/nfs.go:77-79 | the driver name given at creation |
| `NfsVolumeDriver.Volume.Path` | volume/nfs/nfs.go:81-85 | the recorded host directory, "" when none |
| `NfsVolumeDriver.Volume.Mount` | volume/nfs/nfs.go:87-111 | updates the fields in place to exactly MountStep's new state, returns its path and error, and appends its effects to the trace |
| `NfsVolumeDriver.Volume.Unmount` | volume/nfs/nfs.go:113-138 | updates the fields in place to exactly UnmountStep's new state, returns its error, and appends its effects (including release's) to the trace |
| `NfsVolumeDriver.Volume.Release` | volume/nfs/nfs.go:140-148 | decrements the counter in place as ReleaseStep says, returns nil, and records the over-release report |

## Left out

- The mutexes of `Root` and `Volume` only serialise calls. The operations are modelled as sequential methods, and concurrent interleavings are not modelled.
- Temporary-directory creation, the mount command, `umount`, `os.Remove`, `os.Stat` and `os.MkdirAll` are I/O. Each is represented by its outcome, passed in as an input. What they do to the filesystem is not modelled, so nothing here says the share is actually mounted.
- The generated temporary-directory name is an input. Its randomness and its uniqueness are not modelled.
- Logging and the messages written to stderr are left out. The over-release report of `release` is kept only as a ghost `ReportOverRelease` effect carrying the volume name; the message text is not modelled.
- `New` only allocates a `Root`, which has no state besides its mutex. It is the `Root` constructor, with no contract.
- `usedCount` is a Go `int` (64 bits), whose `++` and `--` wrap around at the ends of its range. The model uses an unbounded integer, so that wrap-around is not modelled; reaching it would take about 2^63 unbalanced calls.
- The generated temporary-directory name is not constrained (Go always generates a non-empty numeric name). So the model only proves that a recorded directory starts with the mounts directory followed by "/", not that it is a proper child of it.
- The options map passed to `Create` is ignored by the source and is not a parameter here.
