/** What one invocation of main.py does, as a pure function of its argument
    vector and the files it reads: the ordered effects it issues and its exit
    status. The class in control.dfy performs the same steps one by one; this
    module is its specification and holds the properties of whole runs. */
module Planner {
  import opened Text
  import opened Effects

  /** The kernel command line appended to the GRUB defaults on first run, written
      as one string in main.py; here it is split around its first marker. */
  const GrubCmdline := CmdlineHead + Marker + CmdlineTail
  const CmdlineHead := "\nGRUB_CMDLINE_LINUX=\"rd.driver.blacklist="
  const CmdlineTail := " modprobe.blacklist=i915 nvidia-drm.modeset=1\"\n"
  /** The token whose presence in the GRUB defaults marks setup as done. */
  const Marker := "i915"

  /** The unit file that removes the integrated GPU at boot. */
  const ServiceContent :=
    "\n[Unit]\nDescription=Disable Intel GPU\n\n[Service]\nType=oneshot\n"
    + "ExecStart=/usr/bin/bash -c 'echo 1 > /sys/bus/pci/devices/0000:00:02.0/remove'\n\n"
    + "[Install]\nWantedBy=multi-user.target\n"

  /** The power modes set_power_mode accepts. */
  const Modes := ["eco", "balanced", "performance"]

  /** The outcome of one invocation. */
  datatype Run = Run(effects: seq<Effect>, exitCode: int)

  /** is_first_run: the GRUB defaults file is missing or does not mention the marker. */
  predicate IsFirstRun(fs: FileSystem)
  {
    GrubDefaults !in fs || !Contains(fs[GrubDefaults], Marker)
  }

  /** update_grub: back up, append the command line, regenerate for BIOS and UEFI. */
  function UpdateGrubEffects(): seq<Effect>
  {
    [Shell(BackupGrub), Append(GrubDefaults, GrubCmdline), Shell(MkconfigBios), Shell(MkconfigUefi)]
  }

  /** create_systemd_service: write the unit, reload systemd, enable the unit. */
  function ServiceEffects(): seq<Effect>
  {
    [Write(ServiceUnit, ServiceContent), Shell(DaemonReload), Shell(EnableUnit)]
  }

  /** The one-time setup main() runs on first run. */
  function SetupEffects(): seq<Effect>
  {
    UpdateGrubEffects() + ServiceEffects()
  }

  /** set_power_mode(mode): the commands it issues. Every call of execute_command
      completes, so no exception handler cuts the list short. */
  function PowerModeEffects(mode: string): (r: seq<Effect>)
    ensures mode !in Modes <==> r == []
    ensures mode in Modes ==>
      && |r| == (if mode == "performance" then 4 else 3)
      && r[0] == Shell(SetProfile(mode))
      && r[1] == Shell(PersistenceOn)
      && r[2] == Shell(AutoBoostDefault(mode != "eco"))
    ensures |r| == 4 <==> mode == "performance"
    ensures mode == "performance" ==> r[3] == Shell(PerfModesOn)
    ensures forall e :: e in r ==> e.Shell?
  {
    if mode !in Modes then []
    else if mode == "eco" then
      [Shell(SetProfile(mode)), Shell(PersistenceOn), Shell(AutoBoostDefault(false))]
    else if mode == "balanced" then
      [Shell(SetProfile(mode)), Shell(PersistenceOn), Shell(AutoBoostDefault(true))]
    else
      [Shell(SetProfile(mode)), Shell(PersistenceOn), Shell(AutoBoostDefault(true)), Shell(PerfModesOn)]
  }

  /** The lower-cased words main() dispatches on; everything else is rejected. */
  predicate IsKnownAction(action: string)
  {
    action == "disable" || action == "enable" || action in Modes
  }

  /** The effects of the dispatch that follows the first-run gate. */
  function ActionEffects(action: string): (r: seq<Effect>)
    ensures r == [] <==> !IsKnownAction(action)
    ensures forall e :: e in r ==> e.Shell?
  {
    if action == "disable" then [Shell(RemoveIntelGpu)]
    else if action == "enable" then [Shell(RescanPci)]
    else PowerModeEffects(action)
  }

  /** main() with the argument vector `argv`, run against the files `fs`. */
  function Plan(argv: seq<string>, fs: FileSystem): Run
  {
    if |argv| < 2 then Run([], 1)
    else
      var action := Lower(argv[1]);
      var setup := if IsFirstRun(fs) then SetupEffects() else [];
      Run(setup + ActionEffects(action), if IsKnownAction(action) then 0 else 1)
  }

  /** The files after one invocation. */
  function After(argv: seq<string>, fs: FileSystem): FileSystem
  {
    Replay(fs, Plan(argv, fs).effects)
  }

  /** The files after the one-time setup: the command line appended to whatever
      the GRUB defaults held (nothing, if the file was missing), and the unit written. */
  function SetUp(fs: FileSystem): FileSystem
  {
    fs[GrubDefaults := ContentOr(fs, GrubDefaults) + GrubCmdline][ServiceUnit := ServiceContent]
  }

  /** Successive invocations, each seeing the files the previous one left. */
  function Session(fs: FileSystem, runs: seq<seq<string>>): FileSystem
    decreases |runs|
  {
    if runs == [] then fs else Session(After(runs[0], fs), runs[1..])
  }

  // ---------------------------------------------------------------------------
  // Argument handling and exit status

  /** Without an action the run fails with status 1 before looking at any file:
      no effect, and the same outcome whatever the files hold. */
  lemma UsageErrorTouchesNothing(argv: seq<string>, fs: FileSystem, other: FileSystem)
    requires |argv| < 2
    ensures Plan(argv, fs) == Run([], 1)
    ensures Plan(argv, fs) == Plan(argv, other)
    ensures After(argv, fs) == fs
  {
  }

  /** The exit status is 0 exactly when an action was given and lower-cases to a
      known word, and 1 otherwise. */
  lemma ExitStatus(argv: seq<string>, fs: FileSystem)
    ensures Plan(argv, fs).exitCode == 0 <==> |argv| >= 2 && IsKnownAction(Lower(argv[1]))
    ensures Plan(argv, fs).exitCode == 0 || Plan(argv, fs).exitCode == 1
  {
  }

  /** An unknown action (such as "status") exits 1 after the setup, if this was a
      first run, and issues nothing else. */
  lemma UnknownActionRejected(argv: seq<string>, fs: FileSystem)
    requires |argv| >= 2 && !IsKnownAction(Lower(argv[1]))
    ensures Plan(argv, fs).exitCode == 1
    ensures Plan(argv, fs).effects == if IsFirstRun(fs) then SetupEffects() else []
  {
  }

  /** "status", in any letter case, is not among the words main() dispatches on. */
  lemma StatusIsUnknown(arg: string)
    requires Lower(arg) == "status"
    ensures !IsKnownAction(Lower(arg))
  {
  }

  /** The action is compared after lower-casing, so two spellings that differ only
      in letter case (ECO, Eco, eco) give the same run. */
  lemma CaseInsensitive(argv: seq<string>, argv': seq<string>, fs: FileSystem)
    requires |argv| >= 2 && |argv'| >= 2 && Lower(argv[1]) == Lower(argv'[1])
    ensures Plan(argv, fs) == Plan(argv', fs)
  {
  }

  // ---------------------------------------------------------------------------
  // First-run gate and the order of effects

  /** First run holds exactly when the GRUB file is missing or no offset of its
      content holds the marker. */
  lemma FirstRunIff(fs: FileSystem)
    ensures IsFirstRun(fs) <==>
      GrubDefaults !in fs || forall i :: !OccursAt(fs[GrubDefaults], Marker, i)
  {
    if GrubDefaults in fs {
      ContainsIffOccurs(fs[GrubDefaults], Marker);
    }
  }

  /** On a first run the whole setup comes first, in this order, and only then the
      action's own effects; otherwise only the action's effects are issued. */
  lemma SetupPrecedesAction(argv: seq<string>, fs: FileSystem)
    requires |argv| >= 2
    ensures var r := Plan(argv, fs).effects;
      if IsFirstRun(fs) then
        && |r| >= 7
        && r[..7] == [Shell(BackupGrub), Append(GrubDefaults, GrubCmdline),
                      Shell(MkconfigBios), Shell(MkconfigUefi),
                      Write(ServiceUnit, ServiceContent), Shell(DaemonReload), Shell(EnableUnit)]
        && r[7..] == ActionEffects(Lower(argv[1]))
      else r == ActionEffects(Lower(argv[1]))
  {
  }

  /** The GRUB line carries the marker. */
  lemma CmdlineHasMarker()
    ensures Contains(GrubCmdline, Marker)
  {
    var k := |CmdlineHead|;
    assert GrubCmdline[k..k + |Marker|] == Marker;
    assert OccursAt(GrubCmdline, Marker, k);
    ContainsIffOccurs(GrubCmdline, Marker);
  }

  /** Replaying the setup trace performs exactly the setup's file changes. */
  lemma ReplaySetup(fs: FileSystem)
    ensures Replay(fs, SetupEffects()) == SetUp(fs)
  {
    var backup := [Shell(BackupGrub), Append(GrubDefaults, GrubCmdline)];
    var mkconfig := [Shell(MkconfigBios), Shell(MkconfigUefi)];
    var unit := [Write(ServiceUnit, ServiceContent)];
    var reload := [Shell(DaemonReload), Shell(EnableUnit)];
    assert SetupEffects() == backup + mkconfig + (unit + reload);
    ReplayConcat(fs, backup + mkconfig, unit + reload);
    ReplayConcat(fs, backup, mkconfig);
    ReplaySnoc(fs, [Shell(BackupGrub)], Append(GrubDefaults, GrubCmdline));
    ReplaySnoc(fs, [], Shell(BackupGrub));
    assert [] + [Shell(BackupGrub)] == [Shell(BackupGrub)];
    ReplayShellOnly(Replay(fs, backup), mkconfig);
    var g := Replay(fs, backup + mkconfig);
    assert g == fs[GrubDefaults := ContentOr(fs, GrubDefaults) + GrubCmdline];
    ReplayConcat(g, unit, reload);
    ReplaySnoc(g, [], Write(ServiceUnit, ServiceContent));
    assert [] + unit == unit;
    ReplayShellOnly(Replay(g, unit), reload);
  }

  // ---------------------------------------------------------------------------
  // What a run does to the files

  /** The only file changes a run makes are the setup's: on a first run with an
      action, the GRUB file becomes its old content followed by the command line
      and the unit file is written; otherwise nothing changes. */
  lemma RunFileChanges(argv: seq<string>, fs: FileSystem)
    ensures After(argv, fs) == if |argv| >= 2 && IsFirstRun(fs) then SetUp(fs) else fs
  {
    if |argv| >= 2 {
      var action := ActionEffects(Lower(argv[1]));
      if IsFirstRun(fs) {
        ReplayConcat(fs, SetupEffects(), action);
        ReplaySetup(fs);
        ReplayShellOnly(SetUp(fs), action);
      } else {
        assert Plan(argv, fs).effects == action;
        ReplayShellOnly(fs, action);
      }
    }
  }

  /** The GRUB edit is append-only: the new content starts with the old content
      (empty if the file was missing) and ends with the command line. */
  lemma GrubEditAppendOnly(argv: seq<string>, fs: FileSystem)
    requires |argv| >= 2 && IsFirstRun(fs)
    ensures GrubDefaults in After(argv, fs)
    ensures var grub := After(argv, fs)[GrubDefaults];
      && |grub| == |ContentOr(fs, GrubDefaults)| + |GrubCmdline|
      && grub[..|ContentOr(fs, GrubDefaults)|] == ContentOr(fs, GrubDefaults)
      && grub[|ContentOr(fs, GrubDefaults)|..] == GrubCmdline
    ensures ServiceUnit in After(argv, fs) && After(argv, fs)[ServiceUnit] == ServiceContent
  {
    RunFileChanges(argv, fs);
  }

  /** After a setup run the marker is present, so the host is no longer on its first run. */
  lemma SetUpIsSettled(fs: FileSystem)
    ensures !IsFirstRun(SetUp(fs))
  {
    CmdlineHasMarker();
    ContainsAfterPrefix(ContentOr(fs, GrubDefaults), GrubCmdline, Marker);
  }

  /** A run after any run with an action issues no setup effect: its trace is the
      action's own effects only, and it leaves the files as they are. */
  lemma NoSetupOnSecondRun(argv: seq<string>, argv': seq<string>, fs: FileSystem)
    requires |argv| >= 2
    ensures !IsFirstRun(After(argv, fs))
    ensures Plan(argv', After(argv, fs)).effects ==
      if |argv'| < 2 then [] else ActionEffects(Lower(argv'[1]))
    ensures After(argv', After(argv, fs)) == After(argv, fs)
  {
    RunFileChanges(argv, fs);
    if IsFirstRun(fs) {
      SetUpIsSettled(fs);
    }
    RunFileChanges(argv', After(argv, fs));
  }

  /** Once the marker is present, any number of further runs change no file. */
  lemma {:induction false} SettledStaysSettled(fs: FileSystem, runs: seq<seq<string>>)
    requires !IsFirstRun(fs)
    ensures Session(fs, runs) == fs
    decreases |runs|
  {
    if runs != [] {
      RunFileChanges(runs[0], fs);
      SettledStaysSettled(fs, runs[1..]);
    }
  }

  /** Setup happens at most once over any sequence of runs: the files end either
      untouched or set up exactly once (a single appended command line). */
  lemma {:induction false} SetupAtMostOnce(fs: FileSystem, runs: seq<seq<string>>)
    ensures Session(fs, runs) == fs || Session(fs, runs) == SetUp(fs)
    decreases |runs|
  {
    if runs != [] {
      RunFileChanges(runs[0], fs);
      if |runs[0]| >= 2 && IsFirstRun(fs) {
        SetUpIsSettled(fs);
        SettledStaysSettled(SetUp(fs), runs[1..]);
      } else {
        SetupAtMostOnce(fs, runs[1..]);
      }
    }
  }

  // ---------------------------------------------------------------------------
  // A complete run

  /** A fresh host (no GRUB defaults file) asked for "Performance": the whole setup,
      then the four power commands, and exit status 0. */
  lemma FreshHostPerformance()
    ensures Plan(["main.py", "Performance"], map[]) == Run(
      [Shell(BackupGrub), Append(GrubDefaults, GrubCmdline), Shell(MkconfigBios),
       Shell(MkconfigUefi), Write(ServiceUnit, ServiceContent), Shell(DaemonReload),
       Shell(EnableUnit), Shell(SetProfile("performance")), Shell(PersistenceOn),
       Shell(AutoBoostDefault(true)), Shell(PerfModesOn)], 0)
  {
  }
}
