/** main.py step by step: a host whose files and command log the script's
    functions change in place. Each method is proved against the Planner
    function that specifies it. */
module GpuControl {
  import opened Text
  import opened Effects
  import opened Planner

  /** The error subprocess.run(..., check=True) raises for a nonzero exit status. */
  datatype ProcessError = CalledProcessError(returncode: int)

  /** How a call ended: normally, or by raising an exception to its caller. */
  datatype Completion = Completed | Raised(error: ProcessError)

  /** subprocess.run(command, shell=True, check=True), given the command's exit status. */
  function RunChecked(returncode: int): Completion
  {
    if returncode == 0 then Completed else Raised(CalledProcessError(returncode))
  }

  class Host {
    /** The files the script reads and writes. */
    var fs: FileSystem
    /** Every command run and every file write so far, in order. */
    var trace: seq<Effect>
    /** The exit status the host's shell gives each command line. */
    const exitStatus: string -> int

    constructor (files: FileSystem, exitStatus: string -> int)
      ensures fs == files && trace == [] && this.exitStatus == exitStatus
    {
      this.fs := files;
      this.trace := [];
      this.exitStatus := exitStatus;
    }

    /** execute_command: run the command line; a nonzero exit status raises inside
        and is caught there, so every call completes and is recorded. */
    method ExecuteCommand(command: Command) returns (c: Completion)
      modifies this`trace
      ensures trace == old(trace) + [Shell(command)]
      ensures c == Completed
    {
      trace := trace + [Shell(command)];
      c := RunChecked(exitStatus(CommandLine(command)));
      if c.Raised? {
        // except subprocess.CalledProcessError: the error is reported and swallowed
        c := Completed;
      }
    }

    /** with open(path, 'a') as file: file.write(text) -- creates a missing file. */
    method AppendToFile(path: Path, text: string)
      modifies this`fs, this`trace
      ensures trace == old(trace) + [Append(path, text)]
      ensures fs == old(fs)[path := ContentOr(old(fs), path) + text]
    {
      var previous := if path in fs then fs[path] else "";
      fs := fs[path := previous + text];
      trace := trace + [Append(path, text)];
    }

    /** with open(path, 'w') as file: file.write(text) -- replaces the file. */
    method WriteToFile(path: Path, text: string)
      modifies this`fs, this`trace
      ensures trace == old(trace) + [Write(path, text)]
      ensures fs == old(fs)[path := text]
    {
      fs := fs[path := text];
      trace := trace + [Write(path, text)];
    }

    /** update_grub: back up the defaults, append the command line, regenerate the
        BIOS and UEFI configurations. */
    method UpdateGrub()
      modifies this`fs, this`trace
      ensures trace == old(trace) + UpdateGrubEffects()
      ensures fs == old(fs)[GrubDefaults := ContentOr(old(fs), GrubDefaults) + GrubCmdline]
    {
      var done := ExecuteCommand(BackupGrub);
      AppendToFile(GrubDefaults, GrubCmdline);
      done := ExecuteCommand(MkconfigBios);
      done := ExecuteCommand(MkconfigUefi);
    }

    /** create_systemd_service: write the unit, reload systemd, enable the unit. */
    method CreateSystemdService()
      modifies this`fs, this`trace
      ensures trace == old(trace) + ServiceEffects()
      ensures fs == old(fs)[ServiceUnit := ServiceContent]
    {
      WriteToFile(ServiceUnit, ServiceContent);
      var done := ExecuteCommand(DaemonReload);
      done := ExecuteCommand(EnableUnit);
    }

    /** disable_intel_gpu: detach the integrated GPU from the PCI bus. */
    method DisableIntelGpu()
      modifies this`trace
      ensures trace == old(trace) + [Shell(RemoveIntelGpu)]
    {
      var done := ExecuteCommand(RemoveIntelGpu);
    }

    /** enable_intel_gpu: rescan the PCI bus. */
    method EnableIntelGpu()
      modifies this`trace
      ensures trace == old(trace) + [Shell(RescanPci)]
    {
      var done := ExecuteCommand(RescanPci);
    }

    /** set_power_mode: reject an unknown mode, set the power profile, then the
        NVIDIA settings of the mode. */
    method SetPowerMode(mode: string)
      modifies this`trace
      ensures trace == old(trace) + PowerModeEffects(mode)
    {
      if mode !in Modes {
        return;
      }
      var c := ExecuteCommand(SetProfile(mode));
      if c.Raised? {
        // except subprocess.CalledProcessError: execute_command never raises it
        return;
      }
      // a single try block: a raising command would skip the rest of it
      if mode == "eco" {
        c := ExecuteCommand(PersistenceOn);
        if c.Completed? {
          c := ExecuteCommand(AutoBoostDefault(false));
        }
      } else if mode == "balanced" {
        c := ExecuteCommand(PersistenceOn);
        if c.Completed? {
          c := ExecuteCommand(AutoBoostDefault(true));
        }
      } else if mode == "performance" {
        c := ExecuteCommand(PersistenceOn);
        if c.Completed? {
          c := ExecuteCommand(AutoBoostDefault(true));
        }
        if c.Completed? {
          c := ExecuteCommand(PerfModesOn);
        }
      }
    }

    /** main(): check the arguments, run the one-time setup on first run, then
        dispatch on the lower-cased action. The trace, the files and the exit
        status are those Plan gives, whatever exit statuses the commands have. */
    method RunMain(argv: seq<string>) returns (exitCode: int)
      modifies this`fs, this`trace
      ensures trace == old(trace) + Plan(argv, old(fs)).effects
      ensures fs == After(argv, old(fs))
      ensures exitCode == Plan(argv, old(fs)).exitCode
    {
      RunFileChanges(argv, fs);
      if |argv| < 2 {
        // usage message; sys.exit(1)
        return 1;
      }
      var action := Lower(argv[1]);
      ghost var before := trace;
      if IsFirstRun(fs) {
        UpdateGrub();
        CreateSystemdService();
        assert trace == before + SetupEffects();
      }
      if action == "disable" {
        DisableIntelGpu();
      } else if action == "enable" {
        EnableIntelGpu();
      } else if action in Modes {
        SetPowerMode(action);
      } else {
        // invalid action; sys.exit(1)
        return 1;
      }
      return 0;
    }
  }
}
