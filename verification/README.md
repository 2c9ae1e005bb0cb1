# Intel GPU disabler: a Dafny model of `main.py`

`main.py` is a one-shot administration script for a hybrid Intel/NVIDIA laptop.
It is run as `main.py <action>`. On its first run, which it detects by the GRUB
defaults file lacking the token `i915`, it:

- backs up `/etc/default/grub`;
- appends a `GRUB_CMDLINE_LINUX=...` line that blacklists the `i915` driver;
- regenerates the BIOS and UEFI GRUB configurations;
- installs and enables a systemd unit that removes the integrated GPU from the
  PCI bus at boot.

It then dispatches on the lower-cased action:

- `disable` removes the integrated GPU from the PCI bus;
- `enable` rescans the PCI bus;
- `eco`, `balanced` and `performance` set a power profile and NVIDIA settings.

A missing action or any other word exits with status 1.

Every external command is opaque here. A run is modelled as a plan: an ordered
trace of effects, plus an exit status, computed from the argument vector and the
files the script reads.

- `text.dfy` (module `Text`): Python's substring test `sub in s` and `str.lower()`.
- `effects.dfy` (module `Effects`): the commands the script hands to the shell,
  as a `Command` datatype. `CommandLine` gives the exact shell text of each.
  This file also holds the two files the script touches, the `Effect` datatype
  (`Shell`, `Append`, `Write`) and `Replay`, which applies a trace to the files.
- `planner.dfy` (module `Planner`): the pure specification. `IsFirstRun`, the
  setup traces, the mode-to-command table `PowerModeEffects`, the dispatcher
  `Plan`, and the lemmas about single runs and sequences of runs (`Session`).
- `control.dfy` (module `GpuControl`): class `Host`, whose methods follow the
  Python functions statement by statement. The fields `fs` (file contents) and
  `trace` (effects issued so far) are updated in place. Each method's
  postcondition ties the new trace and files to the `Planner` function for that
  step. `Host.RunMain` equals `Plan` for any exit statuses the host's commands return.

`execute_command` runs `subprocess.run(..., check=True)` and catches
`CalledProcessError` itself. It therefore never lets `CalledProcessError`
escape, and the
`except subprocess.CalledProcessError` handlers in `set_power_mode`
(main.py:85-87, 101-102) are unreachable. `Host.SetPowerMode` keeps those
branches and proves that they are never taken.

`main.py` does less than a full GPU-mode tool might. The model follows
`main.py` in each of these cases:

- The GRUB file is appended to, not rewritten.
- A failed backup is swallowed, not fatal.
- `status` is rejected as an unknown action.
- An unknown action still runs the first-run setup before exiting with status 1.
- There is no blacklist removal, no PCI address lookup and no CPU governor step.

## Model

| member | source | states |
|---|---|---|
| `Text.ContainsIffOccurs` | main.py:109 | the substring test used for the marker holds exactly when some offset of the text holds the marker |
| `Planner.FirstRunIff` | main.py:106-109 | first run holds exactly when the GRUB defaults file is missing or no offset of its content holds `i915` |
| `Planner.PowerModeEffects` | main.py:73-104 | an unknown mode issues nothing; a valid mode issues `powerprofilesctl set <mode>`, then persistence mode on, then auto-boost off for `eco` and on otherwise; `eco` and `balanced` issue exactly these three commands, and `performance` alone adds `GPUPerfModes=1` as a fourth and last; all are shell commands |
| `Planner.ActionEffects` | main.py:123-131 | the dispatch issues nothing exactly for an unknown action, and never writes a file |
| `Planner.UsageErrorTouchesNothing` | main.py:111-114 | with fewer than two arguments the run exits 1 with an empty trace, whatever the files hold, and changes no file |
| `Planner.ExitStatus` | main.py:111-131 | the exit status is 0 exactly when an action is given and lower-cases to one of the five known words, and 1 otherwise |
| `Planner.UnknownActionRejected` | main.py:118-131 | an unknown action exits 1, after the full setup trace on a first run and with no effect otherwise |
| `Planner.StatusIsUnknown` | main.py:123-131 | `status`, in any letter case, is not a dispatched action |
| `Planner.CaseInsensitive` | main.py:116 | two actions with equal lower-case forms (`ECO`, `eco`) give identical traces and exit statuses |
| `Text.LowerEqualsWord` | main.py:116 | an argument lower-cases to a word without capitals (such as the five action words) exactly when it spells that word letter by letter in either case |
| `Planner.SetupPrecedesAction` | main.py:118-128 | on a first run the trace begins with backup, append, BIOS mkconfig, UEFI mkconfig, unit write, daemon-reload, enable, and only then the action's effects; otherwise the trace is the action's effects alone |
| `Planner.CmdlineHasMarker` | main.py:29 | the appended GRUB line contains `i915` |
| `Planner.ReplaySetup` | main.py:16-57 | replaying the setup trace appends the command line to the GRUB file and writes the unit file, and changes nothing else |
| `Planner.RunFileChanges` | main.py:111-131 | a run changes the files only on a first run with an action, and then exactly by the setup; every other run leaves them as they were |
| `Planner.GrubEditAppendOnly` | main.py:27-29 | after a first run the GRUB file is its old content (empty if it was missing) as a prefix, followed by the command line, and the unit file holds the unit text |
| `Planner.SetUpIsSettled` | main.py:28-29 | after the setup the GRUB file contains the marker, so the host is no longer on its first run |
| `Planner.NoSetupOnSecondRun` | main.py:106-121 | after any run with an action, a further run issues only its action's effects and leaves the files unchanged |
| `Planner.SettledStaysSettled` | main.py:106-121 | once the marker is present, any number of further runs leave the files unchanged |
| `Planner.SetupAtMostOnce` | main.py:106-121 | over any sequence of runs the files end either untouched or set up exactly once, with one appended command line |
| `Planner.FreshHostPerformance` | main.py:111-128 | on a host without a GRUB defaults file, `Performance` issues the seven setup effects, then the four power commands, and exits 0 |
| `GpuControl.Host.ExecuteCommand` | main.py:7-14 | each call records its command and completes normally, whatever exit status the command has |
| `GpuControl.Host.AppendToFile` | main.py:28-29 | appending creates a missing file and otherwise keeps the old content as a prefix |
| `GpuControl.Host.WriteToFile` | main.py:52-53 | writing replaces the file's content |
| `GpuControl.Host.UpdateGrub` | main.py:16-33 | issues backup, append, BIOS and UEFI regeneration in that order; the GRUB file gains the command line at its end |
| `GpuControl.Host.CreateSystemdService` | main.py:35-57 | writes the unit file, then issues daemon-reload and enable |
| `GpuControl.Host.DisableIntelGpu` | main.py:59-64 | issues the PCI remove command and nothing else |
| `GpuControl.Host.EnableIntelGpu` | main.py:66-71 | issues the PCI rescan command and nothing else |
| `GpuControl.Host.SetPowerMode` | main.py:73-104 | issues exactly the mode table's commands; the exception handlers never cut the sequence short |
| `GpuControl.Host.RunMain` | main.py:111-131 | the trace, the files and the exit status are those of `Plan`, for every exit status the commands may have |

## Left out

- Process spawning, output capture and every printed message (main.py:10-14
  and each `print`). A command is a `Shell` effect. Its exit status is a
  parameter of `Host` that only decides which branch of `execute_command` runs.
- What the shell commands do: the `.bak` copy made by `cp`, the GRUB
  regeneration, systemd, sysfs, `nvidia-smi`, `nvidia-settings` and
  `powerprofilesctl`. No `Shell` effect changes a modelled file.
- Exceptions other than `CalledProcessError`. These include `OSError` when a
  command cannot be spawned, permission errors from `open`, and a missing
  directory for either file. They propagate out of `main.py` uncaught.
- `Text.Lower` lower-cases only `A`-`Z`, while Python's `str.lower()` also maps
  non-ASCII capitals. The only non-ASCII characters whose lower case contains
  an ASCII letter are U+212A (to `k`) and U+0130 (to `i` followed by U+0307),
  and neither can complete one of the five action words. So the branch taken
  and the trace are the same as Python's.
- `GpuControl.Host.ExecuteCommand`: the exit status of a command line is a fixed
  function of its text, so a command that fails only sometimes is not modelled.
  Because the trace does not depend on exit statuses, this does not restrict
  what `Host.RunMain` proves.
- The process exit performed by `sys.exit(1)` is the value `Host.RunMain`
  returns. A run that returns normally has status 0.
