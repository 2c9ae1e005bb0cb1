/** The script's external world: the commands it hands to the shell, the files
    it reads and writes, and how a sequence of its effects changes those files. */
module Effects {

  /** The commands main.py runs through execute_command. The trace records which
      command was issued; CommandLine gives the exact text passed to the shell. */
  datatype Command =
    | BackupGrub                 // copy the GRUB defaults to a sibling .bak file
    | MkconfigBios               // regenerate the BIOS GRUB configuration
    | MkconfigUefi               // regenerate the UEFI GRUB configuration
    | DaemonReload               // make systemd re-read its unit files
    | EnableUnit                 // enable the GPU-disabling unit
    | RemoveIntelGpu             // detach the integrated GPU from the PCI bus
    | RescanPci                  // re-enumerate the PCI bus
    | SetProfile(mode: string)   // select an OS power profile
    | PersistenceOn              // NVIDIA persistence mode on
    | AutoBoostDefault(on: bool) // NVIDIA default auto-boost off or on
    | PerfModesOn                // NVIDIA GPUPerfModes=1

  /** The two files the script touches. */
  datatype Path = GrubDefaults | ServiceUnit

  function PathName(p: Path): string
  {
    match p
    case GrubDefaults => "/etc/default/grub"
    case ServiceUnit => "/etc/systemd/system/disable-intel-gpu.service"
  }

  function CommandLine(c: Command): string
  {
    match c
    case BackupGrub => "cp " + PathName(GrubDefaults) + " " + PathName(GrubDefaults) + ".bak"
    case MkconfigBios => "grub2-mkconfig -o /boot/grub2/grub.cfg"
    case MkconfigUefi => "grub2-mkconfig -o /boot/efi/EFI/fedora/grub.cfg"
    case DaemonReload => "systemctl daemon-reload"
    case EnableUnit => "systemctl enable disable-intel-gpu.service"
    case RemoveIntelGpu => "echo 1 > /sys/bus/pci/devices/0000:00:02.0/remove"
    case RescanPci => "echo 1 > /sys/bus/pci/rescan"
    case SetProfile(mode) => "powerprofilesctl set " + mode
    case PersistenceOn => "nvidia-smi --persistence-mode=1"
    case AutoBoostDefault(on) => "nvidia-smi --auto-boost-default=" + (if on then "1" else "0")
    case PerfModesOn => "nvidia-settings -a [gpu:0]/GPUPerfModes=1"
  }

  /** The files' contents; a missing key is a file that does not exist. */
  type FileSystem = map<Path, string>

  /** One externally visible step of the script. */
  datatype Effect =
    | Shell(command: Command)           // execute_command(CommandLine(command))
    | Append(path: Path, text: string)  // open(path, 'a').write(text)
    | Write(path: Path, text: string)   // open(path, 'w').write(text)

  /** Contents of `path`, with a missing file read as empty (how mode 'a' starts). */
  function ContentOr(fs: FileSystem, path: Path): string
  {
    if path in fs then fs[path] else ""
  }

  /** The effect of one step on the files. Shell commands are opaque and are not
      taken to touch either file. */
  function Apply(fs: FileSystem, e: Effect): FileSystem
  {
    match e
    case Shell(_) => fs
    case Append(p, t) => fs[p := ContentOr(fs, p) + t]
    case Write(p, t) => fs[p := t]
  }

  /** The files after the steps `effects`, taken in order. */
  function Replay(fs: FileSystem, effects: seq<Effect>): FileSystem
    decreases |effects|
  {
    if effects == [] then fs
    else Apply(Replay(fs, effects[..|effects| - 1]), effects[|effects| - 1])
  }

  lemma ReplaySnoc(fs: FileSystem, effects: seq<Effect>, e: Effect)
    ensures Replay(fs, effects + [e]) == Apply(Replay(fs, effects), e)
  {
  }

  /** Replaying two traces one after the other is replaying their concatenation. */
  lemma {:induction false} ReplayConcat(fs: FileSystem, a: seq<Effect>, b: seq<Effect>)
    ensures Replay(fs, a + b) == Replay(Replay(fs, a), b)
    decreases |b|
  {
    if b == [] {
      assert a + b == a;
    } else {
      var front := b[..|b| - 1];
      ReplayConcat(fs, a, front);
      assert (a + b)[..|a + b| - 1] == a + front;
    }
  }

  /** A trace of shell commands only leaves the files as they were. */
  lemma {:induction false} ReplayShellOnly(fs: FileSystem, effects: seq<Effect>)
    requires forall e :: e in effects ==> e.Shell?
    ensures Replay(fs, effects) == fs
    decreases |effects|
  {
    if effects != [] {
      var front := effects[..|effects| - 1];
      assert forall e :: e in front ==> e in effects;
      ReplayShellOnly(fs, front);
    }
  }
}
