/** The host platforms the compiler ships for, how the host's `os.name` and
    `os.arch` pick one, and where that platform's compiler binary lives. */
module Platforms {
  import opened Text

  datatype Platform = X86_64Linux | X86_64MacOS | Arm64MacOS | X86_64Win32

  /** The directory name of the platform's binaries. */
  function Pair(p: Platform): string {
    match p
    case X86_64Linux => "x86_64-linux"
    case X86_64MacOS => "x86_64-macos"
    case Arm64MacOS => "arm64-macos"
    case X86_64Win32 => "x86_64-win32"
  }

  /** No two platforms share a binary directory. */
  lemma PairInjective(p: Platform, q: Platform)
    ensures Pair(p) == Pair(q) ==> p == q
  {
    if Pair(p) == Pair(q) {
      assert Pair(p)[0] == Pair(q)[0] && Pair(p)[7] == Pair(q)[7];
    }
  }

  predicate NamesWindows(os: string) {
    Contains(os, "windows")
  }

  predicate NamesMac(os: string) {
    Contains(os, "mac") || Contains(os, "darwin")
  }

  predicate NamesArm64(arch: string) {
    Contains(arch, "aarch64")
  }

  /** The platform of a host whose `os.name` and `os.arch` properties read
      `osName` and `osArch`; both are lower-cased before they are inspected. */
  function HostPlatform(osName: string, osArch: string): (p: Platform)
    ensures p == X86_64Win32 <==> NamesWindows(Lower(osName))
    ensures p == Arm64MacOS <==>
      !NamesWindows(Lower(osName)) && NamesMac(Lower(osName)) && NamesArm64(Lower(osArch))
    ensures p == X86_64MacOS <==>
      !NamesWindows(Lower(osName)) && NamesMac(Lower(osName)) && !NamesArm64(Lower(osArch))
    ensures p == X86_64Linux <==> !NamesWindows(Lower(osName)) && !NamesMac(Lower(osName))
  {
    var os := Lower(osName);
    var arch := Lower(osArch);
    if NamesWindows(os) then X86_64Win32
    else if NamesMac(os) then (if NamesArm64(arch) then Arm64MacOS else X86_64MacOS)
    else X86_64Linux
  }

  /** Resolution does not depend on letter case. */
  lemma HostPlatformIgnoresCase(osName: string, osArch: string)
    ensures HostPlatform(Lower(osName), Lower(osArch)) == HostPlatform(osName, osArch)
  {
    LowerIdempotent(osName);
    LowerIdempotent(osArch);
  }

  /** An ARM platform is produced only for macOS hosts: every other host gets an
      x86_64 binary whatever its architecture. */
  lemma ArmOnlyForMac(osName: string, osArch: string, otherArch: string)
    ensures HostPlatform(osName, osArch) == Arm64MacOS ==> NamesMac(Lower(osName))
    ensures !NamesMac(Lower(osName)) || NamesWindows(Lower(osName)) ==>
      HostPlatform(osName, osArch) == HostPlatform(osName, otherArch)
  {
  }

  /** A host reporting "Windows 10" runs the Windows binary on any architecture. */
  lemma WindowsTenIsWin32(osArch: string)
    ensures HostPlatform("Windows 10", osArch) == X86_64Win32
  {
    var os := Lower("Windows 10");
    assert os[..7] == "windows";
    assert StartsWith(os[0..], "windows");
  }

  /** A 64-bit ARM Linux host still gets the x86_64 Linux binary. */
  lemma ArmLinuxIsX86(osArch: string)
    ensures HostPlatform("Linux", osArch) == X86_64Linux
  {
    var os := Lower("Linux");
    assert os == "linux";
    forall i | 0 <= i <= |os|
      ensures !StartsWith(os[i..], "windows") && !StartsWith(os[i..], "mac")
        && !StartsWith(os[i..], "darwin")
    {
      if i < |os| {
        assert os[i..][0] == os[i] && os[i] != 'w' && os[i] != 'm' && os[i] != 'd';
      }
    }
  }

  const PluginBinDir := "/plugins/bin/"
  const CompilerName := "/bin/luanext-compiler"

  /** Where the compiler binary for `p` sits under the plugin directory. */
  function BinaryPath(pluginDir: string, p: Platform): (path: string)
    ensures StartsWith(path, pluginDir + PluginBinDir + Pair(p) + CompilerName)
    ensures EndsWith(path, ".exe") <==> p == X86_64Win32
    ensures |path| == |pluginDir + PluginBinDir + Pair(p) + CompilerName| + if p == X86_64Win32 then 4 else 0
  {
    var path := pluginDir + PluginBinDir + Pair(p) + CompilerName;
    assert path[|path| - 4..] == "iler";
    if p == X86_64Win32 then
      var exe := path + ".exe";
      assert exe[..|path|] == path;
      exe
    else path
  }

  /** The binary path names its platform: two platforms never share a binary. */
  lemma BinaryPathInjective(pluginDir: string, p: Platform, q: Platform)
    ensures BinaryPath(pluginDir, p) == BinaryPath(pluginDir, q) ==> p == q
  {
    if BinaryPath(pluginDir, p) == BinaryPath(pluginDir, q) {
      var n := |pluginDir + PluginBinDir|;
      var a := BinaryPath(pluginDir, p);
      assert a[n] == Pair(p)[0] && a[n + 7] == Pair(p)[7];
      assert a[n] == Pair(q)[0] && a[n + 7] == Pair(q)[7];
    }
  }
}
