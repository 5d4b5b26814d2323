/** The Miniconda installer URL that buildpacks/python.go and buildpacks/anaconda.go both
    render: the same template and the same OS / architecture / extension renaming. */
module Miniconda {
  import opened Text
  import opened Host

  datatype CondaUrlParams = CondaUrlParams(
    pyNum: nat, os: string, arch: string, version: string, extension: string)

  /** The platform part of the template data: amd64 is called x86_64, darwin MacOSX, linux
      Linux, windows Windows (with the "exe" installer); every other platform gets a shell
      installer and keeps its own names. */
  function PlatformParams(p: Platform): (r: (string, string, string))
    ensures r.1 == (if p.arch == "amd64" then "x86_64" else p.arch)
    ensures r.2 == "exe" <==> p.os == "windows"
    ensures r.2 != "exe" ==> r.2 == "sh"
    ensures p.os == "darwin" ==> r.0 == "MacOSX"
    ensures p.os == "linux" ==> r.0 == "Linux"
    ensures p.os == "windows" ==> r.0 == "Windows"
    ensures p.os !in {"darwin", "linux", "windows"} ==> r.0 == p.os
  {
    var arch := if p.arch == "amd64" then "x86_64" else p.arch;
    var opsys := if p.os == "darwin" then "MacOSX" else p.os;
    var opsys := if opsys == "linux" then "Linux" else opsys;
    var windows := opsys == "windows";
    var opsys := if windows then "Windows" else opsys;
    var extension := if windows then "exe" else "sh";
    (opsys, arch, extension)
  }

  const UrlPrefix: string := "https://repo.continuum.io/miniconda/Miniconda"

  /** `ANACONDA_URL_TEMPLATE` / `ANACONDA_DIST_MIRROR` rendered with the template data. */
  function InstallerUrl(d: CondaUrlParams): string
  {
    UrlPrefix + Decimal(d.pyNum) + "-" + d.version + "-" + d.os + "-" + d.arch + "." + d.extension
  }

  /** Installers for Python 2 and Python 3 never share a URL. */
  lemma PyNumSelectsInstaller(d2: CondaUrlParams, d3: CondaUrlParams)
    requires d2.pyNum == 2 && d3.pyNum == 3
    ensures InstallerUrl(d2) != InstallerUrl(d3)
  {
    var k := |UrlPrefix|;
    assert Decimal(2) == "2" && Decimal(3) == "3";
    assert InstallerUrl(d2)[k] == '2';
    assert InstallerUrl(d3)[k] == '3';
  }
}
