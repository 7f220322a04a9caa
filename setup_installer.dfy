// The decision logic of the SDK's host installer, asdk-gen2/setup/setup.py:
// how a download is retried, how an archive's format is chosen from its name
// and where its contents land, how already-installed tools are recognised,
// and how the environment variables are made persistent.
//
// The network, the archive libraries, the file system and the shell are
// outside the model: the outcome of each download attempt, the member names
// of an archive, the environment and the set of existing files are inputs,
// and the two files the installer writes (~/.asdk_environment and the
// shell's rc file) are fields of the installer object. A path is a sequence
// of components; joining paths appends components.

module SetupInstaller {
  import opened Common

  // ---------------------------------------------------------------------------
  // Strings
  // ---------------------------------------------------------------------------

  predicate EndsWith(s: string, suffix: string)
  {
    |suffix| <= |s| && s[|s| - |suffix|..] == suffix
  }

  /** Python's `t in s` on strings: t occurs in s as a contiguous substring. */
  predicate Contains(s: string, t: string)
    decreases |s|
  {
    (|t| <= |s| && s[..|t|] == t) || (|s| > 0 && Contains(s[1..], t))
  }

  lemma {:induction false} ContainsAppend(s: string, b: string, t: string)
    requires Contains(s, t)
    ensures Contains(s + b, t)
    decreases |s|
  {
    if |t| <= |s| && s[..|t|] == t {
      assert (s + b)[..|t|] == t;
    } else {
      assert (s + b)[1..] == s[1..] + b;
      ContainsAppend(s[1..], b, t);
    }
  }

  lemma {:induction false} ContainsPrepend(p: string, s: string, t: string)
    requires Contains(s, t)
    ensures Contains(p + s, t)
    decreases |p|
  {
    if |p| == 0 {
      assert p + s == s;
    } else {
      assert (p + s)[1..] == p[1..] + s;
      ContainsPrepend(p[1..], s, t);
    }
  }

  /** t occurs in p + t + b, whatever surrounds it. */
  lemma ContainsInside(p: string, t: string, b: string)
    ensures Contains(p + t + b, t)
  {
    assert (t + b)[..|t|] == t;
    assert Contains(t + b, t);
    ContainsPrepend(p, t + b, t);
    assert p + (t + b) == p + t + b;
  }

  // ---------------------------------------------------------------------------
  // _download: the retry loop
  // ---------------------------------------------------------------------------

  /** Whether download attempt k succeeds; attempts past the given outcomes fail. */
  predicate Attempt(outcomes: seq<bool>, k: nat)
  {
    k < |outcomes| && outcomes[k]
  }

  /** The number of attempts the loop may make for a retry argument. */
  function Budget(retry: int): nat
  {
    if retry > 0 then retry else 0
  }

  /**
   * _download(url, retry): try up to retry times, stop at the first attempt
   * that succeeds, and exit with status 1 when none did. Returns the exit
   * status (None when the file was downloaded) and the number of attempts.
   */
  method Download(retry: int, outcomes: seq<bool>) returns (exitCode: Option<nat>, tries: nat)
    ensures tries <= Budget(retry)
    ensures forall k :: 0 <= k < tries - 1 ==> !Attempt(outcomes, k)
    ensures exitCode == None <==> tries > 0 && Attempt(outcomes, tries - 1)
    ensures exitCode == None <==> exists k :: 0 <= k < Budget(retry) && Attempt(outcomes, k)
    ensures exitCode != None ==> exitCode == Some(1) && tries == Budget(retry)
  {
    var left := retry;
    var ok := false;
    tries := 0;
    while left > 0
      invariant tries + Budget(left) == Budget(retry)
      invariant forall k :: 0 <= k < tries ==> !Attempt(outcomes, k)
      decreases left
    {
      ok := Attempt(outcomes, tries);
      tries := tries + 1;
      if ok {
        break;
      }
      left := left - 1;
    }
    if !ok {
      return Some(1), tries;
    }
    exitCode := None;
  }

  // ---------------------------------------------------------------------------
  // _extract: the archive format
  // ---------------------------------------------------------------------------

  datatype ArchiveKind = Zip | Tar

  /**
   * A regular-expression literal whose only special character is `.`,
   * matched against text of the same length: each `.` stands for any
   * character but a newline, every other character for itself.
   */
  predicate WildMatch(text: string, pat: string)
    requires |text| == |pat|
  {
    forall i :: 0 <= i < |pat| ==> if pat[i] == '.' then text[i] != '\n' else text[i] == pat[i]
  }

  /** One alternative `pat$` of g_zip_tar_pattern matching at the end of s. */
  predicate MatchesAtEnd(s: string, pat: string)
  {
    |pat| <= |s| && WildMatch(s[|s| - |pat|..], pat)
  }

  /**
   * re.search(g_zip_tar_pattern, name).group() as written: the leftmost
   * match of `(.zip$)|(.tar$)|(.tar.gz$)|(.tar.bz2$)`. The dots are not
   * escaped, so any character may stand where a dot is meant. At most one
   * alternative of each length can match, so the leftmost match is that of
   * the longest alternative that matches.
   */
  function ExtensionAsWritten(s: string): (r: Option<string>)
    ensures r.Some? ==> EndsWith(s, r.value) && |r.value| in {4, 7, 8}
    ensures r.Some? <==>
              MatchesAtEnd(s, ".tar.bz2") || MatchesAtEnd(s, ".tar.gz") ||
              MatchesAtEnd(s, ".zip") || MatchesAtEnd(s, ".tar")
  {
    if MatchesAtEnd(s, ".tar.bz2") then Some(s[|s| - 8..])
    else if MatchesAtEnd(s, ".tar.gz") then Some(s[|s| - 7..])
    else if MatchesAtEnd(s, ".zip") || MatchesAtEnd(s, ".tar") then Some(s[|s| - 4..])
    else None
  }

  /** _extract's choice as written: no match exits, ".zip" is a zip, anything else a tar. */
  function ArchiveKindAsWritten(name: string): (r: Option<ArchiveKind>)
    ensures r.Some? <==> ExtensionAsWritten(name).Some?
    ensures r == Some(Zip) ==> EndsWith(name, ".zip")
  {
    match ExtensionAsWritten(name)
    case None => None
    case Some(ext) => if ext == ".zip" then Some(Zip) else Some(Tar)
  }

  /**
   * A name without any archive suffix passes the check as written and is
   * opened as a tar file: in "cmake_zip" the `_` stands for the dot.
   */
  lemma UnescapedDotAcceptsNonArchive()
    ensures ArchiveKindAsWritten("cmake_zip") == Some(Tar)
    ensures !EndsWith("cmake_zip", ".zip") && !EndsWith("cmake_zip", ".tar")
    ensures !EndsWith("cmake_zip", ".tar.gz") && !EndsWith("cmake_zip", ".tar.bz2")
  {
    var s := "cmake_zip";
    assert !MatchesAtEnd(s, ".tar.bz2") by {
      assert s[1..][7] != ".tar.bz2"[7];
    }
    assert !MatchesAtEnd(s, ".tar.gz") by {
      assert s[2..][6] != ".tar.gz"[6];
    }
    assert MatchesAtEnd(s, ".zip") by {
      assert s[5..] == "_zip";
    }
    assert s[5..] != ".zip" by {
      assert s[5..][0] == '_';
    }
  }

  /**
   * Every dot of the pattern is a wildcard, the inner ones too: "cmake.tar-gz"
   * is accepted with the suffix ".tar-gz" and opened as a tar file.
   */
  lemma UnescapedInnerDotAcceptsNonArchive()
    ensures ExtensionAsWritten("cmake.tar-gz") == Some(".tar-gz")
    ensures ArchiveKindAsWritten("cmake.tar-gz") == Some(Tar)
    ensures !EndsWith("cmake.tar-gz", ".zip") && !EndsWith("cmake.tar-gz", ".tar")
    ensures !EndsWith("cmake.tar-gz", ".tar.gz") && !EndsWith("cmake.tar-gz", ".tar.bz2")
  {
    var s := "cmake.tar-gz";
    assert !MatchesAtEnd(s, ".tar.bz2") by {
      assert s[4..][7] != ".tar.bz2"[7];
    }
    assert s[5..] == ".tar-gz";
    assert MatchesAtEnd(s, ".tar.gz");
    assert s[5..][4] != ".tar.gz"[4];
    assert s[8..][3] != ".zip"[3];
    assert s[8..][3] != ".tar"[3];
  }

  /**
   * The archive format _extract is meant to choose: ".zip" names are zip
   * files, ".tar", ".tar.gz" and ".tar.bz2" names are tar files, and every
   * other name is refused.
   */
  function ArchiveKindOf(name: string): (r: Option<ArchiveKind>)
    ensures r == Some(Zip) <==> EndsWith(name, ".zip")
    ensures r == Some(Tar) <==>
              !EndsWith(name, ".zip") &&
              (EndsWith(name, ".tar") || EndsWith(name, ".tar.gz") || EndsWith(name, ".tar.bz2"))
  {
    if EndsWith(name, ".zip") then Some(Zip)
    else if EndsWith(name, ".tar") || EndsWith(name, ".tar.gz") || EndsWith(name, ".tar.bz2") then Some(Tar)
    else None
  }

  /** A name that ends in a literal suffix matches that suffix as a pattern. */
  lemma EndsWithMatches(name: string, lit: string)
    requires EndsWith(name, lit) && '\n' !in lit
    ensures MatchesAtEnd(name, lit)
  {
    var t := name[|name| - |lit|..];
    forall i | 0 <= i < |lit|
      ensures if lit[i] == '.' then t[i] != '\n' else t[i] == lit[i]
    {
      assert t[i] == lit[i];
    }
  }

  /** A ".tar.bz2" name is matched by the `.tar.bz2` alternative. */
  lemma Bz2Extension(name: string)
    requires EndsWith(name, ".tar.bz2")
    ensures ExtensionAsWritten(name) == Some(".tar.bz2") && !EndsWith(name, ".zip")
  {
    var n := |name|;
    EndsWithMatches(name, ".tar.bz2");
    assert name[n - 8..][7] == name[n - 1] == name[n - 4..][3];
  }

  /** A ".tar.gz" name is matched by the `.tar.gz` alternative only. */
  lemma GzExtension(name: string)
    requires EndsWith(name, ".tar.gz")
    ensures ExtensionAsWritten(name) == Some(".tar.gz") && !EndsWith(name, ".zip")
  {
    var n := |name|;
    EndsWithMatches(name, ".tar.gz");
    assert name[n - 7..][6] == name[n - 1] == name[n - 4..][3];
    assert !MatchesAtEnd(name, ".tar.bz2") by {
      assert n < 8 || name[n - 8..][7] == name[n - 1];
    }
  }

  /** A ".zip" or ".tar" name is matched by its own four-character alternative only. */
  lemma ShortExtension(name: string, lit: string)
    requires lit == ".zip" || lit == ".tar"
    requires EndsWith(name, lit)
    ensures ExtensionAsWritten(name) == Some(lit)
  {
    var n := |name|;
    EndsWithMatches(name, lit);
    assert name[n - 4..][3] == name[n - 1] == lit[3];
    assert !MatchesAtEnd(name, ".tar.bz2") by {
      assert n < 8 || name[n - 8..][7] == name[n - 1];
    }
    assert !MatchesAtEnd(name, ".tar.gz") by {
      assert n < 7 || name[n - 7..][6] == name[n - 1];
    }
  }

  /** On every properly named archive the code as written makes the intended choice. */
  lemma KindAsWrittenAgreesOnArchives(name: string)
    requires ArchiveKindOf(name).Some?
    ensures ArchiveKindAsWritten(name) == ArchiveKindOf(name)
  {
    if EndsWith(name, ".tar.bz2") {
      Bz2Extension(name);
    } else if EndsWith(name, ".tar.gz") {
      GzExtension(name);
    } else if EndsWith(name, ".zip") {
      ShortExtension(name, ".zip");
    } else {
      ShortExtension(name, ".tar");
    }
  }

  // ---------------------------------------------------------------------------
  // _extract: the extracted root directory
  // ---------------------------------------------------------------------------

  type Path = seq<string>

  /** The longest common leading run of components of two paths. */
  function CommonPrefix(a: Path, b: Path): (r: Path)
    ensures r <= a && r <= b
    ensures |r| == |a| || |r| == |b| || a[|r|] != b[|r|]
  {
    if |a| == 0 || |b| == 0 || a[0] != b[0] then []
    else [a[0]] + CommonPrefix(a[1..], b[1..])
  }

  /** os.path.commonpath of the archive members (defined for at least one). */
  function CommonPath(members: seq<Path>): (r: Path)
    requires |members| > 0
    ensures forall m :: m in members ==> r <= m
  {
    if |members| == 1 then members[0]
    else
      var rest := CommonPath(members[1..]);
      var r := CommonPrefix(members[0], rest);
      assert forall m :: m in members ==> r <= m by {
        forall m | m in members
          ensures r <= m
        {
          if m != members[0] {
            assert m in members[1..];
            assert r <= rest <= m;
          }
        }
      }
      r
  }

  lemma {:induction false} CommonPrefixLongest(a: Path, b: Path, p: Path)
    requires p <= a && p <= b
    ensures p <= CommonPrefix(a, b)
    decreases |p|
  {
    if |p| > 0 {
      assert a[0] == p[0] == b[0];
      assert p[1..] <= a[1..] && p[1..] <= b[1..];
      CommonPrefixLongest(a[1..], b[1..], p[1..]);
    }
  }

  /**
   * The root _extract reports is the longest path that leads every member:
   * it is a prefix of each member, and every path that is a prefix of each
   * member is a prefix of it.
   */
  lemma {:induction false} CommonPathLongest(members: seq<Path>, p: Path)
    requires |members| > 0
    requires forall m :: m in members ==> p <= m
    ensures p <= CommonPath(members)
    decreases |members|
  {
    assert members[0] in members;
    if |members| == 1 {
      assert CommonPath(members) == members[0];
    } else {
      var rest := CommonPath(members[1..]);
      assert CommonPath(members) == CommonPrefix(members[0], rest);
      assert forall m :: m in members[1..] ==> m in members;
      CommonPathLongest(members[1..], p);
      CommonPrefixLongest(members[0], rest, p);
    }
  }

  datatype Extraction = Extracted(kind: ArchiveKind, root: Path) | ExtractFailed

  /**
   * _extract(src, dest) on an archive with the given member paths, where
   * extractOk says whether the archive library read and unpacked it: a name
   * without an archive suffix, an archive without members (commonpath
   * raises) or a library error exits with status 1; otherwise the format
   * and the members' common root are returned.
   */
  function Extract(name: string, members: seq<Path>, extractOk: bool): (r: Extraction)
    ensures r.Extracted? <==> ArchiveKindOf(name).Some? && |members| > 0 && extractOk
    ensures r.Extracted? ==> Some(r.kind) == ArchiveKindOf(name)
    ensures r.Extracted? ==> forall m :: m in members ==> r.root <= m
  {
    match ArchiveKindOf(name)
    case None => ExtractFailed
    case Some(kind) => if |members| == 0 || !extractOk then ExtractFailed else Extracted(kind, CommonPath(members))
  }

  // ---------------------------------------------------------------------------
  // check_requirements: recognising installed tools
  // ---------------------------------------------------------------------------

  datatype OsType = Windows | Linux | Darwin
  /** The --platform choices. */
  datatype Platform = Arm | C2000

  /** The process environment and the files that exist. */
  datatype Host = Host(vars: map<string, string>, files: set<Path>)

  const ASDK_CMAKE_ROOT := "ASDK_CMAKE_ROOT"
  const ASDK_NINJA_ROOT := "ASDK_NINJA_ROOT"
  const ASDK_OPENOCD_ROOT := "ASDK_OPENOCD_ROOT"
  const ASDK_OPENOCD_VERSION := "ASDK_OPENOCD_VERSION"

  /** ASDK_<ARCH>_TOOLCHAIN_ROOT and ASDK_<ARCH>_TOOLCHAIN_VERSION for the platform. */
  function ToolchainRootVar(p: Platform): string
  {
    match p
    case Arm => "ASDK_ARM_TOOLCHAIN_ROOT"
    case C2000 => "ASDK_C2000_TOOLCHAIN_ROOT"
  }

  function ToolchainVersionVar(p: Platform): string
  {
    match p
    case Arm => "ASDK_ARM_TOOLCHAIN_VERSION"
    case C2000 => "ASDK_C2000_TOOLCHAIN_VERSION"
  }

  function Exe(os: OsType, base: string): string
  {
    if os == Windows then base + ".exe" else base
  }

  /** CMake is installed iff ASDK_CMAKE_ROOT is set and <root>/bin/cmake(.exe) exists. */
  function CmakeFound(os: OsType, h: Host): (r: bool)
    ensures r <==> ASDK_CMAKE_ROOT in h.vars && [h.vars[ASDK_CMAKE_ROOT], "bin", Exe(os, "cmake")] in h.files
  {
    if ASDK_CMAKE_ROOT in h.vars then [h.vars[ASDK_CMAKE_ROOT], "bin", Exe(os, "cmake")] in h.files else false
  }

  /** Ninja is installed iff ASDK_NINJA_ROOT is set and <root>/ninja(.exe) exists. */
  function NinjaFound(os: OsType, h: Host): (r: bool)
    ensures r <==> ASDK_NINJA_ROOT in h.vars && [h.vars[ASDK_NINJA_ROOT], Exe(os, "ninja")] in h.files
  {
    if ASDK_NINJA_ROOT in h.vars then [h.vars[ASDK_NINJA_ROOT], Exe(os, "ninja")] in h.files else false
  }

  /**
   * The toolchain is installed iff both of the platform's variables are set
   * and <root>/<version> exists, followed for ARM by bin/arm-none-eabi-gcc(.exe).
   */
  function ToolchainFound(os: OsType, p: Platform, h: Host): (r: bool)
    ensures r ==> ToolchainRootVar(p) in h.vars && ToolchainVersionVar(p) in h.vars
    ensures p == Arm && ToolchainRootVar(p) in h.vars && ToolchainVersionVar(p) in h.vars ==>
              (r <==> [h.vars[ToolchainRootVar(p)], h.vars[ToolchainVersionVar(p)], "bin", Exe(os, "arm-none-eabi-gcc")] in h.files)
  {
    if ToolchainRootVar(p) in h.vars && ToolchainVersionVar(p) in h.vars then
      var base := [h.vars[ToolchainRootVar(p)], h.vars[ToolchainVersionVar(p)]];
      var path := if p == Arm then base + ["bin", Exe(os, "arm-none-eabi-gcc")] else base;
      assert p == Arm ==> path == [base[0], base[1], "bin", Exe(os, "arm-none-eabi-gcc")];
      path in h.files
    else false
  }

  /**
   * The OpenOCD probe as written: when ASDK_OPENOCD_ROOT is set it joins
   * the root with the value of ASDK_OPENOCD_VERSION without checking that
   * this is set; os.path.join then raises on None and the installer stops
   * with a traceback (None here).
   */
  function OpenocdProbeAsWritten(os: OsType, h: Host): (r: Option<bool>)
    ensures r.None? <==> ASDK_OPENOCD_ROOT in h.vars && ASDK_OPENOCD_VERSION !in h.vars
  {
    if ASDK_OPENOCD_ROOT !in h.vars then Some(false)
    else if ASDK_OPENOCD_VERSION !in h.vars then None
    else Some([h.vars[ASDK_OPENOCD_ROOT], h.vars[ASDK_OPENOCD_VERSION], "bin", Exe(os, "openocd")] in h.files)
  }

  /** An environment with the OpenOCD root but no version makes the probe as written raise. */
  lemma OpenocdProbeRaisesWithoutVersion(os: OsType)
    ensures OpenocdProbeAsWritten(os, Host(map[ASDK_OPENOCD_ROOT := "/opt/openocd"], {})).None?
  {
  }

  /**
   * OpenOCD is installed iff both of its variables are set and
   * <root>/<version>/bin/openocd(.exe) exists; a missing version means not
   * installed, as for the toolchain.
   */
  function OpenocdFound(os: OsType, h: Host): (r: bool)
    ensures r <==> ASDK_OPENOCD_ROOT in h.vars && ASDK_OPENOCD_VERSION in h.vars
                   && [h.vars[ASDK_OPENOCD_ROOT], h.vars[ASDK_OPENOCD_VERSION], "bin", Exe(os, "openocd")] in h.files
  {
    if ASDK_OPENOCD_ROOT in h.vars && ASDK_OPENOCD_VERSION in h.vars then
      [h.vars[ASDK_OPENOCD_ROOT], h.vars[ASDK_OPENOCD_VERSION], "bin", Exe(os, "openocd")] in h.files
    else false
  }

  /** Wherever the probe as written answers, it answers as the corrected probe does. */
  lemma OpenocdProbeAgrees(os: OsType, h: Host)
    requires OpenocdProbeAsWritten(os, h).Some?
    ensures OpenocdProbeAsWritten(os, h) == Some(OpenocdFound(os, h))
  {
  }

  // ---------------------------------------------------------------------------
  // set_env_variables: making the variables persistent
  // ---------------------------------------------------------------------------

  /** g_bashrc_text: the lines that source ~/.asdk_environment from the shell's rc file. */
  const BASHRC_TEXT: string :=
    "\n# source asdk environment variables\nif [ -f $HOME/.asdk_environment ]; then\n    . $HOME/.asdk_environment\nfi\n"

  function ExportLine(kv: (string, string)): string
  {
    "export " + kv.0 + "=" + kv.1 + "\n"
  }

  /** The lines written to ~/.asdk_environment, one per variable, in order. */
  function ExportLines(pairs: seq<(string, string)>): string
  {
    if |pairs| == 0 then "" else ExportLine(pairs[0]) + ExportLines(pairs[1..])
  }

  /** Every variable gets its export line. */
  lemma {:induction false} ExportLinesHasEach(pairs: seq<(string, string)>, i: nat)
    requires i < |pairs|
    ensures Contains(ExportLines(pairs), ExportLine(pairs[i]))
    decreases i
  {
    if i == 0 {
      ContainsInside("", ExportLine(pairs[0]), ExportLines(pairs[1..]));
      assert "" + ExportLine(pairs[0]) + ExportLines(pairs[1..]) == ExportLines(pairs);
    } else {
      ExportLinesHasEach(pairs[1..], i - 1);
      ContainsPrepend(ExportLine(pairs[0]), ExportLines(pairs[1..]), ExportLine(pairs[i]));
    }
  }

  /** ~/.asdk_environment after a run: truncated under --force, appended to otherwise. */
  function EnvFileAfter(force: bool, before: string, pairs: seq<(string, string)>): (r: string)
    ensures force ==> r == ExportLines(pairs)
    ensures !force ==> before <= r
    ensures forall i :: 0 <= i < |pairs| ==> Contains(r, ExportLine(pairs[i]))
  {
    var r := (if force then "" else before) + ExportLines(pairs);
    forall i | 0 <= i < |pairs|
      ensures Contains(r, ExportLine(pairs[i]))
    {
      ExportLinesHasEach(pairs, i);
      ContainsPrepend(if force then "" else before, ExportLines(pairs), ExportLine(pairs[i]));
    }
    r
  }

  /**
   * The shell's rc file after a run (None when it did not exist): the
   * sourcing lines are appended unless they already occur in it.
   */
  function RcAfter(rc: Option<string>): (r: string)
    ensures Contains(r, BASHRC_TEXT)
    ensures rc.Some? ==> rc.value <= r
  {
    var buffer := if rc.Some? then rc.value else "";
    if Contains(buffer, BASHRC_TEXT) then buffer
    else
      ContainsInside(buffer, BASHRC_TEXT, "");
      assert buffer + BASHRC_TEXT + "" == buffer + BASHRC_TEXT;
      buffer + BASHRC_TEXT
  }

  /** Running the installer again leaves the rc file as it is: the lines are added once. */
  lemma RcAfterIdempotent(rc: Option<string>)
    ensures RcAfter(Some(RcAfter(rc))) == RcAfter(rc)
  {
  }

  /**
   * SETX for each variable in order on Windows: the first failure exits
   * with status 1. Returns the exit status and how many variables were set.
   */
  method Setx(pairs: seq<(string, string)>, setxOk: seq<bool>) returns (exitCode: Option<nat>, done: nat)
    ensures done <= |pairs|
    ensures forall k :: 0 <= k < done ==> Attempt(setxOk, k)
    ensures exitCode == None <==> done == |pairs|
    ensures exitCode != None ==> exitCode == Some(1) && !Attempt(setxOk, done)
  {
    done := 0;
    while done < |pairs|
      invariant done <= |pairs|
      invariant forall k :: 0 <= k < done ==> Attempt(setxOk, k)
    {
      if !Attempt(setxOk, done) {
        return Some(1), done;
      }
      done := done + 1;
    }
    exitCode := None;
  }

  // ---------------------------------------------------------------------------
  // The installer's module state
  // ---------------------------------------------------------------------------

  class Installer {
    /** g_os_type and the parsed --force and --platform arguments. */
    const os: OsType
    const force: bool
    const platform: Platform
    /** g_cmake_installed, g_ninja_installed, g_toolchain_installed, g_openocd_installed. */
    var cmakeInstalled: bool
    var ninjaInstalled: bool
    var toolchainInstalled: bool
    var openocdInstalled: bool
    /** The contents of ~/.asdk_environment (empty when absent). */
    var envFile: string
    /** The contents of ~/.bashrc on Linux or ~/.bash_profile on macOS, if it exists. */
    var rcFile: Option<string>

    /** The module globals as the script starts: no tool known to be installed. */
    constructor(os: OsType, force: bool, platform: Platform, envFile: string, rcFile: Option<string>)
      ensures this.os == os && this.force == force && this.platform == platform
      ensures !cmakeInstalled && !ninjaInstalled && !toolchainInstalled && !openocdInstalled
      ensures this.envFile == envFile && this.rcFile == rcFile
    {
      this.os := os;
      this.force := force;
      this.platform := platform;
      cmakeInstalled, ninjaInstalled, toolchainInstalled, openocdInstalled := false, false, false, false;
      this.envFile := envFile;
      this.rcFile := rcFile;
    }

    predicate AllInstalled()
      reads this
    {
      cmakeInstalled && ninjaInstalled && toolchainInstalled && openocdInstalled
    }

    /**
     * check_requirements: under --force the three downloadable tools are
     * marked not installed; otherwise each tool found on the host is marked
     * installed and the others keep their mark.
     */
    method CheckRequirements(h: Host)
      modifies this`cmakeInstalled, this`ninjaInstalled, this`toolchainInstalled, this`openocdInstalled
      ensures force ==> !cmakeInstalled && !ninjaInstalled && !toolchainInstalled && openocdInstalled == old(openocdInstalled)
      ensures force ==> !AllInstalled()
      ensures !force ==> cmakeInstalled == (old(cmakeInstalled) || CmakeFound(os, h))
      ensures !force ==> ninjaInstalled == (old(ninjaInstalled) || NinjaFound(os, h))
      ensures !force ==> toolchainInstalled == (old(toolchainInstalled) || ToolchainFound(os, platform, h))
      ensures !force ==> openocdInstalled == (old(openocdInstalled) || OpenocdFound(os, h))
    {
      if force {
        cmakeInstalled := false;
        ninjaInstalled := false;
        toolchainInstalled := false;
      } else {
        if CmakeFound(os, h) {
          cmakeInstalled := true;
        }
        if NinjaFound(os, h) {
          ninjaInstalled := true;
        }
        if ToolchainFound(os, platform, h) {
          toolchainInstalled := true;
        }
        if OpenocdFound(os, h) {
          openocdInstalled := true;
        }
      }
    }

    /**
     * set_env_variables: nothing is written when all four tools are
     * installed; on Windows each variable is set with SETX; elsewhere the
     * export lines go to ~/.asdk_environment and the rc file is made to
     * source it.
     */
    method SetEnvVariables(pairs: seq<(string, string)>, setxOk: seq<bool>) returns (exitCode: Option<nat>)
      modifies this`envFile, this`rcFile
      ensures AllInstalled() ==> exitCode == None && envFile == old(envFile) && rcFile == old(rcFile)
      ensures !AllInstalled() && os == Windows ==>
                && envFile == old(envFile) && rcFile == old(rcFile)
                && (exitCode == None <==> forall k :: 0 <= k < |pairs| ==> Attempt(setxOk, k))
      ensures !AllInstalled() && os != Windows ==>
                && exitCode == None
                && envFile == EnvFileAfter(force, old(envFile), pairs)
                && rcFile == Some(RcAfter(old(rcFile)))
    {
      exitCode := None;
      if AllInstalled() {
        return;
      }
      if os == Windows {
        var done;
        exitCode, done := Setx(pairs, setxOk);
        return;
      }
      envFile := EnvFileAfter(force, envFile, pairs);
      rcFile := Some(RcAfter(rcFile));
    }
  }
}
