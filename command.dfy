/**
 * `ISOBuilderLogic.create_livemedia_command`: the argument vector for
 * `livemedia-creator`, built in a fixed order from the build record. The
 * temporary kickstart file it may write is returned as a value, and the
 * fresh name the operating system picks for it is a parameter.
 */
module CommandBuilder {
  import opened Wrappers
  import opened Models
  import PyText

  const Executable: string := "livemedia-creator"

  /** The RAM size, in MB, used when the options carry no `memory` key. */
  const DefaultMemory: int := 2048

  /** A file the command builder wrote: its name and what it holds. */
  datatype TempFile = TempFile(name: string, content: string)

  /**
   * The only error the command builder lets escape: with no kickstart path,
   * writing a missing kickstart content (`None`) to the temporary file raises.
   */
  datatype CommandError = KickstartContentMissing

  /** `if options.get(key):`. */
  predicate OptionOn(options: map<string, Json>, key: string) {
    key in options && Truthy(options[key])
  }

  /** `str(options.get('memory', 2048))`. */
  function MemoryArg(options: map<string, Json>): string {
    JsonToString(if "memory" in options then options["memory"] else JInt(DefaultMemory))
  }

  /** The optional boot flags, each present only when its option is on, in this order. */
  function BootFlags(options: map<string, Json>): seq<string> {
    (if OptionOn(options, "iso_only") then ["--iso-only"] else [])
    + (if OptionOn(options, "no_virt") then ["--no-virt"] else [])
    + (if OptionOn(options, "nomacboot") then ["--nomacboot"] else [])
  }

  /**
   * The argument vector, in the order the builder assembles it: executable
   * and `--make-iso`, the kickstart, the boot flags, volume id and release,
   * the result directory when one is assigned, and the RAM size last.
   */
  function Argv(ks: string, options: map<string, Json>, volid: string, releaseVersion: string,
                resultDir: string): seq<string>
  {
    [Executable, "--make-iso", "--ks", ks] + ArgvTail(options, volid, releaseVersion, resultDir)
  }

  /** The arguments after the kickstart pair. */
  function ArgvTail(options: map<string, Json>, volid: string, releaseVersion: string,
                    resultDir: string): seq<string>
  {
    BootFlags(options)
    + ["--volid", volid]
    + ["--releasever", releaseVersion]
    + (if resultDir != "" then ["--resultdir", resultDir] else [])
    + ["--ram", MemoryArg(options)]
  }

  /** The vector always begins `livemedia-creator --make-iso --ks <ks>`. */
  lemma ArgvStartsWithKickstart(ks: string, options: map<string, Json>, volid: string,
                                releaseVersion: string, resultDir: string)
    ensures |Argv(ks, options, volid, releaseVersion, resultDir)| >= 10
    ensures Argv(ks, options, volid, releaseVersion, resultDir)[..4] == [Executable, "--make-iso", "--ks", ks]
  {
  }

  /** The vector always ends with `--ram` and the memory option. */
  lemma ArgvEndsWithRam(ks: string, options: map<string, Json>, volid: string,
                        releaseVersion: string, resultDir: string)
    ensures var argv := Argv(ks, options, volid, releaseVersion, resultDir);
            |argv| >= 2 && argv[|argv| - 2..] == ["--ram", MemoryArg(options)]
  {
    var tail := ArgvTail(options, volid, releaseVersion, resultDir);
    var argv := Argv(ks, options, volid, releaseVersion, resultDir);
    assert tail[|tail| - 2..] == ["--ram", MemoryArg(options)];
    assert argv[|argv| - 2..] == tail[|tail| - 2..];
  }

  /** Without a `memory` option the RAM size is 2048. */
  lemma DefaultRam(options: map<string, Json>)
    requires "memory" !in options
    ensures MemoryArg(options) == "2048"
  {
    assert PyText.NatToString(2) == "2";
    assert PyText.NatToString(20) == "20";
    assert PyText.NatToString(204) == "204";
  }

  /** None of the builder's own flags other than the kickstart flag is `--ks`. */
  lemma OtherFlagsAreNotKickstart(options: map<string, Json>)
    ensures "--ks" !in BootFlags(options)
    ensures Executable != "--ks" && "--make-iso" != "--ks" && "--volid" != "--ks"
    ensures "--releasever" != "--ks" && "--resultdir" != "--ks" && "--ram" != "--ks"
  {
    assert Executable[0] != "--ks"[0];
    assert "--make-iso"[2] != "--ks"[2] && "--volid"[2] != "--ks"[2] && "--releasever"[2] != "--ks"[2];
    assert "--resultdir"[2] != "--ks"[2] && "--ram"[2] != "--ks"[2];
    assert "--iso-only"[2] != "--ks"[2] && "--no-virt"[2] != "--ks"[2] && "--nomacboot"[2] != "--ks"[2];
  }

  /** After the kickstart pair, nothing is `--ks` unless one of the values placed there is. */
  lemma TailHasNoKickstartFlag(options: map<string, Json>, volid: string,
                               releaseVersion: string, resultDir: string)
    requires volid != "--ks" && releaseVersion != "--ks" && resultDir != "--ks"
    requires MemoryArg(options) != "--ks"
    ensures "--ks" !in ArgvTail(options, volid, releaseVersion, resultDir)
  {
    OtherFlagsAreNotKickstart(options);
  }

  /**
   * `--ks` appears exactly once, right after `--make-iso`, as long as none
   * of the values placed in the vector is itself the text `--ks`.
   */
  lemma KickstartFlagOnce(ks: string, options: map<string, Json>, volid: string,
                          releaseVersion: string, resultDir: string)
    requires ks != "--ks" && volid != "--ks" && releaseVersion != "--ks" && resultDir != "--ks"
    requires MemoryArg(options) != "--ks"
    ensures var argv := Argv(ks, options, volid, releaseVersion, resultDir);
            && argv[2] == "--ks"
            && forall i :: 0 <= i < |argv| && i != 2 ==> argv[i] != "--ks"
  {
    OtherFlagsAreNotKickstart(options);
    TailHasNoKickstartFlag(options, volid, releaseVersion, resultDir);
    var tail := ArgvTail(options, volid, releaseVersion, resultDir);
    var argv := Argv(ks, options, volid, releaseVersion, resultDir);
    forall i | 4 <= i < |argv|
      ensures argv[i] != "--ks"
    {
      assert argv[i] == tail[i - 4];
    }
  }

  /**
   * An ISO-only build with 4096 MB of memory and no result directory yet:
   * the vector carries the one boot flag, no `--resultdir`, and the memory
   * option printed as a decimal number.
   */
  lemma IsoOnlyCommandExample()
    ensures Argv("/tmp/ks.cfg", map["iso_only" := JBool(true), "memory" := JInt(4096)], "Oreon", "10", "")
            == ["livemedia-creator", "--make-iso", "--ks", "/tmp/ks.cfg", "--iso-only",
                "--volid", "Oreon", "--releasever", "10", "--ram", "4096"]
  {
    var options := map["iso_only" := JBool(true), "memory" := JInt(4096)];
    assert BootFlags(options) == ["--iso-only"];
    assert PyText.NatToString(4) == "4";
    assert PyText.NatToString(40) == "40";
    assert PyText.NatToString(409) == "409";
    assert MemoryArg(options) == "4096";
  }

  /** None of the builder's own flags other than the result-directory flag is `--resultdir`. */
  lemma OtherFlagsAreNotResultDir(options: map<string, Json>)
    ensures "--resultdir" !in BootFlags(options)
    ensures Executable != "--resultdir" && "--make-iso" != "--resultdir" && "--ks" != "--resultdir"
    ensures "--volid" != "--resultdir" && "--releasever" != "--resultdir" && "--ram" != "--resultdir"
  {
    assert Executable[0] != "--resultdir"[0];
    assert "--make-iso"[2] != "--resultdir"[2] && "--ks"[2] != "--resultdir"[2];
    assert "--volid"[2] != "--resultdir"[2] && "--releasever"[4] != "--resultdir"[4];
    assert "--ram"[3] != "--resultdir"[3];
  }

  /**
   * `--resultdir` is in the vector exactly when a result directory is
   * assigned (as long as no other value placed in it is that text).
   */
  lemma ResultDirFlagIff(ks: string, options: map<string, Json>, volid: string,
                         releaseVersion: string, resultDir: string)
    requires ks != "--resultdir" && volid != "--resultdir" && releaseVersion != "--resultdir"
    requires MemoryArg(options) != "--resultdir"
    ensures "--resultdir" in Argv(ks, options, volid, releaseVersion, resultDir) <==> resultDir != ""
  {
    OtherFlagsAreNotResultDir(options);
  }

  /** The boot flags, appended in order, each only when its option is on. */
  method AppendBootFlags(cmd: seq<string>, options: map<string, Json>) returns (r: seq<string>)
    ensures r == cmd + BootFlags(options)
  {
    r := cmd;
    ghost var flags: seq<string> := [];
    if OptionOn(options, "iso_only") {
      r, flags := r + ["--iso-only"], flags + ["--iso-only"];
    }
    assert r == cmd + flags;
    if OptionOn(options, "no_virt") {
      r, flags := r + ["--no-virt"], flags + ["--no-virt"];
    }
    assert r == cmd + flags;
    if OptionOn(options, "nomacboot") {
      r, flags := r + ["--nomacboot"], flags + ["--nomacboot"];
    }
    assert r == cmd + flags;
    assert flags == BootFlags(options);
  }

  /**
   * The part of `create_livemedia_command` after the kickstart pair: boot
   * flags, volume id and release, result directory when assigned, RAM size.
   */
  method AppendArgvTail(cmd: seq<string>, options: map<string, Json>, volid: string,
                        releaseVersion: string, resultDir: string) returns (r: seq<string>)
    ensures r == cmd + ArgvTail(options, volid, releaseVersion, resultDir)
  {
    r := AppendBootFlags(cmd, options);
    ghost var tail := BootFlags(options);
    r, tail := r + ["--volid", volid], tail + ["--volid", volid];
    assert r == cmd + tail;
    r, tail := r + ["--releasever", releaseVersion], tail + ["--releasever", releaseVersion];
    assert r == cmd + tail;
    if resultDir != "" {
      r, tail := r + ["--resultdir", resultDir], tail + ["--resultdir", resultDir];
    }
    assert r == cmd + tail;
    var memory := if "memory" in options then options["memory"] else JInt(DefaultMemory);
    r, tail := r + ["--ram", JsonToString(memory)], tail + ["--ram", JsonToString(memory)];
    assert r == cmd + tail;
    assert tail == ArgvTail(options, volid, releaseVersion, resultDir);
  }

  /**
   * `create_livemedia_command`. With a kickstart path the vector refers to
   * it and nothing is written; without one, the kickstart content is
   * written to a fresh temporary file named `tempName`, which the vector
   * refers to instead. A missing content then makes the write raise, after
   * the (empty) file was created.
   */
  method CreateLivemediaCommand(b: ISOBuild, tempName: string)
    returns (result: Result<seq<string>, CommandError>, written: Option<TempFile>)
    ensures b.kickstartPath != "" ==> written == None
    ensures b.kickstartPath == "" ==> written == Some(TempFile(tempName, b.kickstartContent.GetOr("")))
    ensures result.Failure? <==> b.kickstartPath == "" && b.kickstartContent.None?
    ensures result.Success? ==>
              var ks := if b.kickstartPath != "" then b.kickstartPath else tempName;
              result.value == Argv(ks, b.buildOptions, b.volid, b.releaseVersion, b.resultDir)
  {
    var cmd := [Executable];
    cmd := cmd + ["--make-iso"];
    written := None;
    var ks;
    if b.kickstartPath != "" {
      ks := b.kickstartPath;
    } else {
      if b.kickstartContent.None? {
        written := Some(TempFile(tempName, ""));
        return Failure(KickstartContentMissing), written;
      }
      written := Some(TempFile(tempName, b.kickstartContent.value));
      ks := tempName;
    }
    cmd := cmd + ["--ks", ks];
    assert cmd == [Executable, "--make-iso", "--ks", ks];
    cmd := AppendArgvTail(cmd, b.buildOptions, b.volid, b.releaseVersion, b.resultDir);
    return Success(cmd), written;
  }
}
