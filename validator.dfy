/**
 * `ISOBuilderLogic.validate_kickstart`: a line scanner that checks a
 * kickstart document for emptiness and for the `%end` directive, warns about
 * a missing `%packages` section, repository and authentication, and reports
 * the line count and the section directives it found.
 */
module KickstartValidator {
  import opened PyText

  /** The `{valid, errors, warnings, info}` dictionary the validator returns. */
  datatype ValidationResult = ValidationResult(
    valid: bool,
    errors: seq<string>,
    warnings: seq<string>,
    info: seq<string>)

  const EmptyError: string := "Kickstart content is empty"
  const MissingEndError: string := "Missing %end directive"
  const NoPackagesWarning: string := "No %packages section found - ISO may be very minimal"
  const NoRepoWarning: string := "No repository configuration found - build may fail"
  const NoAuthWarning: string := "No root password or user account configured"

  /** The line's directive: the first word of the stripped line, when that line begins with `%`. */
  function SectionOf(line: string): seq<string> {
    var l := Strip(line);
    if StartsWith(l, "%") then [FirstWord(l)] else []
  }

  /** `found_sections` after scanning `lines`: their directives in scan order, duplicates kept. */
  function Sections(lines: seq<string>): seq<string> {
    if lines == [] then []
    else Sections(lines[..|lines| - 1]) + SectionOf(lines[|lines| - 1])
  }

  /** `any(line.strip().startswith((p, q)) for line in lines)`. */
  predicate AnyLineStartsWith(lines: seq<string>, p: string, q: string) {
    exists i :: 0 <= i < |lines| && (StartsWith(Strip(lines[i]), p) || StartsWith(Strip(lines[i]), q))
  }

  /** The warnings, in the order they are added, given which of the three checks passed. */
  function WarningList(hasPackages: bool, hasRepo: bool, hasAuth: bool): seq<string> {
    (if hasPackages then [] else [NoPackagesWarning])
    + (if hasRepo then [] else [NoRepoWarning])
    + (if hasAuth then [] else [NoAuthWarning])
  }

  /** The warnings of a non-empty kickstart. */
  function Warnings(lines: seq<string>): seq<string> {
    WarningList("%packages" in Sections(lines),
                AnyLineStartsWith(lines, "url", "repo"),
                AnyLineStartsWith(lines, "rootpw", "user"))
  }

  /** A directive word: it begins with `%` and holds no whitespace. */
  predicate IsDirective(w: string) {
    StartsWith(w, "%") && NoSpace(w)
  }

  /** The first word of a stripped `%` line is a directive word. */
  lemma FirstWordIsDirective(l: string)
    requires StartsWith(l, "%")
    ensures IsDirective(FirstWord(l))
  {
    assert l[0] == '%';
    assert FirstWord(l)[..1] == "%";
    FirstWordNoSpace(l);
  }

  /** Every found section is a directive word, and there are no more of them than lines. */
  lemma {:induction false} SectionsShape(lines: seq<string>)
    ensures |Sections(lines)| <= |lines|
    ensures forall k :: 0 <= k < |Sections(lines)| ==> IsDirective(Sections(lines)[k])
  {
    if lines != [] {
      var init := lines[..|lines| - 1];
      SectionsShape(init);
      var l := Strip(lines[|lines| - 1]);
      if StartsWith(l, "%") {
        FirstWordIsDirective(l);
      }
      assert Sections(lines) == Sections(init) + SectionOf(lines[|lines| - 1]);
    }
  }

  /** A line whose stripped text begins with `%` contributes its first word to the found sections. */
  lemma {:induction false} SectionOfLineFound(lines: seq<string>, i: int)
    requires 0 <= i < |lines| && StartsWith(Strip(lines[i]), "%")
    ensures FirstWord(Strip(lines[i])) in Sections(lines)
  {
    if i < |lines| - 1 {
      assert lines[..|lines| - 1][i] == lines[i];
      SectionOfLineFound(lines[..|lines| - 1], i);
    }
  }

  /** Conversely, every found section comes from some line beginning with `%`: the line at `i`. */
  lemma {:induction false} FoundSectionHasLine(lines: seq<string>, s: string) returns (i: int)
    requires s in Sections(lines)
    ensures 0 <= i < |lines| && SectionOf(lines[i]) == [s]
  {
    var init := lines[..|lines| - 1];
    assert Sections(lines) == Sections(init) + SectionOf(lines[|lines| - 1]);
    if s in Sections(init) {
      i := FoundSectionHasLine(init, s);
      assert lines[i] == init[i];
    } else {
      i := |lines| - 1;
    }
  }

  /** A kickstart with no `%` line has no sections, so it lacks `%packages` and `%end` alike. */
  lemma {:induction false} NoDirectiveNoSections(lines: seq<string>)
    requires forall i :: 0 <= i < |lines| ==> !StartsWith(Strip(lines[i]), "%")
    ensures Sections(lines) == []
  {
    if lines != [] {
      var init := lines[..|lines| - 1];
      assert forall i :: 0 <= i < |init| ==> init[i] == lines[i];
      NoDirectiveNoSections(init);
    }
  }

  /**
   * A kickstart with a `%packages` line, a `url`/`repo` line and a
   * `rootpw`/`user` line draws no warning.
   */
  lemma CompleteKickstartNoWarnings(lines: seq<string>, p: int, r: int, a: int)
    requires 0 <= p < |lines| && 0 <= r < |lines| && 0 <= a < |lines|
    requires StartsWith(Strip(lines[p]), "%") && FirstWord(Strip(lines[p])) == "%packages"
    requires StartsWith(Strip(lines[r]), "url") || StartsWith(Strip(lines[r]), "repo")
    requires StartsWith(Strip(lines[a]), "rootpw") || StartsWith(Strip(lines[a]), "user")
    ensures Warnings(lines) == []
  {
    SectionOfLineFound(lines, p);
  }

  /**
   * `any(line.strip().startswith((p, q)) for line in lines)`, scanning the
   * lines in order and stopping at the first match.
   */
  method HasLineStartingWith(lines: seq<string>, p: string, q: string) returns (found: bool)
    ensures found <==> AnyLineStartsWith(lines, p, q)
  {
    var i := 0;
    while i < |lines|
      invariant 0 <= i <= |lines|
      invariant forall j :: 0 <= j < i ==> !StartsWith(Strip(lines[j]), p) && !StartsWith(Strip(lines[j]), q)
    {
      var line := Strip(lines[i]);
      if StartsWith(line, p) || StartsWith(line, q) {
        return true;
      }
      i := i + 1;
    }
    return false;
  }

  /** The scan loop of `validate_kickstart`: collect the directive of every `%` line, in order. */
  method ScanSections(lines: seq<string>) returns (found: seq<string>)
    ensures found == Sections(lines)
  {
    found := [];
    var i := 0;
    while i < |lines|
      invariant 0 <= i <= |lines|
      invariant found == Sections(lines[..i])
    {
      var line := Strip(lines[i]);
      if StartsWith(line, "%") {
        found := found + [FirstWord(line)];
      }
      assert lines[..i + 1][..i] == lines[..i];
      i := i + 1;
    }
    assert lines[..|lines|] == lines;
  }

  /**
   * The three warning checks of `validate_kickstart`, given the sections
   * its scan found: each appends its warning when its check fails.
   */
  method CollectWarnings(lines: seq<string>, found: seq<string>) returns (warnings: seq<string>)
    ensures warnings == WarningList("%packages" in found, AnyLineStartsWith(lines, "url", "repo"), AnyLineStartsWith(lines, "rootpw", "user"))
  {
    warnings := [];
    if "%packages" !in found {
      warnings := warnings + [NoPackagesWarning];
    }
    var hasUrlOrRepo := HasLineStartingWith(lines, "url", "repo");
    if !hasUrlOrRepo {
      warnings := warnings + [NoRepoWarning];
    }
    var hasAuth := HasLineStartingWith(lines, "rootpw", "user");
    if !hasAuth {
      warnings := warnings + [NoAuthWarning];
    }
  }

  /**
   * `validate_kickstart`. Content made only of whitespace is invalid with the
   * one "empty" error and nothing else. Otherwise the content is split at
   * `'\n'`; it is valid exactly when some `%` line's first word is `%end`;
   * the warnings are those of `Warnings`; and the info holds the number of
   * pieces (one more than the number of newlines) and the found sections
   * joined by ", ".
   */
  method ValidateKickstart(content: string) returns (r: ValidationResult)
    ensures AllSpace(content) ==> r == ValidationResult(false, [EmptyError], [], [])
    ensures !AllSpace(content) ==>
              var lines := Split(content, '\n');
              && r.valid == ("%end" in Sections(lines))
              && r.errors == (if r.valid then [] else [MissingEndError])
              && r.warnings == Warnings(lines)
              && r.info == ["Kickstart has " + NatToString(Count(content, '\n') + 1) + " lines",
                            "Found sections: " + Join(Sections(lines), ", ")]
  {
    StripEmptyIff(content);
    if Strip(content) == "" {
      return ValidationResult(false, [EmptyError], [], []);
    }
    var lines := Split(content, '\n');
    SplitCount(content, '\n');

    var found := ScanSections(lines);
    var valid := true;
    var errors: seq<string> := [];
    var warnings := CollectWarnings(lines, found);
    assert warnings == Warnings(lines);
    if "%end" !in found {
      errors := errors + [MissingEndError];
      valid := false;
    }
    var info := ["Kickstart has " + NatToString(|lines|) + " lines", "Found sections: " + Join(found, ", ")];
    return ValidationResult(valid, errors, warnings, info);
  }
}
