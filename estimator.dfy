/**
 * `ISOBuilderLogic.estimate_build_time`: a build-time estimate in minutes,
 * a base of 30 plus fixed amounts for desktop, development and multimedia
 * keywords in the lower-cased kickstart text and for slower architectures.
 */
module BuildTimeEstimator {
  import opened Models
  import opened PyText

  const BaseMinutes: int := 30
  const DesktopMinutes: int := 45
  const DevelopmentMinutes: int := 20
  const MultimediaMinutes: int := 15
  const SlowArchMinutes: int := 10

  /** The keywords any one of which marks a desktop environment, in the order they are tried. */
  const DesktopKeywords: seq<string> := ["gnome", "kde", "xfce", "desktop"]

  /** The architectures whose builds take longer. */
  const SlowArchitectures: seq<string> := ["aarch64", "armhfp"]

  /** `any(group in text for group in keywords)`. */
  predicate AnyKeyword(text: string, keywords: seq<string>) {
    exists k :: 0 <= k < |keywords| && Contains(text, keywords[k])
  }

  /** The estimate for a kickstart text and an architecture, term by term. */
  function Estimate(content: string, architecture: string): int {
    var text := Lower(content);
    BaseMinutes
    + (if AnyKeyword(text, DesktopKeywords) then DesktopMinutes else 0)
    + (if Contains(text, "development") then DevelopmentMinutes else 0)
    + (if Contains(text, "multimedia") then MultimediaMinutes else 0)
    + (if architecture in SlowArchitectures then SlowArchMinutes else 0)
  }

  /** The desktop check: tries each keyword in order and stops at the first that occurs. */
  method AnyKeywordIn(text: string, keywords: seq<string>) returns (found: bool)
    ensures found <==> AnyKeyword(text, keywords)
  {
    var k := 0;
    while k < |keywords|
      invariant 0 <= k <= |keywords|
      invariant forall j :: 0 <= j < k ==> !Contains(text, keywords[j])
    {
      if Contains(text, keywords[k]) {
        return true;
      }
      k := k + 1;
    }
    return false;
  }

  /**
   * `estimate_build_time`: start from 30 minutes and add each amount whose
   * check passes; a missing kickstart text counts as empty.
   */
  method EstimateBuildTime(b: ISOBuild) returns (minutes: int)
    ensures minutes == Estimate(b.kickstartContent.GetOr(""), b.architecture)
    ensures BaseMinutes <= minutes <= BaseMinutes + DesktopMinutes + DevelopmentMinutes + MultimediaMinutes + SlowArchMinutes
  {
    minutes := BaseMinutes;
    var content := b.kickstartContent.GetOr("");
    var desktop := AnyKeywordIn(Lower(content), DesktopKeywords);
    if desktop {
      minutes := minutes + DesktopMinutes;
    }
    if Contains(Lower(content), "development") {
      minutes := minutes + DevelopmentMinutes;
    }
    if Contains(Lower(content), "multimedia") {
      minutes := minutes + MultimediaMinutes;
    }
    if b.architecture in SlowArchitectures {
      minutes := minutes + SlowArchMinutes;
    }
  }

  /** The estimate is between 30 and 120 minutes, and is 30 exactly when no check passes. */
  lemma EstimateBounds(content: string, architecture: string)
    ensures 30 <= Estimate(content, architecture) <= 120
    ensures Estimate(content, architecture) == 30 <==>
              var text := Lower(content);
              && !AnyKeyword(text, DesktopKeywords) && !Contains(text, "development")
              && !Contains(text, "multimedia") && architecture != "aarch64" && architecture != "armhfp"
  {
  }

  /** A keyword found in a text is still found once more text is added on either side. */
  lemma ContainsExtended(a: string, b: string, c: string, needle: string)
    requires Contains(b, needle)
    ensures Contains(a + b + c, needle)
  {
    ContainsAppend(b, c, needle);
    ContainsPrepend(a, b + c, needle);
    assert a + b + c == a + (b + c);
  }

  /** Adding lines anywhere around a kickstart never lowers its estimate. */
  lemma EstimateMonotone(a: string, content: string, c: string, architecture: string)
    ensures Estimate(content, architecture) <= Estimate(a + content + c, architecture)
  {
    var text := Lower(content);
    var big := Lower(a + content + c);
    LowerAppend(a + content, c);
    LowerAppend(a, content);
    assert big == Lower(a) + text + Lower(c);
    if AnyKeyword(text, DesktopKeywords) {
      var k :| 0 <= k < |DesktopKeywords| && Contains(text, DesktopKeywords[k]);
      ContainsExtended(Lower(a), text, Lower(c), DesktopKeywords[k]);
    }
    if Contains(text, "development") {
      ContainsExtended(Lower(a), text, Lower(c), "development");
    }
    if Contains(text, "multimedia") {
      ContainsExtended(Lower(a), text, Lower(c), "multimedia");
    }
  }

  /** No keyword the estimate looks for holds a line break. */
  lemma KeywordsAreSingleLine()
    ensures forall k :: 0 <= k < |DesktopKeywords| ==> '\n' !in DesktopKeywords[k]
    ensures '\n' !in "development" && '\n' !in "multimedia"
  {
  }

  /** A keyword found in `x + y`, where `x` ends a line, is still found once `w` is put between them. */
  lemma ContainsInserted(x: string, w: string, y: string, needle: string)
    requires x == [] || x[|x| - 1] == '\n'
    requires '\n' !in needle
    requires Contains(x + y, needle)
    ensures Contains(x + w + y, needle)
  {
    ContainsAcrossLineBreak(x, y, needle);
    if Contains(x, needle) {
      ContainsExtended([], x, w + y, needle);
      assert [] + x + (w + y) == x + w + y;
    } else {
      ContainsExtended(x + w, y, [], needle);
      assert x + w + y + [] == x + w + y;
    }
  }

  /**
   * Inserting text at the start of a line, such as a package line inside
   * `%packages`, never lowers the estimate.
   */
  lemma InsertLineMonotone(x: string, w: string, y: string, architecture: string)
    requires x == [] || x[|x| - 1] == '\n'
    ensures Estimate(x + y, architecture) <= Estimate(x + w + y, architecture)
  {
    var lx, lw, ly := Lower(x), Lower(w), Lower(y);
    LowerAppend(x, y);
    LowerAppend(x + w, y);
    LowerAppend(x, w);
    assert Lower(x + w + y) == lx + lw + ly;
    assert lx == [] || lx[|lx| - 1] == '\n';
    KeywordsAreSingleLine();
    if AnyKeyword(lx + ly, DesktopKeywords) {
      var k :| 0 <= k < |DesktopKeywords| && Contains(lx + ly, DesktopKeywords[k]);
      ContainsInserted(lx, lw, ly, DesktopKeywords[k]);
    }
    if Contains(lx + ly, "development") {
      ContainsInserted(lx, lw, ly, "development");
    }
    if Contains(lx + ly, "multimedia") {
      ContainsInserted(lx, lw, ly, "multimedia");
    }
  }

  /** Lower-casing twice is lower-casing once. */
  lemma LowerIdempotent(s: string)
    ensures Lower(Lower(s)) == Lower(s)
  {
    assert forall i :: 0 <= i < |s| ==> LowerChar(LowerChar(s[i])) == LowerChar(s[i]);
  }

  /** The estimate ignores letter case: a kickstart and its lower-cased copy get the same estimate. */
  lemma EstimateIgnoresCase(content: string, architecture: string)
    ensures Estimate(Lower(content), architecture) == Estimate(content, architecture)
  {
    LowerIdempotent(content);
  }

  /** The slower architectures add exactly ten minutes to the same kickstart. */
  lemma SlowArchitectureAddsTen(content: string)
    ensures Estimate(content, "aarch64") == Estimate(content, "x86_64") + 10
    ensures Estimate(content, "armhfp") == Estimate(content, "x86_64") + 10
  {
    assert "x86_64" != "aarch64" && "x86_64" != "armhfp" by {
      assert "x86_64"[0] != "aarch64"[0] && "x86_64"[0] != "armhfp"[0];
    }
  }

  /** Moving the same kickstart to a slower architecture never lowers the estimate, whatever the architecture before. */
  lemma SlowArchitectureNeverLower(content: string, architecture: string, slow: string)
    requires slow in SlowArchitectures
    ensures Estimate(content, architecture) <= Estimate(content, slow)
  {
  }
}
