/**
 * The VERSION file of the generated project: the version the README reports
 * and the patch bump every successful run makes.
 */
module Version {
  import opened Wrappers
  import opened Text

  /** The version assumed when there is no VERSION file. */
  const InitialVersion: string := "0.1.0"

  /** The version written when the current one cannot be bumped. */
  const FallbackVersion: string := "0.1.1"

  /**
   * `_get_current_version`, and the first half of `_increment_version`: the
   * stripped text of the VERSION file (`None` when it does not exist).
   */
  function CurrentVersion(file: Option<string>): (v: string)
    ensures file.None? ==> v == InitialVersion
    ensures file.Some? ==> v == Trim(file.value)
    ensures v == [] || (!IsSpace(v[0]) && !IsSpace(v[|v| - 1]))
  {
    match file
    case None => InitialVersion
    case Some(text) => Trim(text)
  }

  /** A version the bump can read: at least three `.`-separated parts, the third an integer. */
  predicate WellFormed(v: string) {
    var parts := Split(v, '.');
    |parts| >= 3 && ParseInt(parts[2]).Some?
  }

  function Major(v: string): string {
    Split(v, '.')[0]
  }

  function Minor(v: string): string
    requires |Split(v, '.')| >= 2
  {
    Split(v, '.')[1]
  }

  function Patch(v: string): int
    requires WellFormed(v)
  {
    ParseInt(Split(v, '.')[2]).value
  }

  /**
   * The version `_increment_version` writes: the patch number plus one, the
   * first two parts kept as they are and any later part dropped; `0.1.1` when
   * there are fewer than three parts, the third is not an integer, or the next
   * patch number is too long for `str()`.
   */
  function Bump(v: string): (r: string)
    ensures WellFormed(r) && |Split(r, '.')| == 3
    ensures !WellFormed(v) ==> r == FallbackVersion
  {
    var parts := Split(v, '.');
    if |parts| < 3 then FallbackParts(); FallbackVersion
    else match ParseInt(parts[2])
      case None => FallbackParts(); FallbackVersion
      case Some(patch) =>
        if Printable(patch + 1) then
          SplitVersion(parts[0], parts[1], patch + 1);
          ParseIntOfInt(patch + 1);
          Join([parts[0], parts[1], IntToString(patch + 1)], '.')
        else FallbackParts(); FallbackVersion
  }

  /** A version whose bump keeps its first two parts: well-formed, and the next patch number prints. */
  predicate Bumpable(v: string) {
    WellFormed(v) && Printable(Patch(v) + 1)
  }

  /** The decimal text of an integer holds no `.`. */
  lemma IntToStringNoDot(i: int)
    ensures '.' !in IntToString(i)
  {
    var s := IntToString(i);
    if i >= 0 {
      assert s == NatToString(i);
    } else {
      assert s == "-" + NatToString(-i);
    }
    forall k | 0 <= k < |s|
      ensures s[k] != '.'
    {
    }
  }

  /** The three parts of a joined `major.minor.patch` version read back as they were. */
  lemma SplitVersion(major: string, minor: string, patch: int)
    requires '.' !in major && '.' !in minor
    ensures Split(Join([major, minor, IntToString(patch)], '.'), '.') == [major, minor, IntToString(patch)]
  {
    IntToStringNoDot(patch);
    SplitJoin([major, minor, IntToString(patch)], '.');
  }

  lemma JoinThree(a: string, b: string, c: string)
    ensures Join([a, b, c], '.') == a + "." + b + "." + c
  {
    assert [a, b, c][1..] == [b, c];
    assert [b, c][1..] == [c];
    assert Join([b, c], '.') == b + "." + c;
  }

  /** `0.1.1` reads as major `0`, minor `1`, patch 1. */
  lemma FallbackParts()
    ensures Split(FallbackVersion, '.') == ["0", "1", "1"]
    ensures WellFormed(FallbackVersion) && Patch(FallbackVersion) == 1
  {
    assert IntToString(1) == "1";
    JoinThree("0", "1", "1");
    assert FallbackVersion == Join(["0", "1", IntToString(1)], '.');
    SplitVersion("0", "1", 1);
    ParseIntOfInt(1);
  }

  /**
   * A well-formed version bumps to its first two parts and the next patch
   * number, unless that number is too long to print.
   */
  lemma BumpWellFormed(v: string)
    requires WellFormed(v)
    ensures '.' !in Major(v) && '.' !in Minor(v)
    ensures Bump(v) == if Printable(Patch(v) + 1) then Join([Major(v), Minor(v), IntToString(Patch(v) + 1)], '.') else FallbackVersion
  {
  }

  /**
   * What a bump does: a bumpable version keeps its first two parts, gains
   * one on the patch and loses any part after the third; anything else becomes
   * `0.1.1`.  Either way the result is itself well-formed, with exactly three parts.
   */
  lemma BumpIncrementsPatch(v: string)
    ensures WellFormed(Bump(v)) && |Split(Bump(v), '.')| == 3
    ensures Bumpable(v) ==>
      Major(Bump(v)) == Major(v) && Minor(Bump(v)) == Minor(v) && Patch(Bump(v)) == Patch(v) + 1
    ensures !Bumpable(v) ==> Bump(v) == FallbackVersion
  {
    if Bumpable(v) {
      var patch := Patch(v);
      BumpWellFormed(v);
      SplitVersion(Major(v), Minor(v), patch + 1);
      ParseIntOfInt(patch + 1);
    } else {
      FallbackParts();
    }
  }

  /**
   * Bumping twice adds two to the patch number of a well-formed version, as
   * long as the number two up still prints.
   */
  lemma BumpTwice(v: string)
    requires WellFormed(v)
    ensures WellFormed(Bump(Bump(v)))
    ensures Printable(Patch(v) + 2) ==>
      Major(Bump(Bump(v))) == Major(v) && Minor(Bump(Bump(v))) == Minor(v) && Patch(Bump(Bump(v))) == Patch(v) + 2
  {
    BumpIncrementsPatch(v);
    BumpIncrementsPatch(Bump(v));
    if Printable(Patch(v) + 2) {
      ParsedIsPrintable(Split(v, '.')[2]);
      PrintableBetween(Patch(v), Patch(v) + 1, Patch(v) + 2);
    }
  }

  /**
   * `x.y.n` with a natural `n` becomes `x.y.n+1`, written in ASCII digits,
   * while `n + 1` has at most `MaxStrDigits` digits; past that it becomes `0.1.1`.
   */
  lemma BumpOfNat(major: string, minor: string, n: nat)
    requires '.' !in major && '.' !in minor
    ensures Bump(major + "." + minor + "." + NatToString(n)) ==
      if |NatToString(n + 1)| <= MaxStrDigits then major + "." + minor + "." + NatToString(n + 1)
      else FallbackVersion
  {
    var v := major + "." + minor + "." + NatToString(n);
    assert v == Join([major, minor, IntToString(n)], '.') by {
      JoinThree(major, minor, NatToString(n));
    }
    SplitVersion(major, minor, n);
    ParseIntOfNat(n);
    NatToStringMonotone(n, n + 1);
    if |NatToString(n)| <= MaxStrDigits {
      assert WellFormed(v) && Major(v) == major && Minor(v) == minor && Patch(v) == n;
      BumpWellFormed(v);
      JoinThree(major, minor, NatToString(n + 1));
    }
  }

  /** Without a VERSION file the first bump writes `0.1.1`. */
  lemma FirstBump()
    ensures Bump(CurrentVersion(None)) == "0.1.1"
  {
    InitialBump();
  }

  /** The bump of the initial version itself. */
  lemma InitialBump()
    ensures Bump("0.1.0") == "0.1.1"
  {
    assert NatToString(0) == "0" && NatToString(1) == "1";
    assert "0.1.0" == "0" + "." + "1" + "." + NatToString(0);
    assert |NatToString(1)| <= MaxStrDigits;
    BumpOfNat("0", "1", 0);
    assert "0" + "." + "1" + "." + NatToString(1) == "0.1.1";
  }

  /** The bump after `0.1.1` writes `0.1.2`. */
  lemma SecondBump()
    ensures Bump("0.1.1") == "0.1.2"
  {
    assert NatToString(1) == "1" && NatToString(2) == "2";
    assert "0.1.1" == "0" + "." + "1" + "." + NatToString(1);
    assert |NatToString(2)| <= MaxStrDigits;
    BumpOfNat("0", "1", 1);
    assert "0" + "." + "1" + "." + NatToString(2) == "0.1.2";
  }
}
