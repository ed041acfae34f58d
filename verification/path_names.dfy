/**
 * The string operations the download watcher applies to the name of a file:
 * `str.rfind`, the `suffix` of a pathlib path, the `in` test between two
 * strings, and the test that tells a partial Chrome download from a finished
 * file.
 */
module PathNames {

  /** The suffixes Chrome gives to a file it is still writing. */
  const TmpSuffix: string := ".tmp"
  const CrdownloadSuffix: string := ".crdownload"
  /** The marker Chrome puts in the name of its own temporary download files. */
  const ChromeMarker: string := ".com.google.Chrome."

  /** `sub` occurs in `t` at position `i`. */
  ghost predicate OccursAt(sub: string, t: string, i: int)
  {
    0 <= i && i + |sub| <= |t| && t[i..i + |sub|] == sub
  }

  /** `s.rfind(c)`: the index of the last `c` in `s`, or -1 when there is none. */
  function RFind(s: string, c: char): (r: int)
    ensures -1 <= r < |s|
    ensures r >= 0 ==> s[r] == c
    ensures forall j :: r < j < |s| ==> s[j] != c
  {
    if |s| == 0 then -1
    else if s[|s| - 1] == c then |s| - 1
    else RFind(s[..|s| - 1], c)
  }

  /**
   * The `suffix` of a path whose last component is `name`: the text from the
   * last dot on, when that dot is neither the first nor the last character
   * of the name; otherwise the empty string.
   */
  function Suffix(name: string): (r: string)
    ensures r == "" || (|r| >= 2 && r[0] == '.' && '.' !in r[1..])
    ensures |r| <= |name| && r == name[|name| - |r|..]
  {
    var i := RFind(name, '.');
    if 0 < i < |name| - 1 then name[i..] else ""
  }

  /** Python's `sub in t` on two strings. */
  function Contains(t: string, sub: string): (r: bool)
    ensures r <==> exists i :: OccursAt(sub, t, i)
    decreases |t|
  {
    if |t| < |sub| then
      assert forall i :: !OccursAt(sub, t, i);
      false
    else if t[..|sub|] == sub then
      assert OccursAt(sub, t, 0);
      true
    else
      var rest := Contains(t[1..], sub);
      assert forall i :: OccursAt(sub, t[1..], i) <==> OccursAt(sub, t, i + 1) by {
        forall i ensures OccursAt(sub, t[1..], i) <==> OccursAt(sub, t, i + 1) {
          if 0 <= i && i + |sub| <= |t| - 1 {
            assert t[1..][i..i + |sub|] == t[i + 1..i + 1 + |sub|];
          }
        }
      }
      assert !OccursAt(sub, t, 0);
      assert (exists i :: OccursAt(sub, t, i)) ==> exists i :: OccursAt(sub, t[1..], i) by {
        if i :| OccursAt(sub, t, i) {
          assert i > 0;
          assert OccursAt(sub, t[1..], i - 1);
        }
      }
      rest
  }

  /**
   * A name the watcher takes for a download still in progress: its suffix is
   * `.tmp` or `.crdownload`, or the Chrome marker occurs in it.
   */
  predicate IsPartial(name: string)
  {
    Suffix(name) == TmpSuffix || Suffix(name) == CrdownloadSuffix || Contains(name, ChromeMarker)
  }

  /** A name the watcher accepts as a finished download. */
  predicate LooksFinished(name: string)
  {
    !IsPartial(name)
  }

  /**
   * The suffix is empty exactly when no dot follows the first character, or
   * when the name ends with a dot.
   */
  lemma SuffixEmptyIff(name: string)
    ensures Suffix(name) == "" <==>
              (forall j :: 0 < j < |name| ==> name[j] != '.') || (|name| > 0 && name[|name| - 1] == '.')
  {
    var i := RFind(name, '.');
    if !(0 < i < |name| - 1) {
      if i == |name| - 1 && i >= 0 {
      } else {
        assert i <= 0;
        assert forall j :: 0 < j < |name| ==> name[j] != '.';
      }
    } else {
      assert name[i] == '.';
      assert name[|name| - 1] != '.';
    }
  }

  /**
   * A dotless, non-empty extension appended with a dot to a non-empty stem is
   * the suffix of the result.
   */
  lemma {:induction false} SuffixOfExtension(stem: string, ext: string)
    requires |stem| > 0 && |ext| > 0 && '.' !in ext
    ensures Suffix(stem + "." + ext) == "." + ext
  {
    var name := stem + "." + ext;
    var dot := |stem|;
    assert name[dot] == '.';
    assert forall j :: dot < j < |name| ==> name[j] == ext[j - dot - 1];
    var i := RFind(name, '.');
    assert i == dot;
    assert name[dot..] == "." + ext;
  }

  /** Whatever comes before and after it, the Chrome marker makes a name partial. */
  lemma ChromeMarkerIsPartial(before: string, after: string)
    ensures IsPartial(before + ChromeMarker + after)
  {
    var name := before + ChromeMarker + after;
    assert name[|before|..|before| + |ChromeMarker|] == ChromeMarker;
    assert OccursAt(ChromeMarker, name, |before|);
  }

  /** A non-empty stem followed by `.crdownload` or `.tmp` is partial. */
  lemma PartialSuffixes(stem: string)
    requires |stem| > 0
    ensures IsPartial(stem + CrdownloadSuffix) && IsPartial(stem + TmpSuffix)
  {
    assert stem + CrdownloadSuffix == stem + "." + "crdownload";
    assert stem + TmpSuffix == stem + "." + "tmp";
    SuffixOfExtension(stem, "crdownload");
    SuffixOfExtension(stem, "tmp");
  }

  /**
   * A file named exactly `.crdownload` passes for finished: its only dot is its
   * first character, so its suffix is empty, and it holds no Chrome marker.
   */
  lemma BareCrdownloadLooksFinished()
    ensures LooksFinished(CrdownloadSuffix)
  {
    SuffixEmptyIff(CrdownloadSuffix);
    assert Suffix(CrdownloadSuffix) == "";
    assert !Contains(CrdownloadSuffix, ChromeMarker);
  }

  /** A name shorter than the Chrome marker cannot hold it. */
  lemma ShortNameHasNoMarker(name: string)
    requires |name| < |ChromeMarker|
    ensures !Contains(name, ChromeMarker)
  {
  }

  /**
   * A non-empty stem with a dotless extension other than `tmp` and
   * `crdownload`, and no Chrome marker, looks finished.
   */
  lemma PlainExtensionLooksFinished(stem: string, ext: string)
    requires |stem| > 0 && |ext| > 0 && '.' !in ext
    requires ext != "tmp" && ext != "crdownload"
    requires !Contains(stem + "." + ext, ChromeMarker)
    ensures LooksFinished(stem + "." + ext)
  {
    SuffixOfExtension(stem, ext);
    assert ("." + ext)[1..] == ext;
  }
}
