// The display name of an in-progress download
// (NotchApp/Sources/Widgets/Download/DownloadExpandedView.swift, `cleanFileName`):
// the first matching temporary-download suffix is dropped, at most one.
module DownloadView {
  import opened Text

  /** The suffixes tried, in order, without their leading dot. */
  const CleanedExtensions: seq<string> := ["crdownload", "download", "part", "tmp"]

  /** The index of the first extension `name` ends with (preceded by a dot), from `from` on. */
  function FirstSuffix(name: string, from: nat): (r: nat)
    requires from <= |CleanedExtensions|
    ensures from <= r <= |CleanedExtensions|
    ensures r < |CleanedExtensions| ==> HasSuffix(name, "." + CleanedExtensions[r])
    ensures forall k :: from <= k < r ==> !HasSuffix(name, "." + CleanedExtensions[k])
    decreases |CleanedExtensions| - from
  {
    if from == |CleanedExtensions| then from
    else if HasSuffix(name, "." + CleanedExtensions[from]) then from
    else FirstSuffix(name, from + 1)
  }

  /** What `cleanFileName` returns. */
  function CleanedName(name: string): string
  {
    var k := FirstSuffix(name, 0);
    if k == |CleanedExtensions| then name else name[..|name| - |CleanedExtensions[k]| - 1]
  }

  /** `cleanFileName(_:)`. */
  method CleanFileName(name: string) returns (result: string)
    ensures result == CleanedName(name)
  {
    result := name;
    var i := 0;
    while i < |CleanedExtensions|
      invariant 0 <= i <= |CleanedExtensions| && result == name
      invariant forall k :: 0 <= k < i ==> !HasSuffix(name, "." + CleanedExtensions[k])
    {
      var ext := CleanedExtensions[i];
      if HasSuffix(result, "." + ext) {
        result := result[..|result| - (|ext| + 1)];
        assert FirstSuffix(name, 0) == i;
        return;
      }
      i := i + 1;
    }
  }

  /** With no extension matching, `FirstSuffix` runs off the end of the list. */
  lemma NoSuffixMatches(name: string)
    requires forall k :: 0 <= k < |CleanedExtensions| ==> !HasSuffix(name, "." + CleanedExtensions[k])
    ensures CleanedName(name) == name
  {
  }

  /**
   * The cleaned name is always a prefix of the name; it is shorter by exactly
   * the matched extension and its dot, and is the name itself when none matches.
   */
  lemma CleanedNameSpec(name: string)
    ensures var r := CleanedName(name);
      r == name[..|r|]
      && ((forall ext :: ext in CleanedExtensions ==> !HasSuffix(name, "." + ext)) ==> r == name)
    ensures var k := FirstSuffix(name, 0);
      k < |CleanedExtensions| ==>
        HasSuffix(name, "." + CleanedExtensions[k]) && |CleanedName(name)| == |name| - |CleanedExtensions[k]| - 1
        && name == CleanedName(name) + "." + CleanedExtensions[k]
  {
    var k := FirstSuffix(name, 0);
    if k < |CleanedExtensions| {
      var ext := "." + CleanedExtensions[k];
      var r := name[..|name| - |ext|];
      assert CleanedName(name) == r;
      assert name == r + name[|name| - |ext|..];
      assert r == name[..|r|];
      assert CleanedExtensions[k] in CleanedExtensions;
    } else {
      assert CleanedName(name) == name;
      assert name == name[..|name|];
    }
  }

  /** Only one suffix is removed: a name with two download suffixes keeps the first of them. */
  lemma RemovesAtMostOne(base: string)
    ensures CleanedName(base + ".part.crdownload") == base + ".part"
  {
    var name := base + ".part.crdownload";
    assert "." + CleanedExtensions[0] == ".crdownload";
    assert name[|name| - |".crdownload"|..] == ".crdownload";
    assert FirstSuffix(name, 0) == 0;
    assert name[..|name| - |"crdownload"| - 1] == base + ".part";
  }

  /** Matching is case-sensitive: an upper-case suffix is not removed. */
  lemma CaseSensitive(base: string)
    ensures CleanedName(base + ".PART") == base + ".PART"
  {
    var name := base + ".PART";
    assert name[|name| - 1] == 'T';
    forall k | 0 <= k < |CleanedExtensions|
      ensures !HasSuffix(name, "." + CleanedExtensions[k])
    {
      var ext := "." + CleanedExtensions[k];
      assert ext[|ext| - 1] != 'T';
      LastCharDiffers(name, ext);
    }
    NoSuffixMatches(name);
  }
}
