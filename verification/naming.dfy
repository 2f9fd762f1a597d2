/** The names a file is stored and processed under: the normalised upload
    name of `processAndUploadFiles` and the local variant names of
    `compressImage`. */
module Naming {
  import opened Text
  import opened NodePath

  /** The part of a file name before its extension. */
  function Stem(name: string): string {
    name[..|name| - |ExtName(name)|]
  }

  /** For a slash-free name the extension is a proper suffix of the name
      itself. */
  lemma ExtNameOfPlainName(name: string)
    requires '/' !in name
    ensures ExtName(name) == "" || (|ExtName(name)| < |name| && EndsWith(name, ExtName(name)))
  {
    assert BaseName(name) == name;
  }

  /** A string is what precedes a suffix followed by the suffix; a proper,
      non-empty suffix leaves something in front of it. */
  lemma SplitAtSuffix(s: string, x: string)
    requires x == "" || (|x| < |s| && EndsWith(s, x))
    ensures s == s[..|s| - |x|] + x
    ensures x != "" ==> s[..|s| - |x|] != ""
  {
    assert s == s[..|s| - |x|] + s[|s| - |x|..];
  }

  /** A slash-free name is its stem followed by its extension. */
  lemma StemAndExtension(name: string)
    requires '/' !in name
    ensures name == Stem(name) + ExtName(name)
    ensures ExtName(name) != "" ==> Stem(name) != ""
  {
    ExtNameOfPlainName(name);
    SplitAtSuffix(name, ExtName(name));
  }

  /** The name re-extended with the sniffed extension when it
      has none or a different one, compared case-insensitively. */
  function ReExtend(fileName: string, detected: string): (r: string)
    ensures '/' !in fileName ==> EndsWith(Lower(r), Lower(detected))
  {
    var currentExt := ExtName(fileName);
    ReExtendEndsWithDetected(fileName, detected);
    if currentExt == "" || Lower(currentExt) != Lower(detected)
    then BaseNameWithout(fileName, currentExt) + detected
    else fileName
  }

  /** Either branch of `ReExtend` leaves a name that ends, case-insensitively,
      with the detected extension. */
  lemma ReExtendEndsWithDetected(fileName: string, detected: string)
    ensures var cur := ExtName(fileName);
            '/' !in fileName ==>
              if cur == "" || Lower(cur) != Lower(detected)
              then EndsWith(Lower(BaseNameWithout(fileName, cur) + detected), Lower(detected))
              else EndsWith(Lower(fileName), Lower(detected))
  {
    var cur := ExtName(fileName);
    if '/' !in fileName {
      if cur == "" || Lower(cur) != Lower(detected) {
        LowerAppend(BaseNameWithout(fileName, cur), detected);
        SuffixOfAppend(Lower(BaseNameWithout(fileName, cur)), Lower(detected));
      } else {
        StemAndExtension(fileName);
        LowerAppend(Stem(fileName), cur);
        SuffixOfAppend(Lower(Stem(fileName)), Lower(cur));
      }
    }
  }

  /** A string ends with whatever is appended to it. */
  lemma SuffixOfAppend(a: string, b: string)
    ensures EndsWith(a + b, b)
  {
    assert (a + b)[|a|..] == b;
  }

  /** The storage name of an upload: the last segment of the client's name,
      re-extended, then lower-cased. */
  function NormalizeFileName(originalName: string, detectedExt: string): (r: string)
    ensures IsLowerCase(r)
  {
    Lower(ReExtend(BaseName(originalName), "." + detectedExt))
  }

  /** Whichever branch `ReExtend` takes, the lower-cased result is the
      lower-cased stem followed by the detected extension. */
  lemma {:induction false} ReExtendKeepsStem(fileName: string, detected: string)
    requires '/' !in fileName
    ensures Lower(ReExtend(fileName, detected)) == Lower(Stem(fileName) + detected)
  {
    var cur := ExtName(fileName);
    StemAndExtension(fileName);
    if cur == "" || Lower(cur) != Lower(detected) {
      assert BaseNameWithout(fileName, cur) == Stem(fileName);
    } else {
      LowerAppend(Stem(fileName), cur);
      LowerAppend(Stem(fileName), detected);
    }
  }

  lemma ReExtendWithDot(fileName: string, detectedExt: string)
    requires '/' !in fileName
    ensures Lower(ReExtend(fileName, "." + detectedExt)) == Lower(Stem(fileName) + "." + detectedExt)
  {
    ReExtendKeepsStem(fileName, "." + detectedExt);
    DotJoinAssociates(Stem(fileName), detectedExt);
  }

  lemma DotJoinAssociates(a: string, e: string)
    ensures a + ("." + e) == a + "." + e
  {
  }

  /** Whichever branch is taken, the normalised name is the lower-cased stem
      of the client's name followed by the sniffed extension. */
  lemma NormalizedIsStemAndDetected(originalName: string, detectedExt: string)
    ensures NormalizeFileName(originalName, detectedExt)
         == Lower(Stem(BaseName(originalName)) + "." + detectedExt)
  {
    var f := BaseName(originalName);
    assert '/' !in f;
    assert NormalizeFileName(originalName, detectedExt) == Lower(ReExtend(f, "." + detectedExt));
    ReExtendWithDot(f, detectedExt);
  }

  /** A slash-free non-empty stem with a plain extension keeps that extension,
      lower-cased, after lower-casing. */
  lemma {:induction false} LowerStemExtension(stem: string, e: string)
    requires stem != "" && '/' !in stem
    requires e != "" && '.' !in e && '/' !in e
    ensures ExtName(Lower(stem + "." + e)) == "." + Lower(e)
  {
    LowerAppend(stem + ".", e);
    LowerAppend(stem, ".");
    assert Lower(".") == ".";
    LowerKeepsNonLetter(stem, '/');
    LowerKeepsNonLetter(e, '/');
    LowerKeepsNonLetter(e, '.');
    ExtNameOfSuffix(Lower(stem), Lower(e));
  }

  /** A client name with a non-empty last segment ends, after normalisation,
      with exactly the lower-cased sniffed extension. */
  lemma NormalizedExtension(originalName: string, detectedExt: string)
    requires BaseName(originalName) != ""
    requires detectedExt != "" && '.' !in detectedExt && '/' !in detectedExt
    ensures ExtName(NormalizeFileName(originalName, detectedExt)) == "." + Lower(detectedExt)
  {
    var f := BaseName(originalName);
    assert '/' !in f;
    StemAndExtension(f);
    NormalizedIsStemAndDetected(originalName, detectedExt);
    assert '/' !in Stem(f);
    LowerStemExtension(Stem(f), detectedExt);
  }

  /** With no last segment to keep, the name becomes the bare extension,
      which Node does not see as having an extension at all. */
  lemma EmptyNameLosesExtension(e: string)
    requires e != "" && '.' !in e && '/' !in e
    ensures NormalizeFileName("", e) == "." + Lower(e)
    ensures ExtName(NormalizeFileName("", e)) == ""
  {
    NormalizeOfEmpty(e);
    LowerAppend(".", e);
    assert Lower(".") == ".";
    LowerKeepsNonLetter(e, '.');
    LowerKeepsNonLetter(e, '/');
    DotFileHasNoExtName(Lower(e));
  }

  /** An empty client name normalises to the lower-cased dotted extension. */
  lemma NormalizeOfEmpty(e: string)
    ensures NormalizeFileName("", e) == Lower("." + e)
  {
    assert BaseName("") == "";
    ReExtendOfEmpty("." + e);
  }

  /** An empty name has no extension to keep, so it becomes the detected
      extension alone. */
  lemma ReExtendOfEmpty(detected: string)
    ensures ReExtend("", detected) == detected
  {
    assert ExtName("") == "";
    assert BaseNameWithout("", "") == "";
  }


  /** The local name of one variant: the first occurrence of the extension
      removed, then the tag, then the extension. */
  function VariantName(fileName: string, tag: string): (r: string)
    ensures EndsWith(r, tag + ExtName(fileName))
  {
    var ext := ExtName(fileName);
    var head := RemoveFirst(fileName, ext);
    TaggedSuffix(head, tag, ext);
    head + tag + ext
  }

  /** A name built as head, tag, extension ends with the tag and the
      extension. */
  lemma TaggedSuffix(head: string, tag: string, ext: string)
    ensures EndsWith(head + tag + ext, tag + ext)
  {
    assert head + tag + ext == head + (tag + ext);
    SuffixOfAppend(head, tag + ext);
  }

  /** When the extension first occurs at the end of the name, the variant name
      is the stem, the tag and the extension. */
  lemma {:induction false} VariantNameOfStem(fileName: string, tag: string)
    requires '/' !in fileName
    requires forall j :: 0 <= j < |Stem(fileName)| ==> !OccursAt(fileName, ExtName(fileName), j)
    ensures VariantName(fileName, tag) == Stem(fileName) + tag + ExtName(fileName)
  {
    StemAndExtension(fileName);
    RemoveFirstOfLast(Stem(fileName), ExtName(fileName));
  }

  /** The three tags give three different variant names, whatever the file
      name. */
  lemma VariantNamesDistinct(fileName: string)
    ensures VariantName(fileName, "-high") != VariantName(fileName, "-medium")
    ensures VariantName(fileName, "-high") != VariantName(fileName, "-low")
    ensures VariantName(fileName, "-medium") != VariantName(fileName, "-low")
  {
  }
}
