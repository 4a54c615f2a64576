/**
 * The name of the downloaded file:
 * `(originalFile?.name?.replace(/\.[^/.]+$/, "") || "image") + "-no-bg.png"`.
 */
module ExportName {

  import opened Wrappers

  const Suffix: string := "-no-bg.png"
  const FallbackBase: string := "image"

  /**
   * The regular expression `\.[^/.]+$` matches at index `i` of `name`:
   * a dot, then one or more characters up to the end, none of them `/` or `.`.
   */
  ghost predicate ExtensionAt(name: string, i: int)
  {
    0 <= i < |name| - 1 && name[i] == '.' &&
    forall j :: i < j < |name| ==> name[j] != '/' && name[j] != '.'
  }

  /** Where the regular expression matches, scanning back from the end of the name. */
  function ExtensionStart(name: string): (r: Option<nat>)
    decreases |name|
    ensures r.Some? ==> ExtensionAt(name, r.value)
    ensures r.None? ==> forall i :: !ExtensionAt(name, i)
  {
    if |name| < 2 then None
    else if name[|name| - 1] == '/' || name[|name| - 1] == '.' then None
    else if name[|name| - 2] == '.' then Some(|name| - 2)
    else
      var r := ExtensionStart(name[..|name| - 1]);
      assert forall i :: ExtensionAt(name, i) ==> ExtensionAt(name[..|name| - 1], i);
      r
  }

  /** The regular expression matches at most one index, so `replace` has only one candidate. */
  lemma ExtensionUnique(name: string, i: int, k: int)
    requires ExtensionAt(name, i) && ExtensionAt(name, k)
    ensures i == k
  {
  }

  /** `name.replace(/\.[^/.]+$/, "")`: drops the last extension, if the name has one. */
  function StripExtension(name: string): (r: string)
    ensures r <= name
    ensures |r| == |name| || ExtensionAt(name, |r|)
    ensures forall i :: ExtensionAt(name, i) ==> r == name[..i]
  {
    match ExtensionStart(name)
    case None => name
    case Some(i) =>
      assert forall k :: ExtensionAt(name, k) ==> k == i by {
        forall k | ExtensionAt(name, k) ensures k == i { ExtensionUnique(name, i, k); }
      }
      name[..i]
  }

  /** The download name: the stripped base name (or "image" when it is empty or absent) plus the suffix. */
  function FileName(originalName: Option<string>): (r: string)
    ensures |r| > |Suffix| && r[|r| - |Suffix|..] == Suffix
    ensures var base := r[..|r| - |Suffix|];
            base == FallbackBase || (originalName.Some? && 0 < |base| && base <= originalName.value)
  {
    var base := if originalName.Some? then StripExtension(originalName.value) else "";
    var shown := if base == "" then FallbackBase else base;
    assert (shown + Suffix)[..|shown + Suffix| - |Suffix|] == shown;
    shown + Suffix
  }

  /**
   * The file name, stated without the scan: a name with an extension loses
   * exactly that extension, a name without one is kept whole, and an empty
   * base falls back to "image".
   */
  lemma FileNameCharacterised(name: string)
    ensures forall i :: ExtensionAt(name, i) ==>
              FileName(Some(name)) == (if i == 0 then FallbackBase else name[..i]) + Suffix
    ensures (forall i :: !ExtensionAt(name, i)) ==>
              FileName(Some(name)) == (if name == "" then FallbackBase else name) + Suffix
  {
  }

  /** The last extension goes, and earlier dots stay. */
  lemma FileNameKeepsInnerDots()
    ensures FileName(Some("a.b.c")) == "a.b-no-bg.png"
  {
  }

  /** A name that is only an extension, and a missing file, fall back to "image". */
  lemma FileNameFallsBack()
    ensures FileName(Some(".png")) == "image-no-bg.png"
    ensures FileName(None) == "image-no-bg.png"
  {
    assert ExtensionStart(".png") == Some(0);
  }

  /** A trailing dot, or a dot before a `/`, is not an extension. */
  lemma FileNameWithoutExtension()
    ensures FileName(Some("a.")) == "a.-no-bg.png"
    ensures FileName(Some("a./b")) == "a./b-no-bg.png"
  {
  }
}
