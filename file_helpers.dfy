/** File helpers: the name given to a compressed copy, and the decisions of the image
    compressor that say whether the original file is kept. The bitmap decoding, canvas
    drawing and encoding are not modelled; the encoder is a parameter. */
module FileHelpers {
  import opened Wrappers
  import opened JsStrings

  const CompressedSuffix: string := "-compressed"

  /** `buildCompressedName`: insert "-compressed" before the extension (the part from the
      last dot), or append it when there is no dot. */
  function BuildCompressedName(originalName: string): (r: string)
    ensures |r| == |originalName| + 11
    ensures '.' !in originalName ==> r == originalName + "-compressed"
    ensures '.' in originalName ==>
              var d := LastIndexOf(originalName, '.');
              r == originalName[..d] + "-compressed" + originalName[d..]
  {
    var lastDot := LastIndexOf(originalName, '.');
    if lastDot == -1 then originalName + CompressedSuffix
    else originalName[..lastDot] + CompressedSuffix + originalName[lastDot..]
  }

  /** The extension of a name: everything from its last dot, or nothing. */
  function Extension(name: string): string {
    var d := LastIndexOf(name, '.');
    if d == -1 then "" else name[d..]
  }

  /** The compressed name keeps the extension of the original. */
  lemma {:induction false} CompressedNameKeepsExtension(name: string)
    ensures Extension(BuildCompressedName(name)) == Extension(name)
  {
    var r := BuildCompressedName(name);
    var d := LastIndexOf(name, '.');
    assert forall k :: 0 <= k < |CompressedSuffix| ==> CompressedSuffix[k] != '.';
    if d == -1 {
      assert r == name + CompressedSuffix;
      assert forall k :: 0 <= k < |r| ==> r[k] != '.' by {
        forall k | 0 <= k < |r| ensures r[k] != '.' {
          if k < |name| { assert r[k] == name[k]; } else { assert r[k] == CompressedSuffix[k - |name|]; }
        }
      }
      assert '.' !in r;
    } else {
      var e := d + |CompressedSuffix|;
      assert r == name[..d] + CompressedSuffix + name[d..];
      assert r[e] == '.';
      assert forall j :: e < j < |r| ==> r[j] == name[j - |CompressedSuffix|];
      assert LastIndexOf(r, '.') == e by {
        var m := LastIndexOf(r, '.');
        assert m >= e;
      }
      assert r[e..] == name[d..];
    }
  }

  /** The base name (before the extension) is kept in front of the suffix. */
  lemma CompressedNameKeepsBase(name: string)
    ensures StartsWith(BuildCompressedName(name), name[..|name| - |Extension(name)|] + "-compressed")
  {
    var d := LastIndexOf(name, '.');
    if d != -1 {
      assert |Extension(name)| == |name| - d;
    }
  }

  /** The file attributes the compressor looks at. */
  datatype FileInfo = FileInfo(name: string, mimeType: string, size: nat)

  /** The encoded canvas output, when the encoder produced one. */
  datatype Blob = Blob(mimeType: string, size: nat)

  /** The type the encoder is asked for: PNG stays PNG, every other image becomes JPEG. */
  function PreferredType(mimeType: string): (t: string)
    ensures t == "image/png" <==> mimeType == "image/png"
    ensures t == "image/png" || t == "image/jpeg"
  {
    if mimeType == "image/png" then "image/png" else "image/jpeg"
  }

  /** `compressImageFile`, with `decoded` meaning `createImageBitmap` decoded the image,
      `hasContext` that the canvas gave a 2D context and `encode` the blob `canvas.toBlob`
      yields for the requested type. `None` is the rejected promise of an image the browser
      cannot decode. */
  function CompressImageFile(file: FileInfo, decoded: bool, hasContext: bool, encode: string -> Option<Blob>): (r: Option<FileInfo>)
    ensures !StartsWith(file.mimeType, "image/") ==> r == Some(file)
    ensures r.None? <==> StartsWith(file.mimeType, "image/") && !decoded
    ensures r.Some? ==> r.value == file || (r.value.size < file.size && r.value.name == BuildCompressedName(file.name))
    ensures r.Some? && r.value != file ==>
              var b := encode(PreferredType(file.mimeType)); b.Some? && r.value == FileInfo(r.value.name, b.value.mimeType, b.value.size)
  {
    if !StartsWith(file.mimeType, "image/") then Some(file)
    else if !decoded then None
    else if !hasContext then Some(file)
    else
      var blob := encode(PreferredType(file.mimeType));
      if blob.None? || blob.value.size >= file.size then Some(file)
      else Some(FileInfo(BuildCompressedName(file.name), blob.value.mimeType, blob.value.size))
  }

  /** The original is kept exactly when it is not an image, or it was decoded and there is
      no canvas context, the encoder gave nothing, or the encoding is not strictly smaller. */
  lemma KeepOriginalExactly(file: FileInfo, decoded: bool, hasContext: bool, encode: string -> Option<Blob>)
    ensures var b := encode(PreferredType(file.mimeType));
            CompressImageFile(file, decoded, hasContext, encode) == Some(file) <==>
              (!StartsWith(file.mimeType, "image/")
               || (decoded && (!hasContext || b.None? || b.value.size >= file.size)))
  {
    var b := encode(PreferredType(file.mimeType));
    if StartsWith(file.mimeType, "image/") && decoded && hasContext && b.Some? && b.value.size < file.size {
      assert CompressImageFile(file, decoded, hasContext, encode).value.size < file.size;
    }
  }

  /** With an encoder that honours the requested type, a compressed PNG stays PNG and any
      other compressed image comes out as JPEG. */
  lemma CompressedTypeFollowsInput(file: FileInfo, decoded: bool, hasContext: bool, encode: string -> Option<Blob>)
    requires forall t :: encode(t).Some? ==> encode(t).value.mimeType == t
    requires CompressImageFile(file, decoded, hasContext, encode).Some?
    requires CompressImageFile(file, decoded, hasContext, encode).value != file
    ensures CompressImageFile(file, decoded, hasContext, encode).value.mimeType ==
              (if file.mimeType == "image/png" then "image/png" else "image/jpeg")
  {
  }
}
