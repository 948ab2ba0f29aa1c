/**
  The image picker of src/components/admin/ImageUpload.tsx: a bounded list
  of image URLs (uploaded files become data URLs), the checks a file or a
  pasted URL must pass, and the dimensions an oversized image is scaled to
  before it is encoded. Reading, drawing and encoding the image, and the
  HEAD request that checks a URL, are outside the model: their outcomes are
  passed in.
 */
module ImageUpload {
  import opened Common

  /** The longest side an encoded image may have. */
  const MaxDim := 1200

  /** The largest file accepted, in bytes (10 MB). */
  const MaxFileSize := 10 * 1024 * 1024

  /** `maxImages` when the prop is not given. */
  const DefaultMaxImages := 10

  /**
    A selected file. `decoded` is what reading and loading it as an image
    gives: its width and height, or the error of a file the browser could not
    read or decode. `jpeg` is what reading the encoded canvas back gives: its
    data URL, or the read error.
   */
  datatype ImageFile = ImageFile(name: string, mimeType: string, size: nat, decoded: Result<(nat, nat)>, jpeg: Result<string>)

  /** How the promise of `compressImageToBase64` ends: resolved, rejected, or never. */
  datatype Compression = Resolved(url: string) | Rejected | Pending

  /** The toasts the component raises, without their wording. */
  datatype Toast =
    | MaxImagesAllowed(limit: nat)
    | ImagesAdded(count: nat)
    | NotAnImage(file: string)
    | TooLarge(file: string)
    | ProcessingFailed(file: string)
    | EnterUrl
    | InvalidUrl

  predicate IsImageType(mimeType: string)
  {
    StartsWith(mimeType, "image/")
  }

  /** `Math.round(n / d)` for a non-negative ratio: halves round up. */
  function RoundedRatio(n: nat, d: nat): (q: nat)
    requires d > 0
    ensures 2 * n - d < 2 * q * d <= 2 * n + d
  {
    var q := (2 * n + d) / (2 * d);
    assert 2 * n + d == q * (2 * d) + (2 * n + d) % (2 * d);
    q
  }

  /**
    The canvas size for an image of `width` by `height`: when the longer side
    exceeds MaxDim it becomes MaxDim and the other side is scaled by the same
    factor, rounded to the nearest pixel; a square counts as tall.
   */
  function Resized(width: nat, height: nat): (r: (nat, nat))
  {
    if width > height then
      if width > MaxDim then (MaxDim, RoundedRatio(height * MaxDim, width)) else (width, height)
    else
      if height > MaxDim then (RoundedRatio(width * MaxDim, height), MaxDim) else (width, height)
  }

  /** Multiplying by a non-negative factor keeps an order. */
  lemma MulMonotone(a: int, b: int, c: nat)
    requires a <= b
    ensures a * c <= b * c
  {
  }

  /** A side scaled by MaxDim over a longer side stays within MaxDim. */
  lemma ScaledSideFits(shorter: nat, longer: nat)
    requires shorter <= longer && longer > 0
    ensures RoundedRatio(shorter * MaxDim, longer) <= MaxDim
  {
    var q := RoundedRatio(shorter * MaxDim, longer);
    MulMonotone(shorter, longer, MaxDim);
    if q >= MaxDim + 1 {
      MulMonotone(MaxDim + 1, q, 2 * longer);
      assert false;
    }
  }

  /**
    What the resize does: an image within bounds keeps its size; otherwise the
    longer side becomes MaxDim and the shorter one the nearest integer to its
    scaled length; either way both sides end up within MaxDim.
   */
  lemma ResizedMeaning(width: nat, height: nat)
    ensures var r := Resized(width, height);
      && r.0 <= MaxDim && r.1 <= MaxDim
      && (width <= MaxDim && height <= MaxDim ==> r == (width, height))
      && (width > height && width > MaxDim ==>
            r.0 == MaxDim && 2 * height * MaxDim - width < 2 * r.1 * width <= 2 * height * MaxDim + width)
      && (height >= width && height > MaxDim ==>
            r.1 == MaxDim && 2 * width * MaxDim - height < 2 * r.0 * height <= 2 * width * MaxDim + height)
  {
    if width > height && width > MaxDim {
      ScaledSideFits(height, width);
    } else if height >= width && height > MaxDim {
      ScaledSideFits(width, height);
    }
  }

  /** A square image over the bound becomes exactly MaxDim by MaxDim. */
  lemma ResizedSquare(side: nat)
    requires side > MaxDim
    ensures Resized(side, side) == (MaxDim, MaxDim)
  {
    var q := RoundedRatio(side * MaxDim, side);
    if q >= MaxDim + 1 {
      MulMonotone(MaxDim + 1, q, 2 * side);
      assert false;
    } else if q <= MaxDim - 1 {
      MulMonotone(q, MaxDim - 1, 2 * side);
      assert false;
    }
  }

  /** The resized canvas has a side of 0, and so no pixels. */
  predicate ZeroArea(width: nat, height: nat)
  {
    Resized(width, height).0 == 0 || Resized(width, height).1 == 0
  }

  /**
    `compressImageToBase64(file)`. A canvas without pixels makes `toBlob`
    call back with null, and the callback then neither resolves nor rejects.
   */
  function Compress(f: ImageFile): (c: Compression)
    ensures c.Pending? <==> f.decoded.Ok? && ZeroArea(f.decoded.value.0, f.decoded.value.1)
    ensures c.Resolved? ==> f.jpeg == Ok(c.url)
  {
    match f.decoded
    case Err(_) => Rejected
    case Ok(dims) =>
      if ZeroArea(dims.0, dims.1) then Pending
      else if f.jpeg.Ok? then Resolved(f.jpeg.value)
      else Rejected
  }

  /** A positive ratio rounds to 0 exactly when the numerator is less than half the denominator. */
  lemma RoundedRatioZero(n: nat, d: nat)
    requires d > 0
    ensures RoundedRatio(n, d) == 0 <==> 2 * n < d
  {
    var q := RoundedRatio(n, d);
    if q >= 1 {
      MulMonotone(1, q, 2 * d);
    }
  }

  /**
    The resized canvas loses a side exactly when the image has a side of 0,
    or one side is more than 2400 times the other (the scaled side then
    rounds to 0).
   */
  lemma ZeroAreaIffExtreme(width: nat, height: nat)
    ensures ZeroArea(width, height) <==> width == 0 || height == 0 || width > 2400 * height || height > 2400 * width
  {
    if width > height && width > MaxDim {
      RoundedRatioZero(height * MaxDim, width);
    } else if width <= height && height > MaxDim {
      RoundedRatioZero(width * MaxDim, height);
    }
  }

  /** The toast a file that fails a check raises, if it fails one. */
  function Rejection(f: ImageFile): Option<Toast>
  {
    if !IsImageType(f.mimeType) then Some(NotAnImage(f.name))
    else if f.size > MaxFileSize then Some(TooLarge(f.name))
    else if Compress(f).Rejected? then Some(ProcessingFailed(f.name))
    else None
  }

  /** A file that passes the checks and whose compression never settles. */
  predicate Stalls(f: ImageFile)
  {
    IsImageType(f.mimeType) && f.size <= MaxFileSize && Compress(f).Pending?
  }

  /** No file of the selection stalls, so the loop over them ends. */
  predicate Settles(files: seq<ImageFile>)
  {
    forall i :: 0 <= i < |files| ==> !Stalls(files[i])
  }

  /** The file the loop waits on for ever. */
  function FirstStall(files: seq<ImageFile>): (k: nat)
    requires !Settles(files)
    ensures k < |files| && Stalls(files[k])
    ensures forall j :: 0 <= j < k ==> !Stalls(files[j])
  {
    if Stalls(files[0]) then 0
    else
      assert !Settles(files[1..]) by {
        var i :| 0 <= i < |files| && Stalls(files[i]);
        assert files[1..][i - 1] == files[i];
      }
      1 + FirstStall(files[1..])
  }

  /** The data URLs the files yield, in order: files that fail a check, or stall, add nothing. */
  function Encoded(files: seq<ImageFile>): (r: seq<string>)
    ensures |r| <= |files|
  {
    if files == [] then []
    else
      var last := files[|files| - 1];
      Encoded(files[..|files| - 1]) + (if Rejection(last).None? && Compress(last).Resolved? then [Compress(last).url] else [])
  }

  /** The toasts the files raise, one per file that fails a check, in order. */
  function Rejections(files: seq<ImageFile>): (r: seq<Toast>)
  {
    if files == [] then []
    else
      var last := files[|files| - 1];
      Rejections(files[..|files| - 1]) + (if Rejection(last).Some? then [Rejection(last).value] else [])
  }

  /**
    Every file that does not stall is either encoded or reported, never
    both: when the selection settles, the two lists account for all of it.
   */
  lemma {:induction false} EachFileCounted(files: seq<ImageFile>)
    ensures |Encoded(files)| + |Rejections(files)| <= |files|
    ensures Settles(files) ==> |Encoded(files)| + |Rejections(files)| == |files|
  {
    if files != [] {
      var prefix := files[..|files| - 1];
      EachFileCounted(prefix);
      if Settles(files) {
        assert Settles(prefix) by {
          forall i | 0 <= i < |prefix| ensures !Stalls(prefix[i]) {
            assert prefix[i] == files[i];
          }
        }
      }
    }
  }

  /**
    An image comes out exactly for each file whose type is an image type,
    whose size is at most 10 MB and whose compression resolved.
   */
  lemma {:induction false} EncodedMembers(files: seq<ImageFile>, url: string)
    ensures url in Encoded(files) <==>
      exists i :: 0 <= i < |files| && IsImageType(files[i].mimeType) && files[i].size <= MaxFileSize
        && Compress(files[i]) == Resolved(url)
  {
    if files != [] {
      var init := files[..|files| - 1];
      EncodedMembers(init, url);
      var last := |files| - 1;
      if url in Encoded(files) {
        if url !in Encoded(init) {
          assert IsImageType(files[last].mimeType) && Compress(files[last]) == Resolved(url);
        } else {
          var i :| 0 <= i < |init| && IsImageType(init[i].mimeType) && init[i].size <= MaxFileSize
            && Compress(init[i]) == Resolved(url);
          assert files[i] == init[i];
        }
      } else {
        forall i | 0 <= i < |files|
          ensures !(IsImageType(files[i].mimeType) && files[i].size <= MaxFileSize && Compress(files[i]) == Resolved(url))
        {
          if i < last {
            assert files[i] == init[i];
          }
        }
      }
    }
  }

  /**
    The loop of `handleFileSelect`: each file that is not an image, is too
    large or fails to compress raises a toast and is skipped; the others are
    collected in order. At a file whose compression never settles the loop
    waits for ever: `settled` is then false, and the toasts are those of the
    files before it.
   */
  method ProcessFiles(files: seq<ImageFile>) returns (newImages: seq<string>, toasts: seq<Toast>, settled: bool)
    ensures settled == Settles(files)
    ensures settled ==> newImages == Encoded(files) && toasts == Rejections(files)
    ensures !settled ==> toasts == Rejections(files[..FirstStall(files)])
  {
    newImages := [];
    toasts := [];
    var i := 0;
    while i < |files|
      invariant i <= |files|
      invariant newImages == Encoded(files[..i])
      invariant toasts == Rejections(files[..i])
      invariant forall j :: 0 <= j < i ==> !Stalls(files[j])
    {
      var file := files[i];
      assert files[..i + 1][..i] == files[..i];
      if !IsImageType(file.mimeType) {
        toasts := toasts + [NotAnImage(file.name)];
      } else if file.size > MaxFileSize {
        toasts := toasts + [TooLarge(file.name)];
      } else {
        var c := Compress(file);
        if c.Pending? {
          assert Stalls(files[i]);
          return newImages, toasts, false;
        } else if c.Rejected? {
          toasts := toasts + [ProcessingFailed(file.name)];
        } else {
          newImages := newImages + [c.url];
        }
      }
      i := i + 1;
    }
    assert files[..i] == files;
    settled := true;
  }

  /** `images.filter((_, i) => i !== index)`. */
  function WithoutIndex<T>(s: seq<T>, index: int): (r: seq<T>)
    ensures 0 <= index < |s| ==> r == s[..index] + s[index + 1..]
    ensures !(0 <= index < |s|) ==> r == s
  {
    if s == [] then []
    else if index == 0 then s[1..]
    else
      var rest := WithoutIndex(s[1..], index - 1);
      assert 0 < index < |s| ==> [s[0]] + s[1..][..index - 1] == s[..index];
      [s[0]] + rest
  }

  class ImageUploader {
    const maxImages: nat
    var images: seq<string>
    var uploading: bool
    var urlInput: string
    /** Every list handed to the `onImagesChange` callback, in call order. */
    var reported: seq<seq<string>>

    /** The list starts as `existingImages` (default empty); `maxImages` defaults to 10. */
    constructor (existingImages: seq<string>, maxImagesProp: Option<nat>)
      ensures images == existingImages && maxImages == (if maxImagesProp.Some? then maxImagesProp.value else DefaultMaxImages)
      ensures !uploading && urlInput == "" && reported == []
    {
      maxImages := if maxImagesProp.Some? then maxImagesProp.value else DefaultMaxImages;
      images := existingImages;
      uploading := false;
      urlInput := "";
      reported := [];
    }

    /**
      `addImages(newImageUrls)`: a batch that would take the list past
      maxImages is refused whole; otherwise it is appended in order and the
      new list reported.
     */
    method AddImages(newImageUrls: seq<string>) returns (toast: Option<Toast>)
      modifies this
      ensures |old(images)| + |newImageUrls| > maxImages ==>
        images == old(images) && reported == old(reported) && toast == Some(MaxImagesAllowed(maxImages))
      ensures |old(images)| + |newImageUrls| <= maxImages ==>
        && images == old(images) + newImageUrls
        && reported == old(reported) + [images]
        && toast == (if |newImageUrls| > 0 then Some(ImagesAdded(|newImageUrls|)) else None)
      ensures |old(images)| <= maxImages ==> |images| <= maxImages
      ensures uploading == old(uploading) && urlInput == old(urlInput)
    {
      if |images| + |newImageUrls| > maxImages {
        return Some(MaxImagesAllowed(maxImages));
      }
      images := images + newImageUrls;
      reported := reported + [images];
      toast := if |newImageUrls| > 0 then Some(ImagesAdded(|newImageUrls|)) else None;
    }

    /**
      `handleFileSelect(files)`: the files that pass every check are added as
      one batch. When a file's compression never settles, neither does the
      call: nothing is added and `uploading` stays set.
     */
    method HandleFileSelect(files: seq<ImageFile>) returns (toasts: seq<Toast>)
      modifies this
      ensures Settles(files) ==>
        var batch := Encoded(files);
        && (if |old(images)| + |batch| > maxImages then images == old(images) && reported == old(reported)
            else images == old(images) + batch && reported == old(reported) + [images])
        && !uploading
        && toasts == Rejections(files) +
             (if |old(images)| + |batch| > maxImages then [MaxImagesAllowed(maxImages)]
              else if |batch| > 0 then [ImagesAdded(|batch|)] else [])
      ensures !Settles(files) ==>
        images == old(images) && reported == old(reported) && uploading
        && toasts == Rejections(files[..FirstStall(files)])
      ensures |old(images)| <= maxImages ==> |images| <= maxImages
      ensures urlInput == old(urlInput)
    {
      uploading := true;
      var newImages, rejected, settled := ProcessFiles(files);
      if !settled {
        return rejected;
      }
      var added := AddImages(newImages);
      toasts := rejected + (if added.Some? then [added.value] else []);
      uploading := false;
    }

    /**
      `handleUrlSubmit()`: a blank input is refused before the URL is looked
      at; otherwise the URL is added when the lookup found an image, and the
      input is cleared. `isImage` is the outcome of that lookup.
     */
    method HandleUrlSubmit(isImage: bool) returns (toasts: seq<Toast>)
      modifies this
      ensures IsBlank(old(urlInput)) ==>
        toasts == [EnterUrl] && images == old(images) && reported == old(reported)
        && urlInput == old(urlInput) && uploading == old(uploading)
      ensures !IsBlank(old(urlInput)) && !isImage ==>
        toasts == [InvalidUrl] && images == old(images) && reported == old(reported)
        && urlInput == old(urlInput) && !uploading
      ensures !IsBlank(old(urlInput)) && isImage ==>
        && (if |old(images)| + 1 > maxImages then images == old(images) && reported == old(reported)
            else images == old(images) + [old(urlInput)] && reported == old(reported) + [images])
        && urlInput == "" && !uploading
      ensures |old(images)| <= maxImages ==> |images| <= maxImages
    {
      if IsBlank(urlInput) {
        return [EnterUrl];
      }
      uploading := true;
      if !isImage {
        toasts := [InvalidUrl];
      } else {
        var added := AddImages([urlInput]);
        toasts := if added.Some? then [added.value] else [];
        urlInput := "";
      }
      uploading := false;
    }

    /** `handleRemoveImage(index)`: exactly the image at that position goes, and the new list is reported. */
    method RemoveImage(index: int)
      modifies this
      ensures images == WithoutIndex(old(images), index)
      ensures reported == old(reported) + [images]
      ensures |images| <= |old(images)|
      ensures uploading == old(uploading) && urlInput == old(urlInput)
    {
      images := WithoutIndex(images, index);
      reported := reported + [images];
    }

    /**
      The dropzone's `maxFiles`: the room left in the list, 0 or negative once
      it is full. It is positive exactly while the upload area is shown.
     */
    function DropLimit(): (n: int)
      reads this
      ensures n > 0 <==> ShowUploadArea()
      ensures n + |images| == maxImages
    {
      maxImages - |images|
    }

    /** The upload tabs are offered only while the list has room. */
    predicate ShowUploadArea()
      reads this
    {
      |images| < maxImages
    }

    /**
      Whether the dropzone lets a drop of `count` files through: react-dropzone
      treats a `maxFiles` of 0 or less as no limit at all.
     */
    predicate DropAdmits(count: nat)
      reads this
    {
      DropLimit() <= 0 || count <= DropLimit()
    }

    /**
      While the upload area is shown, a drop gets through exactly when it
      fits the room left; once the list is full the limit refuses nothing,
      and only the hidden upload area keeps files from being dropped.
     */
    lemma DropAdmitsMeaning(count: nat)
      ensures ShowUploadArea() ==> (DropAdmits(count) <==> |images| + count <= maxImages)
      ensures !ShowUploadArea() ==> DropAdmits(count)
    {
    }
  }

  /** Removing keeps every other image, in order. */
  lemma {:induction false} RemoveKeepsOthers<T>(s: seq<T>, index: int)
    requires 0 <= index < |s|
    ensures |WithoutIndex(s, index)| == |s| - 1
    ensures forall k :: 0 <= k < index ==> WithoutIndex(s, index)[k] == s[k]
    ensures forall k :: index < k < |s| ==> WithoutIndex(s, index)[k - 1] == s[k]
  {
  }
}
