// Photo validation and resizing (src/utils/imageProcessing.ts). Pixel sizes are
// reals, as JavaScript numbers; canvas drawing and WebP encoding are left out.
module ImageProcessing {
  import opened Wrappers

  const MaxImageFileSize := 10 * 1024 * 1024

  const AllowedImageTypes: seq<string> :=
    ["image/jpeg", "image/jpg", "image/png", "image/webp", "image/heic", "image/heif"]

  const UnsupportedFormat := "Formato não suportado. Use JPEG, PNG, WebP ou HEIC."
  const FileTooLarge := "Arquivo muito grande. Máximo: 10MB."

  /** validateImageFile: None when the file is accepted, otherwise the message shown. */
  function ValidateImageFile(mimeType: string, size: int): (r: Option<string>)
    ensures r.None? <==> mimeType in AllowedImageTypes && size <= MaxImageFileSize
    ensures mimeType !in AllowedImageTypes ==> r == Some(UnsupportedFormat)
    ensures mimeType in AllowedImageTypes && size > MaxImageFileSize ==> r == Some(FileTooLarge)
  {
    if mimeType !in AllowedImageTypes then Some(UnsupportedFormat)
    else if size > MaxImageFileSize then Some(FileTooLarge)
    else None
  }

  /** The limit itself is allowed, one byte more is not. */
  lemma ImageSizeBoundary()
    ensures ValidateImageFile("image/png", 10485760).None?
    ensures ValidateImageFile("image/png", 10485761) == Some(FileTooLarge)
    ensures ValidateImageFile("image/gif", 10485761) == Some(UnsupportedFormat)
  {
    assert AllowedImageTypes[2] == "image/png";
    assert "image/gif" !in AllowedImageTypes by {
      assert forall i :: 0 <= i < |AllowedImageTypes| ==> AllowedImageTypes[i][6] != 'g';
    }
  }

  /** `Math.round`: the nearest integer, halves rounded up. */
  function Round(x: real): (n: int)
    ensures x - 0.5 < n as real <= x + 0.5
  {
    (x + 0.5).Floor
  }

  /** The size calculateDimensions computes before rounding. */
  function ScaledSize(width: real, height: real, maxWidth: real, maxHeight: real): (r: (real, real))
    requires width > 0.0 && height > 0.0
    ensures !(width > maxWidth || height > maxHeight) ==> r == (width, height)
    ensures (width > maxWidth || height > maxHeight) && width > height ==> r.0 == maxWidth
    ensures (width > maxWidth || height > maxHeight) && width <= height ==> r.1 == maxHeight
    ensures r.0 * height == r.1 * width
  {
    if width > maxWidth || height > maxHeight then
      var aspectRatio := width / height;
      if width > height then (maxWidth, maxWidth / aspectRatio)
      else (maxHeight * aspectRatio, maxHeight)
    else (width, height)
  }

  /** calculateDimensions, with the image's own (positive) size. */
  method CalculateDimensions(width: real, height: real, maxWidth: real, maxHeight: real)
    returns (newW: int, newH: int)
    requires width > 0.0 && height > 0.0
    ensures newW == Round(ScaledSize(width, height, maxWidth, maxHeight).0)
    ensures newH == Round(ScaledSize(width, height, maxWidth, maxHeight).1)
  {
    var newWidth := width;
    var newHeight := height;
    if width > maxWidth || height > maxHeight {
      var aspectRatio := width / height;
      if width > height {
        newWidth := maxWidth;
        newHeight := maxWidth / aspectRatio;
      } else {
        newHeight := maxHeight;
        newWidth := maxHeight * aspectRatio;
      }
    }
    newW := Round(newWidth);
    newH := Round(newHeight);
  }

  /** Whole-pixel images that fit are returned unchanged. */
  lemma FittingImageUnchanged(width: int, height: int, maxWidth: real, maxHeight: real)
    requires width > 0 && height > 0
    requires width as real <= maxWidth && height as real <= maxHeight
    ensures var r := ScaledSize(width as real, height as real, maxWidth, maxHeight);
      Round(r.0) == width && Round(r.1) == height
  {
  }

  /** Under a square bound (what every caller passes) the result fits the bound. */
  lemma SquareBoundFits(width: real, height: real, m: real)
    requires width > 0.0 && height > 0.0 && m > 0.0
    ensures var r := ScaledSize(width, height, m, m); r.0 <= m && r.1 <= m
  {
    if width > m || height > m {
      if width > height {
        ShrinkByRatio(m, height, width);
      } else {
        GrowByRatio(m, width, height);
      }
    }
  }

  lemma ShrinkByRatio(m: real, a: real, b: real)
    requires m > 0.0 && 0.0 < a < b
    ensures m / (b / a) <= m
  {
    var q := b / a;
    assert q * a == b;
    assert q >= 1.0;
    assert (m / q) * q == m;
  }

  lemma GrowByRatio(m: real, a: real, b: real)
    requires m > 0.0 && 0.0 < a <= b
    ensures m * (a / b) <= m
  {
    var q := a / b;
    assert q * b == a;
    assert q <= 1.0;
  }

  /** Under a non-square bound the other side can overflow: 2000×1500 within 1920×1080
    * becomes 1920×1440. */
  lemma NonSquareBoundExample()
    ensures ScaledSize(2000.0, 1500.0, 1920.0, 1080.0) == (1920.0, 1440.0)
  {
  }
}
