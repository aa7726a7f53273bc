/**
 * The texture loader's choice of pixel format: the decoder reports how many
 * channels the image has, and the loader picks the matching single-channel,
 * RGB or RGBA format for both the source data and the texture's storage.
 */
module Texture {

  datatype Option<T> = None | Some(value: T)

  datatype PixelFormat = Red | Rgb | Rgba

  /** Bytes per pixel the format reads from the client buffer (one byte per channel). */
  function Channels(f: PixelFormat): nat {
    match f
    case Red => 1
    case Rgb => 3
    case Rgba => 4
  }

  /** The `format` and `internalformat` arguments of the texture upload. */
  datatype Formats = Formats(format: PixelFormat, internalFormat: PixelFormat)

  /** What the image decoder returns on success. */
  datatype Decoded = Decoded(width: int, height: int, nrComponents: int)

  /** The arguments of the one texture-image upload the loader issues. */
  datatype Upload = Upload(internalFormat: PixelFormat, width: int, height: int, format: PixelFormat)

  /** One channel is RED, three are RGB, and every other count is RGBA; both formats always agree. */
  function SelectFormats(nrComponents: int): (r: Formats)
    ensures r.internalFormat == r.format
    ensures r.format == Red <==> nrComponents == 1
    ensures r.format == Rgb <==> nrComponents == 3
    ensures r.format == Rgba <==> nrComponents != 1 && nrComponents != 3
  {
    if nrComponents == 1 then Formats(Red, Red)
    else if nrComponents == 3 then Formats(Rgb, Rgb)
    else Formats(Rgba, Rgba)
  }

  /** For the channel counts 1, 3 and 4 the chosen format reads exactly the decoded channels. */
  lemma FormatMatchesChannels(nrComponents: int)
    requires nrComponents == 1 || nrComponents == 3 || nrComponents == 4
    ensures Channels(SelectFormats(nrComponents).format) == nrComponents
  {
  }

  /**
   * Every count other than 1 and 3 is read as four channels, so a
   * grey-with-alpha image (two channels) is uploaded as RGBA.
   */
  lemma OtherCountsReadAsFour(nrComponents: int)
    requires nrComponents != 1 && nrComponents != 3
    ensures Channels(SelectFormats(nrComponents).format) == 4
  {
  }

  /**
   * `loadTex` after decoding: an image that decoded is uploaded once with
   * its own size and the formats chosen from its channel count; one that
   * did not decode uploads nothing (the loader only reports the path).
   */
  function LoadTex(decoded: Option<Decoded>): (r: Option<Upload>)
    ensures r.Some? <==> decoded.Some?
    ensures decoded.Some? ==>
      var d, u := decoded.value, r.value;
      u.width == d.width && u.height == d.height && u.internalFormat == u.format &&
      u.format == SelectFormats(d.nrComponents).format &&
      (d.nrComponents != 1 && d.nrComponents != 3 ==> u.format == Rgba) &&
      (d.nrComponents == 1 || d.nrComponents == 3 || d.nrComponents == 4 ==> Channels(u.format) == d.nrComponents)
  {
    match decoded
    case None => None
    case Some(d) =>
      var f := SelectFormats(d.nrComponents);
      Some(Upload(f.internalFormat, d.width, d.height, f.format))
  }
}
