/** The media payload of a multipart upload: a photo or a video and its metadata. */
module Media {
  import opened Wrappers
  import opened Text
  import opened Utf8

  datatype MediaType = Photo | Video

  /** The MIME type, the enum's raw value. */
  function MimeType(t: MediaType): (r: string)
    ensures r == "image/jpeg" <==> t == Photo
    ensures r == "video/mp4" <==> t == Video
  {
    match t
    case Photo => "image/jpeg"
    case Video => "video/mp4"
  }

  /** The name of the profile field the media is uploaded for. */
  function Target(t: MediaType): (r: string)
    ensures r == "profileImage" <==> t == Photo
    ensures r == "profileVideo" <==> t == Video
  {
    match t
    case Photo => "profileImage"
    case Video => "profileVideo"
  }

  /** The stem and extension of the generated file names of each media type. */
  function FilePrefix(t: MediaType): string {
    match t
    case Photo => "ImageFile"
    case Video => "VideoFile"
  }

  function FileExtension(t: MediaType): string {
    match t
    case Photo => ".jpg"
    case Video => ".mp4"
  }

  /**
   * `getFileName`: the stem, the whole seconds since 1970 as an Int, the extension.
   * The clock reading is passed in.
   */
  function FileName(t: MediaType, secondsSince1970: int): (r: string)
    ensures FilePrefix(t) <= r && |r| >= |FilePrefix(t)| + |FileExtension(t)|
    ensures r[|r| - |FileExtension(t)|..] == FileExtension(t)
    ensures r[|FilePrefix(t)|..|r| - |FileExtension(t)|] == IntText(secondsSince1970)
  {
    var stamp := IntText(secondsSince1970);
    var r := FilePrefix(t) + stamp + FileExtension(t);
    assert r[|FilePrefix(t)|..|r| - |FileExtension(t)|] == stamp;
    r
  }

  /** The timestamp can be read back from a generated file name. */
  lemma FileNameTimestamp(t: MediaType, secondsSince1970: int)
    ensures var r := FileName(t, secondsSince1970);
      var stamp := r[|FilePrefix(t)|..|r| - |FileExtension(t)|];
      (secondsSince1970 < 0 ==> stamp[0] == '-' && -ParseDigits(stamp[1..]) == secondsSince1970) &&
      (secondsSince1970 >= 0 ==> ParseDigits(stamp) == secondsSince1970)
  {
    IntTextRoundTrip(secondsSince1970);
  }

  datatype Media = Media(key: string, filename: string, data: seq<Byte>, mimeType: string, isCover: bool)

  /**
   * `Media.init?`. The file name embeds the text of the current date (`now`), passed
   * in; although declared failable, the initialiser always succeeds.
   */
  function NewMedia(data: seq<Byte>, key: string, mediaType: MediaType, isCover: bool, now: string): (r: Option<Media>)
    ensures r.Some?
    ensures r.value.key == key && r.value.data == data && r.value.isCover == isCover
    ensures r.value.mimeType == MimeType(mediaType)
    ensures FilePrefix(mediaType) + now + FileExtension(mediaType) == r.value.filename
  {
    Some(Media(key, FilePrefix(mediaType) + now + FileExtension(mediaType), data, MimeType(mediaType), isCover))
  }

  /** The file extension always agrees with the MIME type. */
  lemma NewMediaExtensionMatchesMimeType(data: seq<Byte>, key: string, mediaType: MediaType, isCover: bool, now: string)
    ensures var m := NewMedia(data, key, mediaType, isCover, now).value;
      |m.filename| >= 4 &&
      (m.filename[|m.filename| - 4..] == ".jpg" <==> m.mimeType == "image/jpeg") &&
      (m.filename[|m.filename| - 4..] == ".mp4" <==> m.mimeType == "video/mp4")
  {
    var m := NewMedia(data, key, mediaType, isCover, now).value;
    assert m.filename[|m.filename| - 4..] == FileExtension(mediaType);
  }
}
