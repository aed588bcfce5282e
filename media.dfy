/**
 * The bookkeeping `cigMessageButton` does on a chat message once an image
 * generated from it is saved: the message's `extra` object gets a media
 * attachment, and the attachment becomes the one shown, inline.
 */
module Media {
  import opened Wrappers
  import opened Strings

  const MaxTitleLength: nat := 100

  /** The host's `MEDIA_TYPE` and `MEDIA_SOURCE` values used here. */
  datatype MediaType = ImageMedia
  datatype MediaSource = GeneratedMedia

  /** `MEDIA_DISPLAY.GALLERY`, the display mode set when none is. */
  const GalleryDisplay: string := "gallery"

  datatype MediaAttachment = MediaAttachment(url: string, mediaType: MediaType, title: string, source: MediaSource)

  /**
   * The keys of a message's `extra` object used here. `media` is None when
   * the key is missing or does not hold an array; `mediaDisplay` is None
   * when the key is missing.
   */
  datatype Extra = Extra(media: Option<seq<MediaAttachment>>, mediaDisplay: Option<string>,
                         mediaIndex: Option<int>, inlineImage: bool)

  /** The attachment for an image saved at `filePath`, titled by its prompt. */
  function Attachment(filePath: string, prompt: string): (r: MediaAttachment)
    ensures |r.title| == (if |prompt| < MaxTitleLength then |prompt| else MaxTitleLength)
    ensures StartsWith(prompt, r.title)
    ensures |prompt| <= MaxTitleLength ==> r.title == prompt
    ensures r.url == filePath && r.mediaType == ImageMedia && r.source == GeneratedMedia
  {
    MediaAttachment(filePath, ImageMedia, Truncate(prompt, MaxTitleLength), GeneratedMedia)
  }

  /** The attachments a message already has; an `extra` that is missing or not an object has none. */
  function ExistingMedia(extra: Option<Extra>): seq<MediaAttachment> {
    if extra.Some? && extra.value.media.Some? then extra.value.media.value else []
  }

  /**
   * The message's `extra` after the attachment is added: the new
   * attachment is last and is the one `mediaIndex` selects, the earlier
   * ones are kept in order, and a display mode already set is kept.
   */
  function Attached(extra: Option<Extra>, a: MediaAttachment): (r: Extra)
    ensures r.media.Some? && r.mediaIndex.Some?
    ensures r.media.value == ExistingMedia(extra) + [a]
    ensures 0 <= r.mediaIndex.value < |r.media.value| && r.media.value[r.mediaIndex.value] == a
    ensures r.inlineImage
    ensures extra.Some? && Given(extra.value.mediaDisplay) ==> r.mediaDisplay == extra.value.mediaDisplay
    ensures !(extra.Some? && Given(extra.value.mediaDisplay)) ==> r.mediaDisplay == Some(GalleryDisplay)
  {
    var media := ExistingMedia(extra) + [a];
    var display := if extra.Some? && Given(extra.value.mediaDisplay) then extra.value.mediaDisplay else Some(GalleryDisplay);
    Extra(Some(media), display, Some(|media| - 1), true)
  }

  /** Each generated image adds exactly one attachment and selects it. */
  lemma AttachedTwice(extra: Option<Extra>, a: MediaAttachment, b: MediaAttachment)
    ensures var twice := Attached(Some(Attached(extra, a)), b);
            && twice.media.value == ExistingMedia(extra) + [a, b]
            && twice.mediaIndex == Some(|ExistingMedia(extra)| + 1)
            && twice.mediaDisplay == Attached(extra, a).mediaDisplay
  {
    var once := Attached(extra, a);
    assert ExistingMedia(Some(once)) == ExistingMedia(extra) + [a];
    assert (ExistingMedia(extra) + [a]) + [b] == ExistingMedia(extra) + [a, b];
  }

  /** A chat message, whose `extra` object the bookkeeping updates in place. */
  class ChatEntry {
    var mes: string
    var extra: Option<Extra>

    constructor(mes: string, extra: Option<Extra>)
      ensures this.mes == mes && this.extra == extra
    {
      this.mes := mes;
      this.extra := extra;
    }

    /** Records the image saved at `filePath` as generated from this message's text. */
    method AddGeneratedImage(filePath: string)
      modifies this
      ensures extra == Some(Attached(old(extra), Attachment(filePath, old(mes))))
      ensures mes == old(mes)
    {
      if extra.None? {
        extra := Some(Extra(None, None, None, false));
      }
      if extra.value.media.None? {
        extra := Some(extra.value.(media := Some([])));
      }
      if !Given(extra.value.mediaDisplay) {
        extra := Some(extra.value.(mediaDisplay := Some(GalleryDisplay)));
      }
      var attachment := MediaAttachment(filePath, ImageMedia, Truncate(mes, MaxTitleLength), GeneratedMedia);
      extra := Some(extra.value.(media := Some(extra.value.media.value + [attachment])));
      extra := Some(extra.value.(mediaIndex := Some(|extra.value.media.value| - 1)));
      extra := Some(extra.value.(inlineImage := true));
    }
  }
}
