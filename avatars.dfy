/**
 * The avatar fetcher, without its I/O: the data URL that the host produced
 * from a fetched avatar image is split into its MIME type and its base64
 * payload, and a failed fetch becomes `None`.
 */
module Avatars {
  import opened Wrappers
  import opened Strings
  import opened Chat

  datatype Role = UserRole | CharacterRole

  /** A reference image: MIME type, base64 payload, whose avatar it is, display name. */
  datatype Avatar = Avatar(mimeType: string, data: string, role: Role, name: string)

  /** `data:<mime>;base64,<payload>`: the form of every image URL the request carries. */
  function DataUrl(mimeType: string, data: string): string {
    "data:" + mimeType + ";base64," + data
  }

  /** `s.split(',')[1]`: the text between the first and a second comma; `None` when `s` has no comma. */
  function SecondField(s: string): (r: Option<string>)
    ensures r.None? <==> ',' !in s
    ensures r.Some? ==> ',' !in r.value
  {
    var f := TakeUntil(s, ',');
    if |f| == |s| then None else Some(TakeUntil(s[|f| + 1..], ','))
  }

  /**
   * The capture group of `/data:([^;]+)/` matched against `h`: at the
   * leftmost `data:` that is followed by a character other than `;`, the
   * longest run of characters other than `;`.
   */
  function MimeMatch(h: string): (r: Option<string>)
    ensures r.Some? ==> r.value != "" && ';' !in r.value
    decreases |h|
  {
    if |h| > 5 && StartsWith(h, "data:") && h[5] != ';' then Some(TakeUntil(h[5..], ';'))
    else if |h| == 0 then None
    else MimeMatch(h[1..])
  }

  /** The MIME type the avatar getters read from a data URL, `image/png` when none is found. */
  function MimeTypeOf(dataUrl: string): (r: string)
    ensures r != ""
    ensures MimeMatch(TakeUntil(dataUrl, ',')).Some? ==> r == MimeMatch(TakeUntil(dataUrl, ',')).value
    ensures MimeMatch(TakeUntil(dataUrl, ',')).None? ==> r == "image/png"
  {
    OrDefault(MimeMatch(TakeUntil(dataUrl, ',')), "image/png")
  }

  /**
   * The payload the avatar getters read from a data URL: `parts[1] || base64`,
   * so the whole URL when it has no comma or nothing after the first one.
   */
  function PayloadOf(dataUrl: string): (r: string)
    ensures ',' !in dataUrl ==> r == dataUrl
    ensures ',' in r ==> r == dataUrl
  {
    OrDefault(SecondField(dataUrl), dataUrl)
  }

  /** The avatar built from the data URL of a fetched image. */
  function AvatarFromDataUrl(dataUrl: string, role: Role, name: string): (a: Avatar)
    ensures a.mimeType != "" && a.role == role && a.name == name
  {
    Avatar(MimeTypeOf(dataUrl), PayloadOf(dataUrl), role, name)
  }

  /**
   * `getUserAvatar`. `avatarPath` is the host's URL for the user's avatar;
   * `fetched` is the data URL read from the response when fetching it
   * succeeded, `None` when the request threw or its status was not ok.
   */
  function UserAvatar(h: Host, avatarPath: Option<string>, fetched: Option<string>): (r: Option<Avatar>)
    ensures r.Some? <==> Given(avatarPath) && fetched.Some?
    ensures r.Some? ==> r.value.role == UserRole && r.value.name == UserName(h)
                        && r.value.mimeType == MimeTypeOf(fetched.value)
                        && r.value.data == PayloadOf(fetched.value)
  {
    if !Given(avatarPath) then None
    else match fetched
         case None => None
         case Some(url) => Some(AvatarFromDataUrl(url, UserRole, UserName(h)))
  }

  /**
   * `getCharacterAvatar`: nothing unless the current character has an
   * avatar file; `fetched` is as for `UserAvatar`.
   */
  function CharacterAvatar(h: Host, fetched: Option<string>): (r: Option<Avatar>)
    ensures r.Some? <==> h.character.Some? && Given(h.character.value.avatar) && fetched.Some?
    ensures r.Some? ==> r.value.role == CharacterRole && r.value.name == CharName(h)
                        && r.value.mimeType == MimeTypeOf(fetched.value)
                        && r.value.data == PayloadOf(fetched.value)
  {
    if h.character.None? || !Given(h.character.value.avatar) then None
    else match fetched
         case None => None
         case Some(url) => Some(AvatarFromDataUrl(url, CharacterRole, CharName(h)))
  }

  /** A match is only found where `data:` occurs. */
  lemma {:induction false} MimeMatchNeedsPrefix(h: string)
    requires MimeMatch(h).Some?
    ensures Contains(h, "data:")
    decreases |h|
  {
    if !(|h| > 5 && StartsWith(h, "data:") && h[5] != ';') {
      MimeMatchNeedsPrefix(h[1..]);
    }
  }

  /** Without `data:` before the first comma the MIME type falls back to `image/png`. */
  lemma MimeTypeFallback(dataUrl: string)
    requires !Contains(TakeUntil(dataUrl, ','), "data:")
    ensures MimeTypeOf(dataUrl) == "image/png"
  {
    if MimeMatch(TakeUntil(dataUrl, ',')).Some? {
      MimeMatchNeedsPrefix(TakeUntil(dataUrl, ','));
    }
  }

  /** The text before the first comma of a data URL is its header. */
  lemma DataUrlHeader(mimeType: string, data: string)
    requires ',' !in mimeType
    ensures TakeUntil(DataUrl(mimeType, data), ',') == "data:" + mimeType + ";base64"
    ensures DataUrl(mimeType, data)[|"data:" + mimeType + ";base64"| + 1..] == data
  {
    var head := "data:" + mimeType + ";base64";
    assert DataUrl(mimeType, data) == head + [','] + data;
    assert ',' !in head;
    TakeUntilSeparator(head, ',', data);
  }

  lemma MimeOfHeader(mimeType: string)
    requires mimeType != "" && ';' !in mimeType
    ensures MimeMatch("data:" + mimeType + ";base64") == Some(mimeType)
  {
    var head := "data:" + mimeType + ";base64";
    assert StartsWith(head, "data:") && head[5] == mimeType[0];
    assert head[5..] == mimeType + [';'] + "base64";
    TakeUntilSeparator(mimeType, ';', "base64");
  }

  /**
   * Splitting a well-formed data URL gives back its MIME type and payload:
   * the split the avatar getters perform inverts `DataUrl`.
   */
  lemma DataUrlRoundTrip(mimeType: string, data: string)
    requires mimeType != "" && ';' !in mimeType && ',' !in mimeType
    requires data != "" && ',' !in data
    ensures MimeTypeOf(DataUrl(mimeType, data)) == mimeType
    ensures PayloadOf(DataUrl(mimeType, data)) == data
  {
    DataUrlHeader(mimeType, data);
    MimeOfHeader(mimeType);
    TakeUntilWhole(data, ',');
  }
}
