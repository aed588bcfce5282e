/**
 * `buildMessages`: the single user message of an image request, its
 * content parts in a fixed order: system instruction, descriptions, the
 * story context or prompt, the previous image, the avatars.
 */
module Assembly {
  import opened Wrappers
  import opened Strings
  import opened Chat
  import opened Avatars
  import opened Settings
  import opened Gallery

  datatype ContentPart = Text(text: string) | ImageUrl(url: string)

  datatype Message = Message(role: string, content: seq<ContentPart>)

  const StoryHeader := "[Story Context - Generate an image " + "for the final message]:\n\n"
  const PreviousImageLabel := "[Reference: Previously generated " + "image for style consistency]"
  const CharAvatarLabel := "[Reference image for {{char}}]"
  const UserAvatarLabel := "[Reference image for {{user}}]"

  // ---------------------------------------------------------------------
  // The pieces of text the request is made of.
  // ---------------------------------------------------------------------

  function PersonaLine(userName: string, persona: string): string {
    "[" + userName + " (User) Description]: " + persona + "\n\n"
  }

  function CharDescriptionLine(charName: string, description: string): string {
    "[" + charName + " (Character) Description]: " + description + "\n\n"
  }

  function ScenarioLine(scenario: string): string {
    "[Current Scenario]: " + scenario + "\n\n"
  }

  /** The description block before trimming: one line per non-empty field, in this order. */
  function DescriptionText(d: Descriptions): string {
    var withPersona := if d.userPersona != "" then "" + PersonaLine(d.userName, d.userPersona) else "";
    var withCard := if d.charDescription != "" then withPersona + CharDescriptionLine(d.charName, d.charDescription)
                    else withPersona;
    if d.charScenario != "" then withCard + ScenarioLine(d.charScenario) else withCard
  }

  function SenderTag(isUser: bool): string {
    if isUser then "{{user}}" else "{{char}}"
  }

  /** One chat message in the story context. */
  function StoryLine(m: Snapshot): string {
    "[" + SenderTag(m.isUser) + " (" + m.name + ")]: " + m.text + "\n\n"
  }

  /** The story lines of `ms`, oldest first. */
  function StoryLines(ms: seq<Snapshot>): string
    decreases |ms|
  {
    if ms == [] then "" else StoryLines(ms[..|ms| - 1]) + StoryLine(ms[|ms| - 1])
  }

  function MessageFrom(sender: string, prompt: string): string {
    "[Message from " + sender + "]: " + prompt
  }

  // ---------------------------------------------------------------------
  // The content parts, group by group.
  // ---------------------------------------------------------------------

  function SystemParts(s: Settings): seq<ContentPart> {
    if s.systemInstruction != "" then [Text(s.systemInstruction)] else []
  }

  function DescriptionParts(s: Settings, h: Host): seq<ContentPart> {
    var text := DescriptionText(CharacterDescriptions(h));
    if s.includeDescriptions && text != "" then [Text(Trim(text))] else []
  }

  /** `settings.message_depth || 1`. */
  function Depth(s: Settings): int {
    if s.messageDepth == 0 then 1 else s.messageDepth
  }

  /**
   * The part that carries what to draw. A request without a sender and
   * without a message id (the slash command) sends the bare prompt; any
   * other request sends the recent chat as story context, or, when the
   * chat offers no message, the prompt tagged with its sender.
   */
  function PrimaryText(s: Settings, h: Host, prompt: string, sender: Option<string>, messageId: Option<int>): string
    requires FromInRange(h.chat, messageId)
  {
    if messageId.Some? || sender.Some? then
      var recent := Recent(h, Depth(s), messageId);
      if |recent| > 0 then Trim(StoryHeader + StoryLines(recent))
      else if Given(sender) then MessageFrom(sender.value, prompt)
      else prompt
    else prompt
  }

  function PreviousImageParts(s: Settings, gallery: seq<GalleryEntry>): seq<ContentPart> {
    if s.usePreviousImage && |gallery| > 0 then
      [Text(PreviousImageLabel), ImageUrl(DataUrl("image/png", gallery[0].imageData))]
    else []
  }

  function AvatarPair(a: Option<Avatar>, caption: string): seq<ContentPart> {
    match a
    case None => []
    case Some(av) => [Text(caption), ImageUrl(DataUrl(av.mimeType, av.data))]
  }

  /** The character's avatar comes before the user's. */
  function AvatarParts(s: Settings, userAvatar: Option<Avatar>, charAvatar: Option<Avatar>): seq<ContentPart> {
    if s.useAvatars then AvatarPair(charAvatar, CharAvatarLabel) + AvatarPair(userAvatar, UserAvatarLabel)
    else []
  }

  /** The order of the groups of parts, given the description part and the prompt text. */
  function Layout(s: Settings, descriptionParts: seq<ContentPart>, primary: string, gallery: seq<GalleryEntry>,
                  userAvatar: Option<Avatar>, charAvatar: Option<Avatar>): seq<ContentPart> {
    SystemParts(s) + descriptionParts + [Text(primary)]
    + PreviousImageParts(s, gallery) + AvatarParts(s, userAvatar, charAvatar)
  }

  /**
   * The content of the request's message. `userAvatar` and `charAvatar`
   * are what `Avatars.UserAvatar` and `Avatars.CharacterAvatar` returned.
   */
  function ContentParts(s: Settings, h: Host, gallery: seq<GalleryEntry>, userAvatar: Option<Avatar>,
                        charAvatar: Option<Avatar>, prompt: string, sender: Option<string>,
                        messageId: Option<int>): seq<ContentPart>
    requires FromInRange(h.chat, messageId)
  {
    Layout(s, DescriptionParts(s, h), PrimaryText(s, h, prompt, sender, messageId), gallery, userAvatar, charAvatar)
  }

  // ---------------------------------------------------------------------
  // `buildMessages` itself.
  // ---------------------------------------------------------------------

  lemma StoryLinesStep(ms: seq<Snapshot>, i: nat)
    requires i < |ms|
    ensures StoryLines(ms[..i + 1]) == StoryLines(ms[..i]) + StoryLine(ms[i])
  {
    assert ms[..i + 1][..i] == ms[..i];
  }

  /**
   * The description block of `buildMessages`: the text is accumulated one
   * optional line after another and pushed, trimmed, when it is not empty.
   */
  method PushDescriptions(contentParts: seq<ContentPart>, s: Settings, h: Host) returns (r: seq<ContentPart>)
    ensures r == contentParts + DescriptionParts(s, h)
  {
    r := contentParts;
    if s.includeDescriptions {
      var descriptions := CharacterDescriptions(h);
      var descText := "";
      if descriptions.userPersona != "" {
        descText := descText + PersonaLine(descriptions.userName, descriptions.userPersona);
      }
      if descriptions.charDescription != "" {
        descText := descText + CharDescriptionLine(descriptions.charName, descriptions.charDescription);
      }
      if descriptions.charScenario != "" {
        descText := descText + ScenarioLine(descriptions.charScenario);
      }
      assert descText == DescriptionText(descriptions);
      if descText != "" {
        r := r + [Text(Trim(descText))];
      }
    }
  }

  /** The previous-image block of `buildMessages`: the newest gallery image, after its caption. */
  method PushPreviousImage(contentParts: seq<ContentPart>, s: Settings, gallery: seq<GalleryEntry>)
    returns (r: seq<ContentPart>)
    ensures r == contentParts + PreviousImageParts(s, gallery)
  {
    r := contentParts;
    if s.usePreviousImage && |gallery| > 0 {
      var lastImage := gallery[0];
      r := r + [Text(PreviousImageLabel), ImageUrl(DataUrl("image/png", lastImage.imageData))];
    }
  }

  /** The story-context block: the header, then one line per message, oldest first. */
  method StoryContext(recentMessages: seq<Snapshot>) returns (storyContext: string)
    ensures storyContext == StoryHeader + StoryLines(recentMessages)
  {
    storyContext := StoryHeader;
    ghost var header := storyContext;
    for i := 0 to |recentMessages|
      invariant storyContext == header + StoryLines(recentMessages[..i])
    {
      StoryLinesStep(recentMessages, i);
      AppendAssoc(header, StoryLines(recentMessages[..i]), StoryLine(recentMessages[i]));
      storyContext := storyContext + StoryLine(recentMessages[i]);
    }
    assert recentMessages[..|recentMessages|] == recentMessages;
  }

  /** The branch of `buildMessages` that chooses between story context and prompt. */
  method PrimaryPart(s: Settings, h: Host, prompt: string, sender: Option<string>, messageId: Option<int>)
    returns (primary: string)
    requires FromInRange(h.chat, messageId)
    ensures primary == PrimaryText(s, h, prompt, sender, messageId)
  {
    var depth := if s.messageDepth == 0 then 1 else s.messageDepth;
    if messageId.Some? || sender.Some? {
      var recentMessages := RecentMessages(h, depth, messageId);
      if |recentMessages| > 0 {
        var storyContext := StoryContext(recentMessages);
        primary := Trim(storyContext);
      } else if sender.Some? && sender.value != "" {
        primary := MessageFrom(sender.value, prompt);
      } else {
        primary := prompt;
      }
    } else {
      primary := prompt;
    }
  }

  /** The avatar block of `buildMessages`: the character's label and image, then the user's. */
  method PushAvatars(contentParts: seq<ContentPart>, s: Settings, userAvatar: Option<Avatar>,
                     charAvatar: Option<Avatar>) returns (r: seq<ContentPart>)
    ensures r == contentParts + AvatarParts(s, userAvatar, charAvatar)
  {
    r := contentParts;
    if !s.useAvatars {
      assert r == contentParts + [];
      return;
    }
    if charAvatar.Some? {
      r := r + [Text(CharAvatarLabel), ImageUrl(DataUrl(charAvatar.value.mimeType, charAvatar.value.data))];
    }
    ghost var withChar := r;
    if userAvatar.Some? {
      r := r + [Text(UserAvatarLabel), ImageUrl(DataUrl(userAvatar.value.mimeType, userAvatar.value.data))];
    }
    assert r == withChar + AvatarPair(userAvatar, UserAvatarLabel);
    AppendAssoc(contentParts, AvatarPair(charAvatar, CharAvatarLabel), AvatarPair(userAvatar, UserAvatarLabel));
  }

  /**
   * Builds the message list part by part as the source does, with the
   * story context accumulated line by line.
   */
  method BuildMessages(s: Settings, h: Host, gallery: seq<GalleryEntry>, userAvatar: Option<Avatar>,
                       charAvatar: Option<Avatar>, prompt: string, sender: Option<string>,
                       messageId: Option<int>) returns (messages: seq<Message>)
    requires FromInRange(h.chat, messageId)
    ensures messages == [Message("user", ContentParts(s, h, gallery, userAvatar, charAvatar, prompt, sender, messageId))]
  {
    var contentParts: seq<ContentPart> := [];
    if s.systemInstruction != "" {
      contentParts := contentParts + [Text(s.systemInstruction)];
    }
    assert contentParts == SystemParts(s);
    contentParts := PushDescriptions(contentParts, s, h);
    var primary := PrimaryPart(s, h, prompt, sender, messageId);
    contentParts := contentParts + [Text(primary)];
    contentParts := PushPreviousImage(contentParts, s, gallery);
    contentParts := PushAvatars(contentParts, s, userAvatar, charAvatar);
    messages := [Message("user", contentParts)];
  }


  // ---------------------------------------------------------------------
  // What the request's content promises.
  // ---------------------------------------------------------------------

  /** The image URLs among `parts`, in order. */
  function Images(parts: seq<ContentPart>): seq<string>
    decreases |parts|
  {
    if parts == [] then []
    else (if parts[0].ImageUrl? then [parts[0].url] else []) + Images(parts[1..])
  }

  lemma {:induction false} ImagesAppend(a: seq<ContentPart>, b: seq<ContentPart>)
    ensures Images(a + b) == Images(a) + Images(b)
    decreases |a|
  {
    if a != [] {
      assert (a + b)[1..] == a[1..] + b;
      ImagesAppend(a[1..], b);
    } else {
      assert a + b == b;
    }
  }

  predicate AllText(parts: seq<ContentPart>) {
    forall i :: 0 <= i < |parts| ==> parts[i].Text?
  }

  lemma {:induction false} ImagesOfText(parts: seq<ContentPart>)
    requires AllText(parts)
    ensures Images(parts) == []
    decreases |parts|
  {
    if parts != [] {
      ImagesOfText(parts[1..]);
    }
  }

  /** The image of a text part followed by an image part. */
  lemma ImagesOfPair(t: string, url: string)
    ensures Images([Text(t), ImageUrl(url)]) == [url]
  {
    var pair := [Text(t), ImageUrl(url)];
    assert pair[1..] == [ImageUrl(url)];
    assert pair[1..][1..] == [];
    assert Images(pair[1..][1..]) == [];
    assert Images(pair[1..]) == [url];
  }

  function AvatarImage(a: Option<Avatar>): seq<string> {
    if a.Some? then [DataUrl(a.value.mimeType, a.value.data)] else []
  }

  /** The description group is at most one text part. */
  lemma DescriptionPartsShape(s: Settings, h: Host)
    ensures |DescriptionParts(s, h)| <= 1 && AllText(DescriptionParts(s, h))
    ensures var d := CharacterDescriptions(h);
            |DescriptionParts(s, h)| == 1
            <==> s.includeDescriptions && (d.userPersona != "" || d.charDescription != "" || d.charScenario != "")
  {
    var d := CharacterDescriptions(h);
    var text := DescriptionText(d);
    if d.userPersona != "" || d.charDescription != "" || d.charScenario != "" {
      assert text[0] == '[';
    }
  }

  lemma ImagesOfGroups(sys: seq<ContentPart>, desc: seq<ContentPart>, text: seq<ContentPart>,
                       prev: seq<ContentPart>, av: seq<ContentPart>)
    requires AllText(sys) && AllText(desc) && AllText(text)
    ensures Images(sys + desc + text + prev + av) == Images(prev) + Images(av)
  {
    ImagesOfText(sys);
    ImagesOfText(desc);
    ImagesOfText(text);
    ImagesAppend(sys, desc);
    ImagesAppend(sys + desc, text);
    ImagesAppend(sys + desc + text, prev);
    ImagesAppend(sys + desc + text + prev, av);
  }

  lemma ImagesOfPrevious(s: Settings, gallery: seq<GalleryEntry>)
    ensures Images(PreviousImageParts(s, gallery))
            == if s.usePreviousImage && |gallery| > 0 then [DataUrl("image/png", gallery[0].imageData)] else []
  {
    if s.usePreviousImage && |gallery| > 0 {
      ImagesOfPair(PreviousImageLabel, DataUrl("image/png", gallery[0].imageData));
    }
  }

  lemma ImagesOfAvatarPair(a: Option<Avatar>, caption: string)
    ensures Images(AvatarPair(a, caption)) == AvatarImage(a)
  {
    if a.Some? {
      ImagesOfPair(caption, DataUrl(a.value.mimeType, a.value.data));
    }
  }

  lemma ImagesOfAvatars(s: Settings, userAvatar: Option<Avatar>, charAvatar: Option<Avatar>)
    ensures Images(AvatarParts(s, userAvatar, charAvatar))
            == if s.useAvatars then AvatarImage(charAvatar) + AvatarImage(userAvatar) else []
  {
    var cp, up := AvatarPair(charAvatar, CharAvatarLabel), AvatarPair(userAvatar, UserAvatarLabel);
    ImagesOfAvatarPair(charAvatar, CharAvatarLabel);
    ImagesOfAvatarPair(userAvatar, UserAvatarLabel);
    ImagesAppend(cp, up);
  }

  /**
   * The request carries exactly these images, in this order: the newest
   * gallery image when previous images are enabled and the gallery is not
   * empty; then, when avatars are enabled, the character's avatar and the
   * user's avatar, each only if it could be fetched. A missing avatar
   * leaves the others where they are.
   */
  lemma LayoutImages(s: Settings, desc: seq<ContentPart>, primary: string, gallery: seq<GalleryEntry>,
                     userAvatar: Option<Avatar>, charAvatar: Option<Avatar>)
    requires AllText(desc)
    ensures Images(Layout(s, desc, primary, gallery, userAvatar, charAvatar))
            == (if s.usePreviousImage && |gallery| > 0 then [DataUrl("image/png", gallery[0].imageData)] else [])
               + (if s.useAvatars then AvatarImage(charAvatar) + AvatarImage(userAvatar) else [])
  {
    ImagesOfGroups(SystemParts(s), desc, [Text(primary)], PreviousImageParts(s, gallery),
                   AvatarParts(s, userAvatar, charAvatar));
    ImagesOfPrevious(s, gallery);
    ImagesOfAvatars(s, userAvatar, charAvatar);
  }

  /**
   * The captioned images of `parts`: for every image part that comes right
   * after a text part, the text of that part and the image's URL, in order.
   */
  function Captioned(parts: seq<ContentPart>): seq<(string, string)>
    decreases |parts|
  {
    if |parts| < 2 then []
    else (if parts[0].Text? && parts[1].ImageUrl? then [(parts[0].text, parts[1].url)] else [])
         + Captioned(parts[1..])
  }

  /** Each reference as its caption part followed by its image part. */
  function Pairs(refs: seq<(string, string)>): seq<ContentPart>
    decreases |refs|
  {
    if refs == [] then [] else [Text(refs[0].0), ImageUrl(refs[0].1)] + Pairs(refs[1..])
  }

  function AvatarReference(a: Option<Avatar>, caption: string): seq<(string, string)> {
    if a.Some? then [(caption, DataUrl(a.value.mimeType, a.value.data))] else []
  }

  /**
   * The reference images a request carries, each with the caption that
   * introduces it: the newest gallery image when previous images are on
   * and the gallery is not empty; then, when avatars are on, the
   * character's avatar and the user's avatar, each only if it was fetched.
   */
  function References(s: Settings, gallery: seq<GalleryEntry>, userAvatar: Option<Avatar>,
                      charAvatar: Option<Avatar>): seq<(string, string)> {
    (if s.usePreviousImage && |gallery| > 0
     then [(PreviousImageLabel, DataUrl("image/png", gallery[0].imageData))] else [])
    + (if s.useAvatars
       then AvatarReference(charAvatar, CharAvatarLabel) + AvatarReference(userAvatar, UserAvatarLabel)
       else [])
  }

  lemma {:induction false} PairsAppend(a: seq<(string, string)>, b: seq<(string, string)>)
    ensures Pairs(a + b) == Pairs(a) + Pairs(b)
    decreases |a|
  {
    if a != [] {
      assert (a + b)[1..] == a[1..] + b;
      PairsAppend(a[1..], b);
    } else {
      assert a + b == b;
    }
  }

  /** Reading the captions back from the pairs gives the references. */
  lemma {:induction false} CaptionedPairs(refs: seq<(string, string)>)
    ensures Captioned(Pairs(refs)) == refs
    decreases |refs|
  {
    if refs != [] {
      var ps := Pairs(refs);
      var rest := Pairs(refs[1..]);
      assert ps == [Text(refs[0].0), ImageUrl(refs[0].1)] + rest;
      assert ps[1..][1..] == rest;
      CaptionedPairs(refs[1..]);
      if |rest| > 0 {
        assert Captioned(ps[1..]) == Captioned(rest);
      } else {
        assert Captioned(ps[1..]) == [];
      }
      assert refs == [refs[0]] + refs[1..];
    }
  }

  /** A sequence of text parts holds no captioned image. */
  lemma {:induction false} CaptionedOfText(parts: seq<ContentPart>)
    requires AllText(parts)
    ensures Captioned(parts) == []
    decreases |parts|
  {
    if |parts| >= 2 {
      CaptionedOfText(parts[1..]);
    }
  }

  /** Text parts in front of a part list that starts with a caption add no captioned image. */
  lemma {:induction false} CaptionedAfterText(a: seq<ContentPart>, b: seq<ContentPart>)
    requires AllText(a)
    requires b == [] || b[0].Text?
    ensures Captioned(a + b) == Captioned(b)
    decreases |a|
  {
    if |a| > 0 {
      var c := a + b;
      assert c[1..] == a[1..] + b;
      CaptionedAfterText(a[1..], b);
      if |a| == 1 {
        assert a[1..] + b == b;
      }
    } else {
      assert a + b == b;
    }
  }

  /** The previous image and the avatars are the pairs of the references. */
  lemma ImagePartsArePairs(s: Settings, gallery: seq<GalleryEntry>, userAvatar: Option<Avatar>,
                           charAvatar: Option<Avatar>)
    ensures PreviousImageParts(s, gallery) + AvatarParts(s, userAvatar, charAvatar)
            == Pairs(References(s, gallery, userAvatar, charAvatar))
  {
    var prev := if s.usePreviousImage && |gallery| > 0
                then [(PreviousImageLabel, DataUrl("image/png", gallery[0].imageData))] else [];
    var cr, ur := AvatarReference(charAvatar, CharAvatarLabel), AvatarReference(userAvatar, UserAvatarLabel);
    assert Pairs(prev) == PreviousImageParts(s, gallery);
    assert Pairs(cr) == AvatarPair(charAvatar, CharAvatarLabel);
    assert Pairs(ur) == AvatarPair(userAvatar, UserAvatarLabel);
    PairsAppend(cr, ur);
    if s.useAvatars {
      PairsAppend(prev, cr + ur);
    } else {
      assert References(s, gallery, userAvatar, charAvatar) == prev;
    }
  }

  /**
   * After the prompt part the request holds nothing but the reference
   * images, each right after its own caption: a caption appears exactly
   * when its image does, and the captioned images of the whole request are
   * the references, in order.
   */
  lemma LayoutCaptions(s: Settings, desc: seq<ContentPart>, primary: string, gallery: seq<GalleryEntry>,
                       userAvatar: Option<Avatar>, charAvatar: Option<Avatar>)
    requires AllText(desc)
    ensures var parts, n := Layout(s, desc, primary, gallery, userAvatar, charAvatar), |SystemParts(s)| + |desc| + 1;
            && |parts| >= n
            && parts[n..] == Pairs(References(s, gallery, userAvatar, charAvatar))
            && Captioned(parts) == References(s, gallery, userAvatar, charAvatar)
  {
    var refs := References(s, gallery, userAvatar, charAvatar);
    var head := SystemParts(s) + desc + [Text(primary)];
    var prev, av := PreviousImageParts(s, gallery), AvatarParts(s, userAvatar, charAvatar);
    ImagePartsArePairs(s, gallery, userAvatar, charAvatar);
    AppendAssoc(head, prev, av);
    var parts := head + Pairs(refs);
    assert parts[|head|..] == Pairs(refs);
    assert AllText(head);
    CaptionedPairs(refs);
    CaptionedAfterText(head, Pairs(refs));
  }

  lemma GroupPositions(sys: seq<ContentPart>, desc: seq<ContentPart>, text: ContentPart,
                       prev: seq<ContentPart>, av: seq<ContentPart>)
    ensures var parts := sys + desc + [text] + prev + av;
            && |parts| > |sys| + |desc|
            && parts[|sys| + |desc|] == text
            && (forall i :: 0 <= i < |sys| ==> parts[i] == sys[i])
            && (forall i :: 0 <= i < |desc| ==> parts[|sys| + i] == desc[i])
  {
  }

  /**
   * The prompt text sits right after the system instruction, when there
   * is one, and the description part, which come first and in that order.
   */
  lemma LayoutPositions(s: Settings, desc: seq<ContentPart>, primary: string, gallery: seq<GalleryEntry>,
                        userAvatar: Option<Avatar>, charAvatar: Option<Avatar>)
    ensures var parts, n := Layout(s, desc, primary, gallery, userAvatar, charAvatar), |SystemParts(s)|;
            && n == (if s.systemInstruction != "" then 1 else 0)
            && |parts| > n + |desc|
            && parts[n + |desc|] == Text(primary)
            && (s.systemInstruction != "" ==> parts[0] == Text(s.systemInstruction))
            && (forall i :: 0 <= i < |desc| ==> parts[n + i] == desc[i])
  {
    GroupPositions(SystemParts(s), desc, Text(primary), PreviousImageParts(s, gallery),
                   AvatarParts(s, userAvatar, charAvatar));
  }

  /** With descriptions off, the description group is empty whatever the host holds. */
  lemma DescriptionsOffIgnored(s: Settings, h: Host)
    requires !s.includeDescriptions
    ensures DescriptionParts(s, h) == []
  {
  }

  /** The header of the story context has no leading white space. */
  lemma StoryTrimStart(lines: string)
    ensures TrimStart(StoryHeader + lines) == StoryHeader + lines
  {
    assert StoryHeader[0] == '[';
    assert (StoryHeader + lines)[0] == '[';
  }

  /** Trimming a story line only touches the message text's trailing white space. */
  lemma StoryLineTrimEnd(m: Snapshot, k: int)
    requires 0 <= k < |m.text| && !IsWhite(m.text[k])
    ensures TrimEnd(StoryLine(m)) == "[" + SenderTag(m.isUser) + " (" + m.name + ")]: " + TrimEnd(m.text)
  {
    var tag := "[" + SenderTag(m.isUser) + " (" + m.name + ")]: ";
    assert StoryLine(m) == tag + (m.text + "\n\n");
    assert (m.text + "\n\n")[k] == m.text[k];
    TrimEndAppend(tag, m.text + "\n\n", k);
    assert AllWhite("\n\n");
    TrimEndDropsWhite(m.text, "\n\n");
  }

  /**
   * The story context is the header and one line per recent message,
   * oldest first; trimming removes only the trailing white space of the
   * last message's text and the blank line after it.
   */
  lemma StoryContextTrimmed(recent: seq<Snapshot>, k: int)
    requires |recent| > 0
    requires var last := recent[|recent| - 1].text; 0 <= k < |last| && !IsWhite(last[k])
    ensures var last := recent[|recent| - 1];
            Trim(StoryHeader + StoryLines(recent))
            == StoryHeader + StoryLines(recent[..|recent| - 1])
               + ("[" + SenderTag(last.isUser) + " (" + last.name + ")]: " + TrimEnd(last.text))
  {
    var front, last := recent[..|recent| - 1], recent[|recent| - 1];
    var head := StoryHeader + StoryLines(front);
    assert StoryLines(recent) == StoryLines(front) + StoryLine(last);
    AppendAssoc(StoryHeader, StoryLines(front), StoryLine(last));
    StoryTrimStart(StoryLines(recent));
    assert StoryLine(last)[0] == '[';
    TrimEndAppend(head, StoryLine(last), 0);
    StoryLineTrimEnd(last, k);
  }

  /**
   * Which text the prompt part carries: the bare prompt for the slash
   * command, the story context when the chat has recent messages, and
   * otherwise the prompt, tagged with its sender when there is one.
   */
  lemma PrimaryTextCases(s: Settings, h: Host, prompt: string, sender: Option<string>, messageId: Option<int>)
    requires FromInRange(h.chat, messageId)
    ensures sender.None? && messageId.None? ==> PrimaryText(s, h, prompt, sender, messageId) == prompt
    ensures (sender.Some? || messageId.Some?) && Recent(h, Depth(s), messageId) != [] ==>
              StartsWith(PrimaryText(s, h, prompt, sender, messageId), StoryHeader)
    ensures (sender.Some? || messageId.Some?) && Recent(h, Depth(s), messageId) == [] ==>
              PrimaryText(s, h, prompt, sender, messageId)
              == if Given(sender) then MessageFrom(sender.value, prompt) else prompt
  {
    var recent := Recent(h, Depth(s), messageId);
    if (sender.Some? || messageId.Some?) && recent != [] {
      StoryKeepsHeader(recent);
    }
  }

  /** Trimming the story context leaves its header in place. */
  lemma StoryKeepsHeader(recent: seq<Snapshot>)
    requires recent != []
    ensures StartsWith(Trim(StoryHeader + StoryLines(recent)), StoryHeader)
  {
    var front := StoryLines(recent[..|recent| - 1]);
    var lines := StoryLines(recent);
    assert lines == front + StoryLine(recent[|recent| - 1]);
    assert lines[|front|] == '[';
    assert StoryHeader[0] == '[';
    TrimKeepsHead(StoryHeader, lines, |front|);
  }
}
