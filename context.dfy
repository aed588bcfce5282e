/**
 * The context collector: the recent chat messages and the character and
 * persona descriptions that the request is built from, read from an
 * explicit snapshot of the host chat application's state.
 */
module Chat {
  import opened Wrappers
  import opened Strings

  /** One entry of the host's chat log (`mes`, `is_user`, `is_system`); a missing text is "". */
  datatype ChatMessage = ChatMessage(mes: string, isUser: bool, isSystem: bool)

  /** The fields of the current character record that the core reads. */
  datatype Character = Character(avatar: Option<string>, description: Option<string>, scenario: Option<string>)

  /** The host state the core reads. */
  datatype Host = Host(
    chat: seq<ChatMessage>,
    name1: Option<string>,              // the host's global user name
    contextName1: Option<string>,       // the user name held by the chat context
    name2: Option<string>,              // the character's display name
    character: Option<Character>,       // the record of the current character, if any
    personaDescription: Option<string>) // the user's persona text

  /** A read-only projection of a chat message: its text, its side, and a display name. */
  datatype Snapshot = Snapshot(text: string, isUser: bool, name: string)

  function UserName(h: Host): (r: string)
    ensures r != ""
  {
    OrDefault(h.name1, "User")
  }

  function CharName(h: Host): (r: string)
    ensures r != ""
  {
    OrDefault(h.name2, "Character")
  }

  /** A message that `getRecentMessages` collects: non-empty text, not a system message. */
  predicate Eligible(m: ChatMessage) {
    m.mes != "" && !m.isSystem
  }

  function SnapshotOf(m: ChatMessage, userName: string, charName: string): Snapshot {
    Snapshot(m.mes, m.isUser, if m.isUser then userName else charName)
  }

  /** The indices below `n` of the eligible messages, in ascending order. */
  function EligibleIndices(chat: seq<ChatMessage>, n: nat): (r: seq<nat>)
    requires n <= |chat|
    ensures |r| <= n
    ensures forall k :: 0 <= k < |r| ==> r[k] < n && Eligible(chat[r[k]])
    ensures forall k, l :: 0 <= k < l < |r| ==> r[k] < r[l]
    decreases n
  {
    if n == 0 then []
    else EligibleIndices(chat, n - 1) + (if Eligible(chat[n - 1]) then [n - 1] else [])
  }

  /** Every eligible index below `n` is listed. */
  lemma {:induction false} EligibleIndicesComplete(chat: seq<ChatMessage>, n: nat, j: nat)
    requires n <= |chat| && j < n && Eligible(chat[j])
    ensures j in EligibleIndices(chat, n)
    decreases n
  {
    if j < n - 1 {
      EligibleIndicesComplete(chat, n - 1, j);
    }
  }

  /** How many entries a scan for `depth` entries may return. */
  function Cap(depth: int): nat {
    if depth < 0 then 0 else depth
  }

  /** Where the backward scan starts: the given message, or the last one. */
  function StartIndex(chat: seq<ChatMessage>, from: Option<int>): int {
    match from
    case Some(i) => i
    case None => |chat| - 1
  }

  /** The indices the scan selects: the last `depth` eligible ones at or before `start`. */
  function Window(chat: seq<ChatMessage>, depth: int, start: int): seq<nat>
    requires start < |chat|
  {
    var e := EligibleIndices(chat, if start < 0 then 0 else start + 1);
    var k := if Cap(depth) < |e| then Cap(depth) else |e|;
    e[|e| - k..]
  }

  function Snapshots(chat: seq<ChatMessage>, idx: seq<nat>, userName: string, charName: string): (r: seq<Snapshot>)
    requires forall k :: 0 <= k < |idx| ==> idx[k] < |chat|
    ensures |r| == |idx|
    ensures forall k :: 0 <= k < |idx| ==> r[k] == SnapshotOf(chat[idx[k]], userName, charName)
  {
    seq(|idx|, k requires 0 <= k < |idx| => SnapshotOf(chat[idx[k]], userName, charName))
  }

  /** A message id past the end of a non-empty chat makes the source read an undefined entry. */
  predicate FromInRange(chat: seq<ChatMessage>, from: Option<int>) {
    from.Some? && |chat| > 0 ==> from.value < |chat|
  }

  /** What `getRecentMessages(depth, from)` returns. */
  function Recent(h: Host, depth: int, from: Option<int>): (r: seq<Snapshot>)
    requires FromInRange(h.chat, from)
    ensures |r| <= Cap(depth)
    ensures forall k :: 0 <= k < |r| ==> r[k].text != ""
    ensures forall k :: 0 <= k < |r| ==> r[k].name == if r[k].isUser then UserName(h) else CharName(h)
  {
    if |h.chat| == 0 then []
    else Snapshots(h.chat, Window(h.chat, depth, StartIndex(h.chat, from)), UserName(h), CharName(h))
  }

  /**
   * An independent description of a correct selection `w` of chat indices:
   * strictly ascending, eligible, at or before `start`, at most `depth`
   * of them, and no eligible message at or before `start` is passed over
   * unless the selection is full and the message is older than all of it.
   */
  ghost predicate IsRecentSelection(chat: seq<ChatMessage>, depth: int, start: int, w: seq<nat>) {
    && |w| <= Cap(depth)
    && (forall k :: 0 <= k < |w| ==> w[k] <= start && w[k] < |chat| && Eligible(chat[w[k]]))
    && (forall k, l :: 0 <= k < l < |w| ==> w[k] < w[l])
    && (forall j :: 0 <= j <= start && j < |chat| && Eligible(chat[j]) && j !in w ==>
          |w| == Cap(depth) && (|w| == 0 || j < w[0]))
  }

  /** The scan selects exactly what `IsRecentSelection` describes. */
  lemma WindowIsRecentSelection(chat: seq<ChatMessage>, depth: int, start: int)
    requires start < |chat|
    ensures IsRecentSelection(chat, depth, start, Window(chat, depth, start))
  {
    var e := EligibleIndices(chat, if start < 0 then 0 else start + 1);
    var k := if Cap(depth) < |e| then Cap(depth) else |e|;
    var w := e[|e| - k..];
    assert w == Window(chat, depth, start);
    forall m | |e| - k <= m < |e| ensures e[m] in w {
      assert w[m - (|e| - k)] == e[m];
    }
    forall j | 0 <= j <= start && j < |chat| && Eligible(chat[j]) && j !in w
      ensures |w| == Cap(depth) && (|w| == 0 || j < w[0])
    {
      EligibleIndicesComplete(chat, if start < 0 then 0 else start + 1, j);
      var m :| 0 <= m < |e| && e[m] == j;
      assert m < |e| - k;
      if |w| > 0 {
        assert w[0] == e[|e| - k];
      }
    }
  }

  /**
   * `getRecentMessages` returns the snapshots of a correct selection, in
   * chat order: at most `depth` of them, all eligible, none passed over.
   */
  lemma RecentSelection(h: Host, depth: int, from: Option<int>)
    requires FromInRange(h.chat, from) && |h.chat| > 0
    ensures var w := Window(h.chat, depth, StartIndex(h.chat, from));
            && IsRecentSelection(h.chat, depth, StartIndex(h.chat, from), w)
            && Recent(h, depth, from) == Snapshots(h.chat, w, UserName(h), CharName(h))
  {
    WindowIsRecentSelection(h.chat, depth, StartIndex(h.chat, from));
  }

  /** The number of entries: `depth`, or all eligible messages when there are fewer. */
  lemma RecentLength(h: Host, depth: int, from: Option<int>)
    requires FromInRange(h.chat, from) && |h.chat| > 0
    ensures var s := StartIndex(h.chat, from);
            var count := |EligibleIndices(h.chat, if s < 0 then 0 else s + 1)|;
            |Recent(h, depth, from)| == if Cap(depth) < count then Cap(depth) else count
  {
  }

  /** There are no eligible indices below `n` exactly when no message below `n` is eligible. */
  lemma EligibleIndicesEmptyIff(chat: seq<ChatMessage>, n: nat)
    requires n <= |chat|
    ensures EligibleIndices(chat, n) == [] <==> forall j :: 0 <= j < n ==> !Eligible(chat[j])
  {
    var e := EligibleIndices(chat, n);
    if |e| > 0 {
      assert Eligible(chat[e[0]]);
    }
    forall j | 0 <= j < n && Eligible(chat[j]) ensures |e| > 0 {
      EligibleIndicesComplete(chat, n, j);
    }
  }

  /** Nothing is collected when no eligible message lies at or before the start. */
  lemma RecentEmptyIff(h: Host, depth: int, from: Option<int>)
    requires FromInRange(h.chat, from)
    ensures Recent(h, depth, from) == [] <==>
            (|h.chat| == 0 || depth <= 0 ||
             forall j :: 0 <= j <= StartIndex(h.chat, from) && j < |h.chat| ==> !Eligible(h.chat[j]))
  {
    if |h.chat| > 0 {
      var s := StartIndex(h.chat, from);
      var n := if s < 0 then 0 else s + 1;
      var w := Window(h.chat, depth, s);
      assert |Recent(h, depth, from)| == |w|;
      EligibleIndicesEmptyIff(h.chat, n);
      assert (forall j :: 0 <= j <= s && j < |h.chat| ==> !Eligible(h.chat[j]))
             <==> (forall j :: 0 <= j < n ==> !Eligible(h.chat[j]));
    }
  }

  /** `Array.prototype.reverse`, as a function on sequences. */
  function Reversed<T>(s: seq<T>): (r: seq<T>)
    ensures |r| == |s|
    ensures forall k :: 0 <= k < |s| ==> r[k] == s[|s| - 1 - k]
    decreases |s|
  {
    if s == [] then []
    else
      var front := s[..|s| - 1];
      var rest := Reversed(front);
      [s[|s| - 1]] + rest
  }

  /**
   * What holds between iterations of the backward scan that is at index
   * `i`: `taken` lists the chat indices collected so far, in chat order,
   * and they are exactly the eligible indices above `i` up to `start`.
   */
  ghost predicate ScanInvariant(h: Host, depth: int, start: int, i: int, taken: seq<nat>, messages: seq<Snapshot>)
    requires start < |h.chat|
  {
    && i <= start && (start >= 0 ==> -1 <= i)
    && EligibleIndices(h.chat, if i < 0 then 0 else i + 1) + taken
       == EligibleIndices(h.chat, if start < 0 then 0 else start + 1)
    && |taken| <= Cap(depth)
    && (forall k :: 0 <= k < |taken| ==> taken[k] < |h.chat|)
    && Reversed(messages) == Snapshots(h.chat, taken, UserName(h), CharName(h))
  }

  lemma ReversedSnoc<T>(s: seq<T>, x: T)
    ensures Reversed(s + [x]) == [x] + Reversed(s)
  {
    assert (s + [x])[..|s|] == s;
  }

  lemma SnapshotsCons(chat: seq<ChatMessage>, i: nat, idx: seq<nat>, userName: string, charName: string)
    requires i < |chat| && forall k :: 0 <= k < |idx| ==> idx[k] < |chat|
    ensures Snapshots(chat, [i] + idx, userName, charName)
            == [SnapshotOf(chat[i], userName, charName)] + Snapshots(chat, idx, userName, charName)
  {
    var l := Snapshots(chat, [i] + idx, userName, charName);
    var r := [SnapshotOf(chat[i], userName, charName)] + Snapshots(chat, idx, userName, charName);
    assert |l| == |r|;
    forall k | 0 <= k < |l| ensures l[k] == r[k] {
      if k > 0 {
        assert ([i] + idx)[k] == idx[k - 1];
      }
    }
  }

  /** An eligible message at `i` is pushed; the invariant moves to `i - 1`. */
  lemma ScanTake(h: Host, depth: int, start: int, i: nat, taken: seq<nat>, messages: seq<Snapshot>)
    requires start < |h.chat| && ScanInvariant(h, depth, start, i, taken, messages)
    requires Eligible(h.chat[i]) && |messages| < depth
    ensures ScanInvariant(h, depth, start, i - 1, [i] + taken,
                          messages + [SnapshotOf(h.chat[i], UserName(h), CharName(h))])
  {
    var chat := h.chat;
    var snap := SnapshotOf(chat[i], UserName(h), CharName(h));
    assert EligibleIndices(chat, i + 1) == EligibleIndices(chat, i) + [i];
    AppendAssoc(EligibleIndices(chat, i), [i], taken);
    ReversedSnoc(messages, snap);
    SnapshotsCons(chat, i, taken, UserName(h), CharName(h));
    assert |taken| == |messages|;
  }

  /** A message at `i` that is skipped; the invariant moves to `i - 1`. */
  lemma ScanSkip(h: Host, depth: int, start: int, i: nat, taken: seq<nat>, messages: seq<Snapshot>)
    requires start < |h.chat| && ScanInvariant(h, depth, start, i, taken, messages)
    requires !Eligible(h.chat[i])
    ensures ScanInvariant(h, depth, start, i - 1, taken, messages)
  {
    assert EligibleIndices(h.chat, i + 1) == EligibleIndices(h.chat, i);
  }

  /** When the scan stops, what it took is the window, in chat order. */
  lemma ScanDone(h: Host, depth: int, start: int, i: int, taken: seq<nat>, messages: seq<Snapshot>)
    requires start < |h.chat| && ScanInvariant(h, depth, start, i, taken, messages)
    requires i < 0 || |messages| >= depth
    ensures taken == Window(h.chat, depth, start)
    ensures Reversed(messages) == Snapshots(h.chat, Window(h.chat, depth, start), UserName(h), CharName(h))
  {
  }

  /**
   * `getRecentMessages`: scans the chat backwards from `from` (or from the
   * last message), keeping eligible messages until `depth` are found, then
   * reverses them into chat order.
   */
  method RecentMessages(h: Host, depth: int, from: Option<int>) returns (r: seq<Snapshot>)
    requires FromInRange(h.chat, from)
    ensures r == Recent(h, depth, from)
  {
    var chat := h.chat;
    if |chat| == 0 {
      return [];
    }
    var messages: seq<Snapshot> := [];
    var start := if from.Some? then from.value else |chat| - 1;
    ghost var taken: seq<nat> := [];
    var i := start;
    while i >= 0 && |messages| < depth
      invariant ScanInvariant(h, depth, start, i, taken, messages)
      decreases i
    {
      var message := chat[i];
      if message.mes != "" && !message.isSystem {
        var charName := OrDefault(h.name2, "Character");
        var userName := OrDefault(h.name1, "User");
        ScanTake(h, depth, start, i, taken, messages);
        messages := messages + [Snapshot(message.mes, message.isUser, if message.isUser then userName else charName)];
        taken := [i] + taken;
      } else {
        ScanSkip(h, depth, start, i, taken, messages);
      }
      i := i - 1;
    }
    ScanDone(h, depth, start, i, taken, messages);
    r := Reversed(messages);
  }

  /** The descriptive metadata the request may include; missing text becomes "". */
  datatype Descriptions = Descriptions(
    userName: string, userPersona: string, charName: string, charDescription: string, charScenario: string)

  /**
   * `getCharacterDescriptions`: every field is the host's text when that is
   * present and non-empty, and otherwise a fixed default; the two names
   * are never empty.
   */
  function CharacterDescriptions(h: Host): (d: Descriptions)
    ensures d.userName != "" && d.charName != ""
    ensures d.userName == (if Given(h.name1) then h.name1.value
                           else if Given(h.contextName1) then h.contextName1.value else "User")
    ensures d.charName == CharName(h)
    ensures Given(h.personaDescription) ==> d.userPersona == h.personaDescription.value
    ensures !Given(h.personaDescription) ==> d.userPersona == ""
    ensures h.character.Some? && Given(h.character.value.description) ==> d.charDescription == h.character.value.description.value
    ensures !(h.character.Some? && Given(h.character.value.description)) ==> d.charDescription == ""
    ensures h.character.Some? && Given(h.character.value.scenario) ==> d.charScenario == h.character.value.scenario.value
    ensures !(h.character.Some? && Given(h.character.value.scenario)) ==> d.charScenario == ""
  {
    Descriptions(
      userName := OrDefault(h.name1, OrDefault(h.contextName1, "User")),
      userPersona := OrDefault(h.personaDescription, ""),
      charName := OrDefault(h.name2, "Character"),
      charDescription := if h.character.Some? then OrDefault(h.character.value.description, "") else "",
      charScenario := if h.character.Some? then OrDefault(h.character.value.scenario, "") else "")
  }
}
