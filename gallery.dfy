/**
 * The gallery of generated images kept in the settings: newest first,
 * at most 50 entries, each prompt cut to 200 characters.
 */
module Gallery {
  import opened Wrappers
  import opened Strings
  import opened Chat

  const MaxGallerySize := 50
  const MaxPromptLength := 200

  /** A saved image: base64 data, the prompt, the save time and the message it illustrates. */
  datatype GalleryEntry = GalleryEntry(imageData: string, prompt: string, timestamp: int, messageId: Option<int>)

  /** The first `n` elements of `s`, or all of them when there are fewer (`slice(0, n)`). */
  function Take<T>(s: seq<T>, n: nat): (r: seq<T>)
    ensures |r| == if |s| < n then |s| else n
    ensures forall i :: 0 <= i < |r| ==> r[i] == s[i]
  {
    if |s| <= n then s else s[..n]
  }

  /** The entry `addToGallery` records. */
  function NewEntry(imageData: string, prompt: string, messageId: Option<int>, now: int): (e: GalleryEntry)
    ensures |e.prompt| == if |prompt| < MaxPromptLength then |prompt| else MaxPromptLength
    ensures StartsWith(prompt, e.prompt)
    ensures |prompt| <= MaxPromptLength ==> e.prompt == prompt
  {
    GalleryEntry(imageData, Truncate(prompt, MaxPromptLength), now, messageId)
  }

  /** The gallery after `e` is put in front and the list is cut back to the cap. */
  function Inserted(g: seq<GalleryEntry>, e: GalleryEntry): (r: seq<GalleryEntry>)
    ensures 0 < |r| <= MaxGallerySize && r[0] == e
  {
    Take([e] + g, MaxGallerySize)
  }

  /**
   * Adding puts the new entry first, shifts the others back by one and
   * drops only the oldest entry, and only when the gallery was full.
   */
  lemma InsertedShape(g: seq<GalleryEntry>, e: GalleryEntry)
    ensures |Inserted(g, e)| == if |g| < MaxGallerySize then |g| + 1 else MaxGallerySize
    ensures Inserted(g, e)[0] == e
    ensures forall i :: 1 <= i < |Inserted(g, e)| ==> Inserted(g, e)[i] == g[i - 1]
    ensures |g| < MaxGallerySize ==> Inserted(g, e) == [e] + g
    ensures |g| == MaxGallerySize ==> Inserted(g, e) == [e] + g[..MaxGallerySize - 1]
  {
    var r := Inserted(g, e);
    forall i | 1 <= i < |r| ensures r[i] == g[i - 1] {
      assert r[i] == ([e] + g)[i];
    }
    if |g| == MaxGallerySize {
      assert r == [e] + g[..MaxGallerySize - 1];
    }
  }

  /** The gallery after a run of additions, `es[0]` added first. */
  function InsertedAll(g: seq<GalleryEntry>, es: seq<GalleryEntry>): seq<GalleryEntry>
    decreases |es|
  {
    if es == [] then g else Inserted(InsertedAll(g, es[..|es| - 1]), es[|es| - 1])
  }

  lemma TakeCons<T>(x: T, s: seq<T>, n: nat)
    requires n >= 1
    ensures Take([x] + Take(s, n), n) == Take([x] + s, n)
  {
    if |s| > n {
      assert ([x] + s[..n])[..n] == ([x] + s)[..n];
    }
  }

  /**
   * Whatever the additions, the gallery holds the newest entries first,
   * then the older gallery, cut to the cap.
   */
  lemma {:induction false} InsertedAllNewestFirst(g: seq<GalleryEntry>, es: seq<GalleryEntry>)
    requires |es| > 0
    ensures InsertedAll(g, es) == Take(Reversed(es) + g, MaxGallerySize)
    decreases |es|
  {
    var front, last := es[..|es| - 1], es[|es| - 1];
    if front == [] {
      assert Reversed(es) == [last];
    } else {
      InsertedAllNewestFirst(g, front);
      TakeCons(last, Reversed(front) + g, MaxGallerySize);
    }
    assert [last] + (Reversed(front) + g) == Reversed(es) + g;
  }

  /** However many images are added, the gallery never exceeds the cap. */
  lemma InsertedAllBounded(g: seq<GalleryEntry>, es: seq<GalleryEntry>)
    requires |es| > 0
    ensures |InsertedAll(g, es)| <= MaxGallerySize
  {
    InsertedAllNewestFirst(g, es);
  }

  /**
   * `splice(index, 1)`: a negative index counts from the end (clamped to
   * the start), and an index at or past the end removes nothing.
   */
  function SpliceStart(len: nat, index: int): (start: nat)
    ensures start <= len
  {
    if index < 0 then (if len + index < 0 then 0 else len + index)
    else if index > len then len else index
  }

  function Spliced<T>(g: seq<T>, index: int): (r: seq<T>)
    ensures |r| == |g| || |r| == |g| - 1
  {
    var start := SpliceStart(|g|, index);
    if start < |g| then g[..start] + g[start + 1..] else g
  }

  /** Deleting at a valid position removes exactly that entry and keeps the order of the rest. */
  lemma SplicedAt<T>(g: seq<T>, index: int)
    requires 0 <= index < |g|
    ensures |Spliced(g, index)| == |g| - 1
    ensures forall i :: 0 <= i < index ==> Spliced(g, index)[i] == g[i]
    ensures forall i :: index <= i < |g| - 1 ==> Spliced(g, index)[i] == g[i + 1]
    ensures multiset(Spliced(g, index)) + multiset{g[index]} == multiset(g)
  {
    assert g == g[..index] + [g[index]] + g[index + 1..];
  }

  /** A negative index `-k` removes the `k`-th entry from the end. */
  lemma SplicedFromEnd<T>(g: seq<T>, k: int)
    requires 1 <= k <= |g|
    ensures Spliced(g, -k) == Spliced(g, |g| - k)
  {
  }

  /** An index at or past the end leaves the gallery as it was. */
  lemma SplicedPastEnd<T>(g: seq<T>, index: int)
    requires index >= |g|
    ensures Spliced(g, index) == g
  {
  }

  /** The gallery list of the settings and the operations that change it. */
  class GalleryStore {
    var entries: seq<GalleryEntry>

    constructor (stored: seq<GalleryEntry>)
      ensures entries == stored
    {
      entries := stored;
    }

    /** `addToGallery`: `unshift` the new entry, then cut the list to the cap. */
    method Add(imageData: string, prompt: string, messageId: Option<int>, now: int)
      modifies this
      ensures entries == Inserted(old(entries), NewEntry(imageData, prompt, messageId, now))
      ensures |entries| <= MaxGallerySize && entries[0].prompt == Truncate(prompt, MaxPromptLength)
    {
      entries := [NewEntry(imageData, prompt, messageId, now)] + entries;
      if |entries| > MaxGallerySize {
        entries := entries[..MaxGallerySize];
      }
    }

    /** `deleteGalleryImage`. */
    method Delete(index: int)
      modifies this
      ensures entries == Spliced(old(entries), index)
    {
      var start := SpliceStart(|entries|, index);
      if start < |entries| {
        entries := entries[..start] + entries[start + 1..];
      }
    }

    /** `clearGallery`: empties the list only when the user confirms. */
    method Clear(confirmed: bool)
      modifies this
      ensures entries == if confirmed then [] else old(entries)
    {
      if confirmed {
        entries := [];
      }
    }
  }
}
