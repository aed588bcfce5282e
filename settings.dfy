/** The default system instruction sent with every request. */
module Instructions {
  const DefaultSystemInstruction: string :=
    "You are an image generation assistant. " +
    "When reference images are provided, " +
    "they represent the characters in the " +
    "story. Generate an illustration that " +
    "depicts the scene described in the " +
    "prompt while maintaining the art style " +
    "and appearance of the reference " +
    "characters. You are not obligated to " +
    "include both characters - if the scene " +
    "depicts only one character alone, " +
    "illustrate them alone. When available, " +
    "you can use the internet to search for " +
    "reference pictures and information to " +
    "improve the accuracy and quality of " +
    "your generations."
}

/**
 * The extension's settings: the typed record the request is built from,
 * the stored settings object and the merge of its defaults at load time,
 * and the normalisations the settings form applies (the message-depth
 * clamp, the model family kept across a provider change, the image-size
 * reset).
 */
module Settings {
  import opened Wrappers
  import opened Strings
  import opened Models
  import opened Instructions

  /**
   * The settings object once every key holds a value of its documented
   * type. The gallery, also stored there, is modelled by `Gallery`.
   */
  datatype Settings = Settings(
    provider: string,
    model: string,
    aspectRatio: string,
    imageSize: string,
    thinkingLevel: string,
    useGoogleSearch: bool,
    useAvatars: bool,
    includeDescriptions: bool,
    usePreviousImage: bool,
    messageDepth: int,
    systemInstruction: string)

  // ---------------------------------------------------------------------
  // The stored settings object and `loadSettings`.
  // ---------------------------------------------------------------------

  /** A stored JSON value (numbers are integers here). */
  datatype Value = Null | Bool(b: bool) | Num(n: int) | Str(s: string) | List(items: seq<Value>)

  /** `defaultSettings`, in declaration order. */
  const Defaults: seq<(string, Value)> := [
    ("provider", Str("makersuite")),
    ("model", Str("gemini-2.5-flash-image")),
    ("aspect_ratio", Str("1:1")),
    ("image_size", Str("")),
    ("thinking_level", Str("auto")),
    ("use_google_search", Bool(false)),
    ("use_avatars", Bool(false)),
    ("include_descriptions", Bool(false)),
    ("use_previous_image", Bool(false)),
    ("message_depth", Num(1)),
    ("system_instruction", Str(DefaultSystemInstruction)),
    ("gallery", List([]))
  ]

  /** The value of the first entry of `ds` declaring `key`. */
  function FirstDefault(ds: seq<(string, Value)>, key: string): (r: Option<Value>)
    ensures r.None? <==> forall j :: 0 <= j < |ds| ==> ds[j].0 != key
    ensures r.Some? ==> exists j :: 0 <= j < |ds| && ds[j] == (key, r.value)
  {
    if ds == [] then None
    else if ds[0].0 == key then Some(ds[0].1)
    else
      var r := FirstDefault(ds[1..], key);
      assert forall j :: 1 <= j < |ds| ==> ds[j] == ds[1..][j - 1];
      r
  }

  /**
   * The object after the defaults loop has run over `ds`: each key of `ds`
   * that is still missing when its turn comes receives its value.
   */
  function Merged(m: map<string, Value>, ds: seq<(string, Value)>): (r: map<string, Value>)
    ensures forall k :: k in m ==> k in r && r[k] == m[k]
    decreases |ds|
  {
    if ds == [] then m
    else
      var before := Merged(m, ds[..|ds| - 1]);
      var (key, value) := ds[|ds| - 1];
      if key in before then before else before[key := value]
  }

  lemma {:induction false} FirstDefaultSnoc(ds: seq<(string, Value)>, d: (string, Value), key: string)
    ensures FirstDefault(ds + [d], key) ==
              if FirstDefault(ds, key).Some? then FirstDefault(ds, key)
              else if d.0 == key then Some(d.1) else None
    decreases |ds|
  {
    if ds != [] {
      assert (ds + [d])[1..] == ds[1..] + [d];
      FirstDefaultSnoc(ds[1..], d, key);
    }
  }

  /**
   * A key present before the merge keeps its value; a missing key gets
   * the value of its first declaration among the defaults, or stays
   * missing when no default declares it.
   */
  lemma {:induction false} MergedValues(m: map<string, Value>, ds: seq<(string, Value)>, key: string)
    ensures key in m ==> key in Merged(m, ds) && Merged(m, ds)[key] == m[key]
    ensures key !in m ==> (key in Merged(m, ds) <==> FirstDefault(ds, key).Some?)
    ensures key !in m && key in Merged(m, ds) ==> Merged(m, ds)[key] == FirstDefault(ds, key).value
    decreases |ds|
  {
    if ds != [] {
      var front := ds[..|ds| - 1];
      MergedValues(m, front, key);
      FirstDefaultSnoc(front, ds[|ds| - 1], key);
      assert front + [ds[|ds| - 1]] == ds;
    }
  }

  /** After loading, every default key has a value. */
  lemma LoadedHasEveryDefaultKey(m: map<string, Value>, j: int)
    requires 0 <= j < |Defaults|
    ensures Defaults[j].0 in Merged(m, Defaults)
  {
    MergedValues(m, Defaults, Defaults[j].0);
  }

  /** Loading an object that already holds every default key changes nothing. */
  lemma {:induction false} MergedComplete(m: map<string, Value>, ds: seq<(string, Value)>)
    requires forall j :: 0 <= j < |ds| ==> ds[j].0 in m
    ensures Merged(m, ds) == m
    decreases |ds|
  {
    if ds != [] {
      MergedComplete(m, ds[..|ds| - 1]);
    }
  }

  /** Loading twice gives what loading once gave. */
  lemma LoadIdempotent(m: map<string, Value>)
    ensures Merged(Merged(m, Defaults), Defaults) == Merged(m, Defaults)
  {
    forall j | 0 <= j < |Defaults| ensures Defaults[j].0 in Merged(m, Defaults) {
      LoadedHasEveryDefaultKey(m, j);
    }
    MergedComplete(Merged(m, Defaults), Defaults);
  }

  /** The extension's entry in the host's settings store. */
  class SettingsStore {
    var values: map<string, Value>

    /** `extension_settings[extensionName] || {}`. */
    constructor (stored: Option<map<string, Value>>)
      ensures values == stored.GetOr(map[])
    {
      values := stored.GetOr(map[]);
    }

    /**
     * The defaults loop of `loadSettings`: each default key that is
     * missing receives its default value; keys already present, including
     * unknown ones and ones holding `null`, keep their values.
     */
    method LoadDefaults()
      modifies this
      ensures values == Merged(old(values), Defaults)
    {
      for i := 0 to |Defaults|
        invariant values == Merged(old(values), Defaults[..i])
      {
        var (key, value) := Defaults[i];
        assert Defaults[..i + 1][..i] == Defaults[..i];
        if key !in values {
          values := values[key := value];
        }
      }
      assert Defaults[..|Defaults|] == Defaults;
    }
  }

  // ---------------------------------------------------------------------
  // The `message_depth` field handler.
  // ---------------------------------------------------------------------

  const MinDepth := 1
  const MaxDepth := 10

  /**
   * The value stored for what the user typed in the depth field: the
   * parsed integer clamped to [1, 10]; a field that does not parse gives 1.
   */
  function ClampDepth(input: string): (r: int)
    ensures MinDepth <= r <= MaxDepth
    ensures ParseInt(input).None? ==> r == MinDepth
    ensures ParseInt(input).Some? && MinDepth <= ParseInt(input).value <= MaxDepth ==> r == ParseInt(input).value
    ensures ParseInt(input).Some? && ParseInt(input).value < MinDepth ==> r == MinDepth
    ensures ParseInt(input).Some? && ParseInt(input).value > MaxDepth ==> r == MaxDepth
  {
    match ParseInt(input)
    case None => MinDepth
    case Some(v) => if v < MinDepth then MinDepth else if v > MaxDepth then MaxDepth else v
  }

  /**
   * The handler writes the clamped value back into the field, so a second
   * change event stores the same depth again.
   */
  lemma ClampDepthIdempotent(input: string)
    ensures ClampDepth(NatToString(ClampDepth(input))) == ClampDepth(input)
  {
    ParseIntOfNatToString(ClampDepth(input));
  }

  // ---------------------------------------------------------------------
  // The settings form handlers that normalise what they store.
  // ---------------------------------------------------------------------

  /**
   * What the provider field handler leaves behind: the settings, and
   * whether `updateModelDropdown` threw on a provider with no model table
   * (then only the provider was stored, and the size check and the save
   * never ran).
   */
  datatype ProviderChange = ProviderChange(settings: Settings, threw: bool)

  /**
   * The provider field handler: stores the provider, moves the model to
   * that provider's model of the same family and revalidates the size.
   */
  function OnProviderChange(s: Settings, provider: string): (r: ProviderChange)
    ensures r.threw <==> ModelForProvider(provider, s.model).None?
    ensures r.settings.provider == provider
    ensures r.threw ==> r.settings == s.(provider := provider)
    ensures !r.threw ==> r.settings.model == ModelForProvider(provider, s.model).value
    ensures !r.threw ==> r.settings.imageSize == SizeForModel(r.settings.model, s.imageSize)
    ensures r.settings.(provider := s.provider, model := s.model, imageSize := s.imageSize) == s
  {
    var stored := s.(provider := provider);
    match ModelForProvider(provider, s.model)
    case None => ProviderChange(stored, true)
    case Some(m) =>
      // updateModelDropdown ends with one size check and the handler adds a second
      var once := SizeForModel(m, s.imageSize);
      SizeForModelIdempotent(m, s.imageSize);
      ProviderChange(stored.(model := m, imageSize := SizeForModel(m, once)), false)
  }

  /** The model field handler: stores the model and revalidates the size. */
  function OnModelChange(s: Settings, model: string): (r: Settings)
    ensures r.model == model && r.imageSize == SizeForModel(model, s.imageSize)
    ensures r.(model := s.model, imageSize := s.imageSize) == s
  {
    s.(model := model, imageSize := SizeForModel(model, s.imageSize))
  }

  /** The message-depth field handler. */
  function OnDepthChange(s: Settings, input: string): (r: Settings)
    ensures r.messageDepth == ClampDepth(input) && MinDepth <= r.messageDepth <= MaxDepth
    ensures r.(messageDepth := s.messageDepth) == s
  {
    s.(messageDepth := ClampDepth(input))
  }
}
