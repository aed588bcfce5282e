/**
 * The image models the extension offers: each provider's model table,
 * the family a model id belongs to, and the image sizes a model takes.
 */
module Models {
  import opened Wrappers
  import opened Strings

  // ---------------------------------------------------------------------
  // The provider's model table and `updateModelDropdown`.
  // ---------------------------------------------------------------------

  datatype Family = Flash | Flash2 | Pro

  /** The three model ids a provider offers. */
  datatype ModelTable = ModelTable(flash: string, flash2: string, pro: string) {
    function Id(f: Family): string {
      match f
      case Flash => flash
      case Flash2 => flash2
      case Pro => pro
    }
  }

  /** `PROVIDER_MODELS`; `None` for a provider it does not list. */
  function ProviderModels(provider: string): (r: Option<ModelTable>)
    ensures r.Some? <==> KnownProvider(provider)
  {
    if provider == "makersuite" then
      Some(ModelTable("gemini-2.5-flash-image", "gemini-3.1-flash-image-preview", "gemini-3-pro-image-preview"))
    else if provider == "openrouter" then
      Some(ModelTable("google/gemini-2.5-flash-image-preview", "google/gemini-3.1-flash-image-preview",
                      "google/gemini-3-pro-image-preview"))
    else None
  }

  /** The family `updateModelDropdown` reads from a model id. */
  function FamilyOf(model: string): Family {
    if Contains(model, "pro") || Contains(model, "3-pro") then Pro
    else if Contains(model, "3.1") || Contains(model, "3-1") then Flash2
    else Flash
  }

  /**
   * The model `updateModelDropdown` stores: the selected provider's model
   * of the current model's family. `None` stands for a provider missing
   * from the table, for which the source fails reading its models.
   */
  function ModelForProvider(provider: string, currentModel: string): (r: Option<string>)
    ensures r.None? <==> ProviderModels(if provider == "" then "makersuite" else provider).None?
    ensures r.Some? ==> r.value == ProviderModels(if provider == "" then "makersuite" else provider).value.Id(FamilyOf(currentModel))
  {
    match ProviderModels(if provider == "" then "makersuite" else provider)
    case None => None
    case Some(t) => Some(t.Id(FamilyOf(currentModel)))
  }

  predicate KnownProvider(p: string) {
    p == "makersuite" || p == "openrouter"
  }

  // Which family markers each listed model id holds, one fact per lemma
  // (several negative facts about literals in one proof are costly).

  lemma ProMarker()
    ensures Contains("gemini-3-pro-image-preview", "pro")
  {
    ContainsAt("gemini-3-pro-image-preview", "pro", 9);
  }

  lemma RoutedProMarker()
    ensures Contains("google/gemini-3-pro-image-preview", "pro")
  {
    ContainsAt("google/gemini-3-pro-image-preview", "pro", 16);
  }

  lemma Flash2LacksPro()
    ensures !Contains("gemini-3.1-flash-image-preview", "pro")
  {
    AbsentChar("gemini-3.1-flash-image-preview", "pro", 2);
  }

  lemma Flash2Lacks3Pro()
    ensures !Contains("gemini-3.1-flash-image-preview", "3-pro")
  {
    AbsentChar("gemini-3.1-flash-image-preview", "3-pro", 4);
  }

  lemma Flash2Marker()
    ensures Contains("gemini-3.1-flash-image-preview", "3.1")
  {
    var id := "gemini-3.1-flash-image-preview";
    assert id[7] == '3' && id[8] == '.' && id[9] == '1';
    assert id[7..10] == "3.1";
    ContainsAt(id, "3.1", 7);
  }

  lemma RoutedFlash2Split()
    ensures "google/gemini-3.1-flash-image-preview" == "google/" + "gemini-3.1-flash-image-preview"
  {
  }

  lemma RoutedFlash2LacksPro()
    ensures !Contains("google/gemini-3.1-flash-image-preview", "pro")
  {
    AbsentAcross("google/", "gemini-3.1-flash-image-preview", "pro");
    RoutedFlash2Split();
  }

  lemma RoutedFlash2Lacks3Pro()
    ensures !Contains("google/gemini-3.1-flash-image-preview", "3-pro")
  {
    AbsentAcross("google/", "gemini-3.1-flash-image-preview", "3-pro");
    RoutedFlash2Split();
  }

  lemma RoutedFlash2Marker()
    ensures Contains("google/gemini-3.1-flash-image-preview", "3.1")
  {
    var id := "google/gemini-3.1-flash-image-preview";
    assert id[14] == '3' && id[15] == '.' && id[16] == '1';
    assert id[14..17] == "3.1";
    ContainsAt(id, "3.1", 14);
  }

  lemma FlashLacksPro()
    ensures !Contains("gemini-2.5-flash-image", "pro")
  {
    AbsentChar("gemini-2.5-flash-image", "pro", 0);
  }

  lemma FlashLacks3Pro()
    ensures !Contains("gemini-2.5-flash-image", "3-pro")
  {
    AbsentChar("gemini-2.5-flash-image", "3-pro", 0);
  }

  lemma FlashLacksDot1()
    ensures !Contains("gemini-2.5-flash-image", "3.1")
  {
    AbsentChar("gemini-2.5-flash-image", "3.1", 0);
  }

  lemma FlashLacksDash1()
    ensures !Contains("gemini-2.5-flash-image", "3-1")
  {
    AbsentChar("gemini-2.5-flash-image", "3-1", 0);
  }

  lemma RoutedFlashSplit()
    ensures "google/gemini-2.5-flash-image-preview" == "google/" + "gemini-2.5-flash-image-preview"
  {
  }

  lemma RoutedFlashLacksPro()
    ensures !Contains("google/gemini-2.5-flash-image-preview", "pro")
  {
    AbsentAcross("google/", "gemini-2.5-flash-image-preview", "pro");
    RoutedFlashSplit();
  }

  lemma RoutedFlashLacks3Pro()
    ensures !Contains("google/gemini-2.5-flash-image-preview", "3-pro")
  {
    AbsentChar("google/gemini-2.5-flash-image-preview", "3-pro", 0);
  }

  lemma RoutedFlashLacksDot1()
    ensures !Contains("google/gemini-2.5-flash-image-preview", "3.1")
  {
    AbsentChar("google/gemini-2.5-flash-image-preview", "3.1", 0);
  }

  lemma RoutedFlashLacksDash1()
    ensures !Contains("google/gemini-2.5-flash-image-preview", "3-1")
  {
    AbsentChar("google/gemini-2.5-flash-image-preview", "3-1", 0);
  }

  lemma FamilyOfMakersuiteFlash()
    ensures FamilyOf("gemini-2.5-flash-image") == Flash
  {
    FlashLacksPro(); FlashLacks3Pro(); FlashLacksDot1(); FlashLacksDash1();
  }

  lemma FamilyOfMakersuiteFlash2()
    ensures FamilyOf("gemini-3.1-flash-image-preview") == Flash2
  {
    Flash2LacksPro(); Flash2Lacks3Pro(); Flash2Marker();
  }

  lemma FamilyOfMakersuitePro()
    ensures FamilyOf("gemini-3-pro-image-preview") == Pro
  {
    ProMarker();
  }

  lemma FamilyOfOpenRouterFlash()
    ensures FamilyOf("google/gemini-2.5-flash-image-preview") == Flash
  {
    RoutedFlashLacksPro(); RoutedFlashLacks3Pro(); RoutedFlashLacksDot1(); RoutedFlashLacksDash1();
  }

  lemma FamilyOfOpenRouterFlash2()
    ensures FamilyOf("google/gemini-3.1-flash-image-preview") == Flash2
  {
    RoutedFlash2LacksPro(); RoutedFlash2Lacks3Pro(); RoutedFlash2Marker();
  }

  lemma FamilyOfOpenRouterPro()
    ensures FamilyOf("google/gemini-3-pro-image-preview") == Pro
  {
    RoutedProMarker();
  }

  /** Each listed model id is read back as the family it is listed under. */
  lemma FamilyOfListedIds(p: string, f: Family)
    requires KnownProvider(p)
    ensures FamilyOf(ProviderModels(p).value.Id(f)) == f
  {
    if p == "makersuite" {
      match f
      case Flash => FamilyOfMakersuiteFlash();
      case Flash2 => FamilyOfMakersuiteFlash2();
      case Pro => FamilyOfMakersuitePro();
    } else {
      match f
      case Flash => FamilyOfOpenRouterFlash();
      case Flash2 => FamilyOfOpenRouterFlash2();
      case Pro => FamilyOfOpenRouterPro();
    }
  }

  /** Switching between the listed providers keeps the model family. */
  lemma ProviderSwitchKeepsFamily(p: string, q: string, f: Family)
    requires KnownProvider(p) && KnownProvider(q)
    ensures ModelForProvider(q, ProviderModels(p).value.Id(f)) == Some(ProviderModels(q).value.Id(f))
  {
    FamilyOfListedIds(p, f);
  }

  // ---------------------------------------------------------------------
  // `toggleImageSizeVisibility` and `updateSizeDropdown`.
  // ---------------------------------------------------------------------

  predicate IsProModel(model: string) {
    Contains(model, "gemini-3-pro")
  }

  /** The "flash2" test `/gemini-3\.1/`. */
  predicate IsFlash2Model(model: string) {
    Contains(model, "gemini-3.1")
  }

  /** The values of the size dropdown; "" is its "Default" entry. */
  function SizeOptions(isFlash2: bool): seq<string> {
    if isFlash2 then ["", "512", "1K", "2K", "4K"] else ["", "1K", "2K", "4K"]
  }

  /** `updateSizeDropdown`: a size the dropdown does not offer is reset to "". */
  function SizeForDropdown(isFlash2: bool, imageSize: string): (r: string)
    ensures r in SizeOptions(isFlash2)
    ensures imageSize in SizeOptions(isFlash2) ==> r == imageSize
    ensures imageSize !in SizeOptions(isFlash2) ==> r == ""
  {
    if imageSize in SizeOptions(isFlash2) then imageSize else ""
  }

  /**
   * The image size left by `toggleImageSizeVisibility`: checked against
   * the dropdown only for models that take a size; any other model keeps
   * whatever size was stored.
   */
  function SizeForModel(model: string, imageSize: string): (r: string)
    ensures (IsProModel(model) || IsFlash2Model(model)) ==> r in SizeOptions(IsFlash2Model(model))
    ensures !(IsProModel(model) || IsFlash2Model(model)) ==> r == imageSize
    ensures imageSize in SizeOptions(IsFlash2Model(model)) ==> r == imageSize
  {
    if IsProModel(model) || IsFlash2Model(model) then SizeForDropdown(IsFlash2Model(model), imageSize)
    else imageSize
  }

  /** Normalising the size a second time changes nothing. */
  lemma SizeForModelIdempotent(model: string, imageSize: string)
    ensures SizeForModel(model, SizeForModel(model, imageSize)) == SizeForModel(model, imageSize)
  {
  }

  /** The "512" size is offered only to a flash2 model. */
  lemma HalfKOnlyForFlash2(model: string)
    requires IsProModel(model) && !IsFlash2Model(model)
    ensures SizeForModel(model, "512") == ""
  {
    assert "512" != "" && "512" != "1K" && "512" != "2K" && "512" != "4K";
  }
}
