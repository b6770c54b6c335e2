/**
 * The admin settings route: the API keys and model choices kept as key/value rows in the
 * settings table. GET reports them with the keys masked and defaults filled in; PATCH
 * applies one guarded delete or upsert per field of the request body, and refuses the
 * whole request when an OpenAI key does not look like one.
 *
 * The table is the `settings` map of a `SettingsStore`; `View` and `Patched` are the
 * specifications that `Get` and `Patch` are proved to compute.
 */
module AdminSettings {
  import opened Wrappers
  import opened Text

  // ---------------------------------------------------------------------------
  // Row keys, defaults, replies
  // ---------------------------------------------------------------------------

  /** The keys of the settings rows (`KEYS`). */
  const OPENAI: string := "openai_api_key"
  const GEMINI: string := "gemini_api_key"
  const IMAGE: string := "image_api_key"
  const LLM_PROVIDER: string := "llm_provider"
  const GEMINI_MODEL: string := "gemini_model"

  /** The five keys are different strings. */
  lemma KeysDistinct()
    ensures OPENAI != GEMINI && OPENAI != IMAGE && OPENAI != LLM_PROVIDER && OPENAI != GEMINI_MODEL
    ensures GEMINI != IMAGE && GEMINI != LLM_PROVIDER && GEMINI != GEMINI_MODEL
    ensures IMAGE != LLM_PROVIDER && IMAGE != GEMINI_MODEL && LLM_PROVIDER != GEMINI_MODEL
  {
    assert OPENAI[0] == 'o' && GEMINI[0] == 'g' && IMAGE[0] == 'i' && LLM_PROVIDER[0] == 'l';
    assert GEMINI[7] == 'a' && GEMINI_MODEL[7] == 'm';
  }

  const DEFAULT_PROVIDER: string := "openai"
  const DEFAULT_GEMINI_MODEL: string := "gemini-2.5-flash"

  /** The retired model id and the name the Gemini API now knows it by. */
  const RETIRED_MODEL: string := "gemini-3.0-pro"
  const CURRENT_MODEL: string := "gemini-3-pro-preview"

  /** The prefix every OpenAI key has. */
  const OPENAI_PREFIX: string := "sk-"

  /** A reply of the route: its HTTP status and the message of its JSON body. */
  datatype Reply = Reply(status: int, message: string)

  const SAVED: Reply := Reply(200, "Einstellungen gespeichert")
  const INVALID_OPENAI_KEY: Reply := Reply(400, "Ung\U{FC}ltiger OpenAI API Key (sollte mit sk- beginnen)")

  // ---------------------------------------------------------------------------
  // Masking
  // ---------------------------------------------------------------------------

  function Min(a: int, b: int): int {
    if a <= b then a else b
  }

  /** `"*".repeat(n)`. */
  function Stars(n: nat): (r: string)
    ensures |r| == n && forall i :: 0 <= i < n ==> r[i] == '*'
  {
    seq(n, i => '*')
  }

  /**
   * A key as GET shows it: "***" when it is shorter than 12 characters, otherwise its first
   * and last four characters with at most 20 stars between them.
   */
  function MaskKey(value: string): (r: string)
    ensures |value| < 12 ==> r == "***"
    ensures |value| >= 12 ==>
              && |r| == Min(|value|, 28)
              && r[..4] == value[..4]
              && r[|r| - 4..] == value[|value| - 4..]
              && forall i :: 4 <= i < |r| - 4 ==> r[i] == '*'
  {
    if |value| < 12 then "***"
    else value[..4] + Stars(Min(|value| - 8, 20)) + value[|value| - 4..]
  }

  /**
   * The mask shows nothing but the length (up to 28), the first four and the last four
   * characters: two keys that agree on those are masked alike.
   */
  lemma MaskKeyRevealsOnlyEnds(a: string, b: string)
    requires |a| == |b|
    requires |a| >= 12 ==> a[..4] == b[..4] && a[|a| - 4..] == b[|b| - 4..]
    ensures MaskKey(a) == MaskKey(b)
  {
  }

  /** A masked key has at most 28 characters, of which at most 8 are not stars. */
  lemma MaskKeyBounds(value: string)
    ensures |MaskKey(value)| <= 28
    ensures |value| >= 12 ==> forall i :: 4 <= i < |MaskKey(value)| - 4 ==> MaskKey(value)[i] == '*'
  {
  }

  // ---------------------------------------------------------------------------
  // Model names
  // ---------------------------------------------------------------------------

  /** The retired model id is mapped to its current name; every other id is kept. */
  function NormalizeGeminiModel(value: string): (r: string)
    ensures value == RETIRED_MODEL ==> r == CURRENT_MODEL
    ensures value != RETIRED_MODEL ==> r == value
    ensures r != RETIRED_MODEL
  {
    if value == RETIRED_MODEL then CURRENT_MODEL else value
  }

  /** Normalising a normalised id changes nothing. */
  lemma NormalizeGeminiModelIdempotent(value: string)
    ensures NormalizeGeminiModel(NormalizeGeminiModel(value)) == NormalizeGeminiModel(value)
  {
  }

  // ---------------------------------------------------------------------------
  // GET
  // ---------------------------------------------------------------------------

  /** `getSetting`: the value of the row with this key, if there is one. */
  function Lookup(settings: map<string, string>, key: string): (r: Option<string>)
    ensures r.Some? <==> key in settings
    ensures r.Some? ==> r.value == settings[key]
  {
    if key in settings then Some(settings[key]) else None
  }

  /** A stored value JavaScript treats as true: present and not the empty string. */
  predicate Truthy(v: Option<string>) {
    v.Some? && v.value != ""
  }

  /** `v ? maskKey(v) : null`. */
  function Masked(v: Option<string>): Option<string> {
    if Truthy(v) then Some(MaskKey(v.value)) else None
  }

  /** `v || d`. */
  function OrDefault(v: Option<string>, d: string): string {
    if Truthy(v) then v.value else d
  }

  /** The JSON body GET answers with. */
  datatype SettingsView = SettingsView(
    openaiApiKey: Option<string>, openaiConfigured: bool,
    geminiApiKey: Option<string>, geminiConfigured: bool,
    imageApiKey: Option<string>, imageApiConfigured: bool,
    llmProvider: string, geminiModel: string)

  /** The settings as the GET handler reports them. */
  function View(settings: map<string, string>): SettingsView {
    var openai, gemini, image := Lookup(settings, OPENAI), Lookup(settings, GEMINI), Lookup(settings, IMAGE);
    SettingsView(
      Masked(openai), Truthy(openai),
      Masked(gemini), Truthy(gemini),
      Masked(image), Truthy(image),
      OrDefault(Lookup(settings, LLM_PROVIDER), DEFAULT_PROVIDER),
      NormalizeGeminiModel(OrDefault(Lookup(settings, GEMINI_MODEL), DEFAULT_GEMINI_MODEL)))
  }

  /**
   * GET's defaults apply row by row: a missing or empty provider row reports the OpenAI
   * provider, a missing or empty model row Gemini 2.5 Flash, and a missing or empty key row
   * no key; a non-empty provider row is reported as stored.
   */
  lemma ViewDefaults(settings: map<string, string>)
    ensures (LLM_PROVIDER !in settings || settings[LLM_PROVIDER] == "") ==> View(settings).llmProvider == "openai"
    ensures LLM_PROVIDER in settings && settings[LLM_PROVIDER] != "" ==> View(settings).llmProvider == settings[LLM_PROVIDER]
    ensures (GEMINI_MODEL !in settings || settings[GEMINI_MODEL] == "") ==> View(settings).geminiModel == "gemini-2.5-flash"
    ensures (OPENAI !in settings || settings[OPENAI] == "") ==> View(settings).openaiApiKey == None && !View(settings).openaiConfigured
    ensures (GEMINI !in settings || settings[GEMINI] == "") ==> View(settings).geminiApiKey == None && !View(settings).geminiConfigured
    ensures (IMAGE !in settings || settings[IMAGE] == "") ==> View(settings).imageApiKey == None && !View(settings).imageApiConfigured
  {
  }

  /** A key is reported as configured exactly when it is reported, and then only masked. */
  lemma ViewMasksKeys(settings: map<string, string>)
    ensures View(settings).openaiConfigured <==> View(settings).openaiApiKey.Some?
    ensures View(settings).geminiConfigured <==> View(settings).geminiApiKey.Some?
    ensures View(settings).imageApiConfigured <==> View(settings).imageApiKey.Some?
    ensures View(settings).openaiApiKey.Some? ==> View(settings).openaiApiKey.value == MaskKey(settings[OPENAI])
    ensures View(settings).geminiApiKey.Some? ==> View(settings).geminiApiKey.value == MaskKey(settings[GEMINI])
    ensures View(settings).imageApiKey.Some? ==> View(settings).imageApiKey.value == MaskKey(settings[IMAGE])
    ensures View(settings).geminiModel != RETIRED_MODEL
  {
  }

  // ---------------------------------------------------------------------------
  // PATCH
  // ---------------------------------------------------------------------------

  /** A field of the request body: left out, a string, or any other JSON value. */
  datatype Field = Undefined | Str(s: string) | NonString

  /** The fields PATCH looks at. */
  datatype PatchBody = PatchBody(
    openaiApiKey: Field, geminiApiKey: Field, imageApiKey: Field,
    llmProvider: Field, geminiModel: Field)

  /** `typeof f === "string" ? f.trim() : ""`. */
  function TrimmedText(f: Field): (r: string)
    ensures IsTrimmed(r)
  {
    if f.Str? then Trim(f.s) else ""
  }

  /** `deleteMany` of the row when the value is empty, otherwise `upsert` of it. */
  function StoreOrDelete(settings: map<string, string>, key: string, value: string): map<string, string> {
    if value == "" then settings - {key} else settings[key := value]
  }

  /** The PATCH handler's OpenAI block; None is the 400 reply. */
  function ApplyOpenAi(settings: map<string, string>, f: Field): Option<map<string, string>> {
    if f.Undefined? then Some(settings)
    else
      var value := TrimmedText(f);
      if value == "" || StartsWith(value, OPENAI_PREFIX) then Some(StoreOrDelete(settings, OPENAI, value))
      else None
  }

  /** The PATCH handler's Gemini-key or image-key block. */
  function ApplyKey(settings: map<string, string>, key: string, f: Field): map<string, string> {
    if f.Undefined? then settings else StoreOrDelete(settings, key, TrimmedText(f))
  }

  /** The PATCH handler's provider block: "gemini" only for exactly that string. */
  function ApplyProvider(settings: map<string, string>, f: Field): map<string, string> {
    if f.Undefined? then settings
    else settings[LLM_PROVIDER := if f == Str("gemini") then "gemini" else "openai"]
  }

  /** The PATCH handler's model block: only for a string that is not blank. */
  function ApplyModel(settings: map<string, string>, f: Field): map<string, string> {
    if f.Str? && Trim(f.s) != "" then settings[GEMINI_MODEL := Trim(f.s)] else settings
  }

  /** The table after the PATCH handler's five blocks, or None when the request is refused. */
  function Patched(settings: map<string, string>, body: PatchBody): Option<map<string, string>> {
    match ApplyOpenAi(settings, body.openaiApiKey)
    case None => None
    case Some(s) =>
      Some(ApplyModel(ApplyProvider(ApplyKey(ApplyKey(s, GEMINI, body.geminiApiKey), IMAGE, body.imageApiKey),
                                    body.llmProvider), body.geminiModel))
  }

  /**
   * The request is refused exactly when an OpenAI key is given that is neither blank nor
   * starts with "sk-".
   */
  lemma PatchRefused(settings: map<string, string>, body: PatchBody)
    ensures Patched(settings, body).None? <==>
            && !body.openaiApiKey.Undefined?
            && TrimmedText(body.openaiApiKey) != ""
            && !StartsWith(TrimmedText(body.openaiApiKey), "sk-")
  {
  }

  /** The row under k after the OpenAI block, when the request goes on. */
  lemma OpenAiLookup(settings: map<string, string>, f: Field, after: map<string, string>, k: string)
    requires ApplyOpenAi(settings, f) == Some(after)
    ensures Lookup(after, k) ==
            if k != OPENAI || f.Undefined? then Lookup(settings, k)
            else if TrimmedText(f) == "" then None
            else Some(TrimmedText(f))
  {
  }

  /** The row under k after the block of the Gemini key or of the image key. */
  lemma KeyLookup(settings: map<string, string>, key: string, f: Field, k: string)
    ensures Lookup(ApplyKey(settings, key, f), k) ==
            if k != key || f.Undefined? then Lookup(settings, k)
            else if TrimmedText(f) == "" then None
            else Some(TrimmedText(f))
  {
  }

  /** The row under k after the provider block. */
  lemma ProviderLookup(settings: map<string, string>, f: Field, k: string)
    ensures Lookup(ApplyProvider(settings, f), k) ==
            if k != LLM_PROVIDER || f.Undefined? then Lookup(settings, k)
            else if f == Str("gemini") then Some("gemini")
            else Some("openai")
  {
  }

  /** The row under k after the model block. */
  lemma ModelLookup(settings: map<string, string>, f: Field, k: string)
    ensures Lookup(ApplyModel(settings, f), k) ==
            if k == GEMINI_MODEL && f.Str? && Trim(f.s) != "" then Some(Trim(f.s))
            else Lookup(settings, k)
  {
  }

  /**
   * The row under k after PATCH, block by block: each block writes its own row only, so
   * the row is the one of the block for k, or the row as it was.
   */
  lemma PatchLookup(settings: map<string, string>, body: PatchBody, k: string)
    requires Patched(settings, body).Some?
    ensures Lookup(Patched(settings, body).value, k) ==
            if k == OPENAI then
              if body.openaiApiKey.Undefined? then Lookup(settings, k)
              else if TrimmedText(body.openaiApiKey) == "" then None
              else Some(TrimmedText(body.openaiApiKey))
            else if k == GEMINI then
              if body.geminiApiKey.Undefined? then Lookup(settings, k)
              else if TrimmedText(body.geminiApiKey) == "" then None
              else Some(TrimmedText(body.geminiApiKey))
            else if k == IMAGE then
              if body.imageApiKey.Undefined? then Lookup(settings, k)
              else if TrimmedText(body.imageApiKey) == "" then None
              else Some(TrimmedText(body.imageApiKey))
            else if k == LLM_PROVIDER then
              if body.llmProvider.Undefined? then Lookup(settings, k)
              else if body.llmProvider == Str("gemini") then Some("gemini")
              else Some("openai")
            else if k == GEMINI_MODEL && body.geminiModel.Str? && Trim(body.geminiModel.s) != "" then
              Some(Trim(body.geminiModel.s))
            else Lookup(settings, k)
  {
    KeysDistinct();
    var s1 := ApplyOpenAi(settings, body.openaiApiKey).value;
    var s2 := ApplyKey(s1, GEMINI, body.geminiApiKey);
    var s3 := ApplyKey(s2, IMAGE, body.imageApiKey);
    var s4 := ApplyProvider(s3, body.llmProvider);
    OpenAiLookup(settings, body.openaiApiKey, s1, k);
    KeyLookup(s1, GEMINI, body.geminiApiKey, k);
    KeyLookup(s2, IMAGE, body.imageApiKey, k);
    ProviderLookup(s3, body.llmProvider, k);
    ModelLookup(s4, body.geminiModel, k);
  }

  /** Sending the same PATCH twice leaves the table as the first one did. */
  lemma PatchIdempotent(settings: map<string, string>, body: PatchBody)
    requires Patched(settings, body).Some?
    ensures Patched(Patched(settings, body).value, body) == Patched(settings, body)
  {
    var after := Patched(settings, body).value;
    PatchRefused(settings, body);
    PatchRefused(after, body);
    var again := Patched(after, body).value;
    forall k ensures Lookup(again, k) == Lookup(after, k) {
      PatchLookupAgain(settings, body, after, again, k);
    }
    SameLookups(again, after);
  }

  /** Every row a block writes depends on the body alone, so writing it again changes nothing. */
  lemma PatchLookupAgain(settings: map<string, string>, body: PatchBody, after: map<string, string>,
                         again: map<string, string>, k: string)
    requires Patched(settings, body) == Some(after) && Patched(after, body) == Some(again)
    ensures Lookup(again, k) == Lookup(after, k)
  {
    PatchLookup(settings, body, k);
    PatchLookup(after, body, k);
  }

  /** Two tables that answer every lookup alike are equal. */
  lemma SameLookups(a: map<string, string>, b: map<string, string>)
    requires forall key :: Lookup(a, key) == Lookup(b, key)
    ensures a == b
  {
    assert forall key :: key in a <==> Lookup(a, key).Some?;
  }

  // ---------------------------------------------------------------------------
  // What the route ever stores
  // ---------------------------------------------------------------------------

  /**
   * A table only PATCH has written: an OpenAI key starts with "sk-", keys and the model are
   * trimmed and not empty, and the provider is "openai" or "gemini".
   */
  predicate StoreOk(settings: map<string, string>) {
    && (OPENAI in settings ==> IsTrimmed(settings[OPENAI]) && StartsWith(settings[OPENAI], OPENAI_PREFIX))
    && (GEMINI in settings ==> IsTrimmed(settings[GEMINI]) && settings[GEMINI] != "")
    && (IMAGE in settings ==> IsTrimmed(settings[IMAGE]) && settings[IMAGE] != "")
    && (LLM_PROVIDER in settings ==> settings[LLM_PROVIDER] in {"openai", "gemini"})
    && (GEMINI_MODEL in settings ==> IsTrimmed(settings[GEMINI_MODEL]) && settings[GEMINI_MODEL] != "")
  }

  /** PATCH keeps the table well formed. */
  lemma PatchStoreOk(settings: map<string, string>, body: PatchBody)
    requires StoreOk(settings) && Patched(settings, body).Some?
    ensures StoreOk(Patched(settings, body).value)
  {
    var after := Patched(settings, body).value;
    PatchLookup(settings, body, OPENAI);
    PatchLookup(settings, body, GEMINI);
    PatchLookup(settings, body, IMAGE);
    PatchLookup(settings, body, LLM_PROVIDER);
    PatchLookup(settings, body, GEMINI_MODEL);
  }

  /**
   * On a well-formed table GET reports one of the two providers, and a configured OpenAI
   * key shows its "sk-" prefix once it is long enough to be masked.
   */
  lemma ViewOfStoreOk(settings: map<string, string>)
    requires StoreOk(settings)
    ensures View(settings).llmProvider in {"openai", "gemini"}
    ensures View(settings).openaiConfigured <==> OPENAI in settings
    ensures View(settings).openaiApiKey.Some? && |settings[OPENAI]| >= 12 ==>
              StartsWith(View(settings).openaiApiKey.value, OPENAI_PREFIX)
  {
    if OPENAI in settings {
      assert StartsWith(settings[OPENAI], OPENAI_PREFIX);
      if |settings[OPENAI]| >= 12 {
        var m := MaskKey(settings[OPENAI]);
        assert m[..3] == m[..4][..3] == settings[OPENAI][..4][..3];
      }
    }
  }

  /** GET after a saved PATCH reports the provider and the model it sent. */
  lemma ViewAfterPatch(settings: map<string, string>, body: PatchBody)
    requires Patched(settings, body).Some?
    ensures body.llmProvider == Str("gemini") ==> View(Patched(settings, body).value).llmProvider == "gemini"
    ensures body.llmProvider.Str? && body.llmProvider.s != "gemini" ==>
              View(Patched(settings, body).value).llmProvider == "openai"
    ensures body.geminiModel.Str? && Trim(body.geminiModel.s) != "" ==>
              View(Patched(settings, body).value).geminiModel == NormalizeGeminiModel(Trim(body.geminiModel.s))
    ensures TrimmedText(body.openaiApiKey) != "" ==> View(Patched(settings, body).value).openaiConfigured
  {
    PatchLookup(settings, body, OPENAI);
    PatchLookup(settings, body, LLM_PROVIDER);
    PatchLookup(settings, body, GEMINI_MODEL);
  }

  /** One of the outcomes of the OpenAI block that let the request go on. */
  lemma OpenAiStep(settings: map<string, string>, f: Field, after: map<string, string>)
    requires
      || (f.Undefined? && after == settings)
      || (!f.Undefined? && TrimmedText(f) == "" && after == settings - {OPENAI})
      || (!f.Undefined? && TrimmedText(f) != "" && StartsWith(TrimmedText(f), OPENAI_PREFIX) &&
          after == settings[OPENAI := TrimmedText(f)])
    ensures ApplyOpenAi(settings, f) == Some(after)
  {
  }

  /** The three outcomes of the Gemini key block or the image key block. */
  lemma KeyStep(settings: map<string, string>, key: string, f: Field, after: map<string, string>)
    requires
      || (f.Undefined? && after == settings)
      || (!f.Undefined? && TrimmedText(f) == "" && after == settings - {key})
      || (!f.Undefined? && TrimmedText(f) != "" && after == settings[key := TrimmedText(f)])
    ensures ApplyKey(settings, key, f) == after
  {
  }

  /** The two outcomes of the provider block. */
  lemma ProviderStep(settings: map<string, string>, f: Field, after: map<string, string>)
    requires
      || (f.Undefined? && after == settings)
      || (!f.Undefined? && after == settings[LLM_PROVIDER := if f == Str("gemini") then "gemini" else "openai"])
    ensures ApplyProvider(settings, f) == after
  {
  }

  /** The two outcomes of the model block. */
  lemma ModelStep(settings: map<string, string>, f: Field, after: map<string, string>)
    requires
      || (f.Str? && Trim(f.s) != "" && after == settings[GEMINI_MODEL := Trim(f.s)])
      || (!(f.Str? && Trim(f.s) != "") && after == settings)
    ensures ApplyModel(settings, f) == after
  {
  }

  /** The five blocks taken one after the other. */
  lemma PatchedSteps(s0: map<string, string>, body: PatchBody, s1: map<string, string>, s2: map<string, string>,
                     s3: map<string, string>, s4: map<string, string>, s5: map<string, string>)
    requires ApplyOpenAi(s0, body.openaiApiKey) == Some(s1)
    requires s2 == ApplyKey(s1, GEMINI, body.geminiApiKey) && s3 == ApplyKey(s2, IMAGE, body.imageApiKey)
    requires s4 == ApplyProvider(s3, body.llmProvider) && s5 == ApplyModel(s4, body.geminiModel)
    ensures Patched(s0, body) == Some(s5)
  {
  }

  // ---------------------------------------------------------------------------
  // The table
  // ---------------------------------------------------------------------------

  /** The settings table, one row per key. */
  class SettingsStore {
    var settings: map<string, string>

    constructor()
      ensures settings == map[]
    {
      settings := map[];
    }

    /** `getSetting`. */
    function GetSetting(key: string): (r: Option<string>)
      reads this
      ensures r.Some? <==> key in settings
      ensures r.Some? ==> r.value == settings[key]
    {
      Lookup(settings, key)
    }

    /** The GET handler: the five rows read and reported. */
    method Get() returns (view: SettingsView)
      ensures view == View(settings)
    {
      var openai := GetSetting(OPENAI);
      var gemini := GetSetting(GEMINI);
      var image := GetSetting(IMAGE);
      var provider := GetSetting(LLM_PROVIDER);
      var model := GetSetting(GEMINI_MODEL);
      view := SettingsView(
        Masked(openai), Truthy(openai),
        Masked(gemini), Truthy(gemini),
        Masked(image), Truthy(image),
        OrDefault(provider, DEFAULT_PROVIDER),
        NormalizeGeminiModel(OrDefault(model, DEFAULT_GEMINI_MODEL)));
    }

    /**
     * The PATCH handler: one guarded delete or upsert per field, in order; an OpenAI key
     * that is neither blank nor starts with "sk-" ends the request before anything is written.
     */
    method Patch(body: PatchBody) returns (reply: Reply)
      modifies this
      ensures Patched(old(settings), body).None? ==> reply == INVALID_OPENAI_KEY && settings == old(settings)
      ensures Patched(old(settings), body).Some? ==> reply == SAVED && settings == Patched(old(settings), body).value
    {
      ghost var s0 := settings;
      if !body.openaiApiKey.Undefined? {
        var value := TrimmedText(body.openaiApiKey);
        if value == "" {
          settings := settings - {OPENAI};
        } else if StartsWith(value, OPENAI_PREFIX) {
          settings := settings[OPENAI := value];
        } else {
          PatchRefused(s0, body);
          return INVALID_OPENAI_KEY;
        }
      }
      ghost var s1 := settings;
      OpenAiStep(s0, body.openaiApiKey, s1);

      if !body.geminiApiKey.Undefined? {
        var value := TrimmedText(body.geminiApiKey);
        if value == "" {
          settings := settings - {GEMINI};
        } else {
          settings := settings[GEMINI := value];
        }
      }
      ghost var s2 := settings;
      KeyStep(s1, GEMINI, body.geminiApiKey, s2);

      if !body.imageApiKey.Undefined? {
        var value := TrimmedText(body.imageApiKey);
        if value == "" {
          settings := settings - {IMAGE};
        } else {
          settings := settings[IMAGE := value];
        }
      }
      ghost var s3 := settings;
      KeyStep(s2, IMAGE, body.imageApiKey, s3);

      if !body.llmProvider.Undefined? {
        var value := if body.llmProvider == Str("gemini") then "gemini" else "openai";
        settings := settings[LLM_PROVIDER := value];
      }
      ghost var s4 := settings;
      ProviderStep(s3, body.llmProvider, s4);

      if body.geminiModel.Str? && Trim(body.geminiModel.s) != "" {
        var value := Trim(body.geminiModel.s);
        settings := settings[GEMINI_MODEL := value];
      }
      ModelStep(s4, body.geminiModel, settings);
      PatchedSteps(s0, body, s1, s2, s3, s4, settings);
      reply := SAVED;
    }
  }
}
