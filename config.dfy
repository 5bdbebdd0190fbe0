/** `Config` of `src/utils/config.py`: the settings read from the
    environment, their validation (which rescales the audio-feature
    weights in place when they do not sum to one) and the per-user
    preference lookup. Reading the environment, logging and the JSON
    preference files are not modelled; the parsed settings are given. */
module AppConfig {
  import opened Common
  import opened Validation

  /** The audio-feature weight names, in the order the dict lists them. */
  const WEIGHT_FEATURES: seq<string> :=
    ["danceability", "energy", "valence", "acousticness", "instrumentalness", "liveness", "speechiness", "tempo"]

  /** The parsed settings `_load_config` reads from the environment. */
  datatype Settings = Settings(
    clientId: string,
    clientSecret: string,
    diversityWeight: real,
    noveltyWeight: real,
    explorationRate: real,
    recommendationCount: int,
    themeColor: string,
    itemsPerPage: int,
    audioWeights: map<string, real>)

  /** The settings with every environment variable unset. */
  const DEFAULT_SETTINGS: Settings := Settings("", "", 0.3, 0.4, 0.2, 10, "#667eea", 20,
    map["danceability" := 0.2, "energy" := 0.2, "valence" := 0.15, "acousticness" := 0.1,
        "instrumentalness" := 0.1, "liveness" := 0.05, "speechiness" := 0.05, "tempo" := 0.15])

  /** The weight dict has exactly the eight feature keys. */
  predicate HasFeatureKeys(w: map<string, real>) {
    (forall k :: k in w ==> k in WEIGHT_FEATURES) && (forall k :: k in WEIGHT_FEATURES ==> k in w)
  }

  /** The sum of the weights of `ks`. */
  function WeightSum(w: map<string, real>, ks: seq<string>): real
    requires forall k :: k in ks ==> k in w
  {
    if ks == [] then 0.0 else WeightSum(w, ks[..|ks| - 1]) + w[ks[|ks| - 1]]
  }

  /** `sum(AUDIO_FEATURE_WEIGHTS.values())`. */
  function TotalWeight(w: map<string, real>): real
    requires HasFeatureKeys(w)
  {
    WeightSum(w, WEIGHT_FEATURES)
  }

  /** The sum is off by more than the tolerance the validation allows. */
  predicate OffBalance(total: real) {
    AbsR(total - 1.0) > 0.01
  }

  /** Every weight divided by the sum. */
  function Normalised(w: map<string, real>, total: real): (r: map<string, real>)
    requires total != 0.0
    ensures forall k :: k in r <==> k in w
  {
    map k | k in w :: w[k] / total
  }

  /** The complaints `_validate_config` can collect. */
  datatype ConfigError = IdRequired | SecretRequired | DiversityRange | NoveltyRange | ExplorationRange

  /** The text of each complaint. */
  function Message(e: ConfigError): string {
    match e
    case IdRequired => "SPOTIFY_CLIENT_ID is required"
    case SecretRequired => "SPOTIFY_CLIENT_SECRET is required"
    case DiversityRange => "DEFAULT_DIVERSITY_WEIGHT must be between 0 and 1"
    case NoveltyRange => "DEFAULT_NOVELTY_WEIGHT must be between 0 and 1"
    case ExplorationRange => "DEFAULT_EXPLORATION_RATE must be between 0 and 1"
  }

  predicate InUnit(x: real) { 0.0 <= x <= 1.0 }

  /** One complaint when validation fails. */
  function Check(failed: bool, e: ConfigError): seq<ConfigError> {
    if failed then [e] else []
  }

  /** The complaints `_validate_config` collects, in order. */
  function ConfigErrors(require: bool, s: Settings): seq<ConfigError> {
    Check(require && s.clientId == "", IdRequired)
    + Check(require && s.clientSecret == "", SecretRequired)
    + Check(!InUnit(s.diversityWeight), DiversityRange)
    + Check(!InUnit(s.noveltyWeight), NoveltyRange)
    + Check(!InUnit(s.explorationRate), ExplorationRange)
  }

  /** `"\n".join(f"- {error}" for error in errors)`. */
  function Bullets(errors: seq<ConfigError>): string {
    if errors == [] then ""
    else if |errors| == 1 then "- " + Message(errors[0])
    else Bullets(errors[..|errors| - 1]) + "\n- " + Message(errors[|errors| - 1])
  }

  /** How a validation ends: it passes, raises ValueError with the message,
      or raises ZeroDivisionError while rescaling weights that sum to 0. */
  datatype Outcome = Passed | Invalid(message: string) | DivisionByZero

  /** The outcome of `_validate_config(require)` on the settings. */
  function ValidationOutcome(require: bool, s: Settings): Outcome
    requires HasFeatureKeys(s.audioWeights)
  {
    if TotalWeight(s.audioWeights) == 0.0 then DivisionByZero
    else if ConfigErrors(require, s) != [] then
      Invalid("Configuration validation failed:\n" + Bullets(ConfigErrors(require, s)))
    else Passed
  }

  /** The weights `_validate_config` leaves: rescaled when off balance, as
      they were otherwise (and when the rescaling raised on the first key). */
  function WeightsAfter(w: map<string, real>): map<string, real>
    requires HasFeatureKeys(w)
  {
    var total := TotalWeight(w);
    if OffBalance(total) && total != 0.0 then Normalised(w, total) else w
  }

  /** The application configuration object. */
  class Config {
    var clientId: string
    var clientSecret: string
    var diversityWeight: real
    var noveltyWeight: real
    var explorationRate: real
    var recommendationCount: int
    var themeColor: string
    var itemsPerPage: int
    var audioWeights: map<string, real>

    predicate Valid()
      reads this
    {
      HasFeatureKeys(audioWeights)
    }

    /** The settings the fields hold. */
    function Current(): Settings
      reads this
    {
      Settings(clientId, clientSecret, diversityWeight, noveltyWeight, explorationRate,
               recommendationCount, themeColor, itemsPerPage, audioWeights)
    }

    /** `_load_config` without its closing validation. */
    constructor (s: Settings)
      requires HasFeatureKeys(s.audioWeights)
      ensures Valid() && Current() == s
    {
      clientId := s.clientId;
      clientSecret := s.clientSecret;
      diversityWeight := s.diversityWeight;
      noveltyWeight := s.noveltyWeight;
      explorationRate := s.explorationRate;
      recommendationCount := s.recommendationCount;
      themeColor := s.themeColor;
      itemsPerPage := s.itemsPerPage;
      audioWeights := s.audioWeights;
    }

    /** The rescaling loop: every weight is divided by `total`. */
    method NormaliseWeights(total: real)
      requires total != 0.0
      modifies this`audioWeights
      ensures audioWeights == Normalised(old(audioWeights), total)
    {
      var w0 := audioWeights;
      var remaining := w0.Keys;
      while remaining != {}
        invariant remaining <= w0.Keys
        invariant forall k :: k in audioWeights <==> k in w0
        invariant forall k :: k in w0 ==> audioWeights[k] == if k in remaining then w0[k] else w0[k] / total
        decreases |remaining|
      {
        var k :| k in remaining;
        audioWeights := audioWeights[k := audioWeights[k] / total];
        remaining := remaining - {k};
      }
      assert audioWeights == Normalised(w0, total);
    }

    /** `_validate_config(require_spotify_credentials)`. */
    method ValidateConfig(require: bool) returns (outcome: Outcome)
      requires Valid()
      modifies this`audioWeights
      ensures Valid()
      ensures outcome == ValidationOutcome(require, old(Current()))
      ensures audioWeights == WeightsAfter(old(audioWeights))
    {
      var errors: seq<ConfigError> := [];
      errors := errors + Check(require && clientId == "", IdRequired);
      errors := errors + Check(require && clientSecret == "", SecretRequired);
      errors := errors + Check(!InUnit(diversityWeight), DiversityRange);
      errors := errors + Check(!InUnit(noveltyWeight), NoveltyRange);
      errors := errors + Check(!InUnit(explorationRate), ExplorationRange);
      assert errors == ConfigErrors(require, Current());
      var total := TotalWeight(audioWeights);
      if OffBalance(total) {
        if total == 0.0 {
          return DivisionByZero;
        }
        NormaliseWeights(total);
      }
      if errors != [] {
        return Invalid("Configuration validation failed:\n" + Bullets(errors));
      }
      return Passed;
    }

    /** `Config.validate_spotify_credentials`: validation with the
        credentials required; a ValueError reads as False, while a
        ZeroDivisionError is not caught. */
    method ValidateSpotifyCredentials() returns (r: Result<bool>)
      requires Valid()
      modifies this`audioWeights
      ensures Valid()
      ensures r.Err? <==> TotalWeight(old(audioWeights)) == 0.0
      ensures r.Ok? ==> (r.value <==> ConfigErrors(true, old(Current())) == [])
      ensures audioWeights == WeightsAfter(old(audioWeights))
    {
      var outcome := ValidateConfig(true);
      match outcome
      case DivisionByZero => return Err("ZeroDivisionError: float division by zero");
      case Invalid(_) => return Ok(false);
      case Passed => return Ok(true);
    }

    /** `get_user_preference(key, default)`: the session's value, else the
        configured value of one of six keys, else the default. */
    function GetUserPreference(prefs: Option<map<string, PyVal>>, key: string, default: PyVal): (r: PyVal)
      reads this
      ensures prefs.Some? && key in prefs.value ==> r == prefs.value[key]
      ensures (prefs.None? || key !in prefs.value) && key !in PREFERENCE_KEYS ==> r == default
      ensures (prefs.None? || key !in prefs.value) ==>
        && (key == "diversity_weight" ==> r == Num(diversityWeight))
        && (key == "novelty_weight" ==> r == Num(noveltyWeight))
        && (key == "exploration_rate" ==> r == Num(explorationRate))
        && (key == "recommendation_count" ==> r == Num(recommendationCount as real))
        && (key == "theme_color" ==> r == Str(themeColor))
        && (key == "items_per_page" ==> r == Num(itemsPerPage as real))
    {
      var user := prefs.GetOr(map[]);
      if key in user then user[key]
      else if key == "diversity_weight" then Num(diversityWeight)
      else if key == "novelty_weight" then Num(noveltyWeight)
      else if key == "exploration_rate" then Num(explorationRate)
      else if key == "recommendation_count" then Num(recommendationCount as real)
      else if key == "theme_color" then Str(themeColor)
      else if key == "items_per_page" then Num(itemsPerPage as real)
      else default
    }
  }

  /** The keys with a configured fallback. */
  const PREFERENCE_KEYS: seq<string> :=
    ["diversity_weight", "novelty_weight", "exploration_rate", "recommendation_count", "theme_color", "items_per_page"]

  /** The session's preferences after `update_user_preferences(updates)`. */
  function UpdatedPreferences(prefs: Option<map<string, PyVal>>, updates: map<string, PyVal>): map<string, PyVal> {
    prefs.GetOr(map[]) + updates
  }

  /** The module-level `validate_spotify_credentials`: both credentials set. */
  function SpotifyCredentialsConfigured(c: Config): bool
    reads c
  {
    c.clientId != "" && c.clientSecret != ""
  }

  /** `_load_config` followed by its validation without credentials: the
      object, or the exception that escapes the constructor. */
  method Load(s: Settings) returns (r: Result<Config>)
    requires HasFeatureKeys(s.audioWeights)
    ensures r.Err? <==> ValidationOutcome(false, s) != Passed
    ensures r.Ok? ==> fresh(r.value) && r.value.Valid() && r.value.Current() == s.(audioWeights := WeightsAfter(s.audioWeights))
  {
    var c := new Config(s);
    var outcome := c.ValidateConfig(false);
    if outcome.DivisionByZero? {
      return Err("ZeroDivisionError: float division by zero");
    } else if outcome.Invalid? {
      return Err("ValueError: " + outcome.message);
    }
    return Ok(c);
  }

  // ---------------------------------------------------------------------
  // Properties
  // ---------------------------------------------------------------------

  /** Each message is reported exactly when its check fails, so validation
      passes exactly when every check does; without the requirement the
      credentials never produce a message. */
  lemma ConfigErrorsSpec(require: bool, s: Settings)
    ensures IdRequired in ConfigErrors(require, s) <==> require && s.clientId == ""
    ensures SecretRequired in ConfigErrors(require, s) <==> require && s.clientSecret == ""
    ensures DiversityRange in ConfigErrors(require, s) <==> !InUnit(s.diversityWeight)
    ensures NoveltyRange in ConfigErrors(require, s) <==> !InUnit(s.noveltyWeight)
    ensures ExplorationRange in ConfigErrors(require, s) <==> !InUnit(s.explorationRate)
    ensures |ConfigErrors(require, s)| <= 5
    ensures ConfigErrors(require, s) == [] <==>
      (require ==> s.clientId != "" && s.clientSecret != "")
      && InUnit(s.diversityWeight) && InUnit(s.noveltyWeight) && InUnit(s.explorationRate)
  {
  }

  /** Dividing each weight by `t` divides their sum by `t`. */
  lemma {:induction false} WeightSumScaled(w: map<string, real>, ks: seq<string>, t: real)
    requires t != 0.0
    requires forall k :: k in ks ==> k in w
    ensures WeightSum(Normalised(w, t), ks) == WeightSum(w, ks) / t
  {
    if ks != [] {
      var init := ks[..|ks| - 1];
      var last := ks[|ks| - 1];
      WeightSumScaled(w, init, t);
      DivAdd(WeightSum(w, init), w[last], t);
    }
  }

  /** After the rescaling the weights sum to exactly one, so a second
      validation leaves them as they are. */
  lemma NormalisedSumsToOne(w: map<string, real>)
    requires HasFeatureKeys(w) && TotalWeight(w) != 0.0
    ensures HasFeatureKeys(Normalised(w, TotalWeight(w)))
    ensures TotalWeight(Normalised(w, TotalWeight(w))) == 1.0
  {
    var t := TotalWeight(w);
    WeightSumScaled(w, WEIGHT_FEATURES, t);
    QuotientSelf(t);
  }

  lemma QuotientSelf(t: real)
    requires t != 0.0
    ensures t / t == 1.0
  {
  }

  /** Validation is idempotent on the weights: what it leaves is balanced. */
  lemma WeightsAfterIdempotent(w: map<string, real>)
    requires HasFeatureKeys(w)
    ensures HasFeatureKeys(WeightsAfter(w))
    ensures WeightsAfter(WeightsAfter(w)) == WeightsAfter(w)
  {
    var t := TotalWeight(w);
    if OffBalance(t) && t != 0.0 {
      WeightSumScaled(w, WEIGHT_FEATURES, t);
      QuotientSelf(t);
    }
  }

  /** The default weights add up to exactly one. */
  lemma DefaultWeightsSum()
    ensures HasFeatureKeys(DEFAULT_SETTINGS.audioWeights)
    ensures TotalWeight(DEFAULT_SETTINGS.audioWeights) == 1.0
  {
    var w := DEFAULT_SETTINGS.audioWeights;
    var ks := WEIGHT_FEATURES;
    assert ks[..0] == [];
    WeightSumStep(w, ks, 0);
    assert WeightSum(w, ks[..1]) == 0.2;
    WeightSumStep(w, ks, 1);
    assert WeightSum(w, ks[..2]) == 0.4;
    WeightSumStep(w, ks, 2);
    assert WeightSum(w, ks[..3]) == 0.55;
    WeightSumStep(w, ks, 3);
    assert WeightSum(w, ks[..4]) == 0.65;
    WeightSumStep(w, ks, 4);
    assert WeightSum(w, ks[..5]) == 0.75;
    WeightSumStep(w, ks, 5);
    assert WeightSum(w, ks[..6]) == 0.8;
    WeightSumStep(w, ks, 6);
    assert WeightSum(w, ks[..7]) == 0.85;
    WeightSumStep(w, ks, 7);
    assert ks[..8] == ks;
  }

  /** With nothing set in the environment, the configuration loads and its
      weights are left as they are. */
  lemma DefaultsLoad()
    ensures HasFeatureKeys(DEFAULT_SETTINGS.audioWeights)
    ensures ValidationOutcome(false, DEFAULT_SETTINGS) == Passed
    ensures WeightsAfter(DEFAULT_SETTINGS.audioWeights) == DEFAULT_SETTINGS.audioWeights
  {
    DefaultWeightsSum();
  }

  lemma WeightSumStep(w: map<string, real>, ks: seq<string>, i: nat)
    requires i < |ks| && forall k :: k in ks ==> k in w
    ensures WeightSum(w, ks[..i + 1]) == WeightSum(w, ks[..i]) + w[ks[i]]
  {
    assert ks[..i + 1][..i] == ks[..i];
  }

  /** With default ranges, the credential check succeeds exactly when both
      credentials are set, agreeing with the module-level check; a range
      error makes it fail even with both set. */
  lemma CredentialChecksAgree(s: Settings)
    requires InUnit(s.diversityWeight) && InUnit(s.noveltyWeight) && InUnit(s.explorationRate)
    ensures ConfigErrors(true, s) == [] <==> s.clientId != "" && s.clientSecret != ""
  {
    ConfigErrorsSpec(true, s);
  }

  /** After an update, a key reads back its new value; other keys read as
      before. */
  lemma PreferenceAfterUpdate(c: Config, prefs: Option<map<string, PyVal>>, updates: map<string, PyVal>,
                              key: string, default: PyVal)
    ensures var after := c.GetUserPreference(Some(UpdatedPreferences(prefs, updates)), key, default);
      after == if key in updates then updates[key] else c.GetUserPreference(prefs, key, default)
  {
  }
}
