/** `ValidationHelpers` of `src/utils/helpers.py`: the audio-feature and
    track validators, which collect error messages in a list and report
    valid exactly when the list is empty. Values are dynamically typed
    Python values; `in` and `[]` behave as they do on dicts, strings and
    lists, and raise (an `Err`) where Python raises. */
module Validation {
  import opened Common
  import opened Text

  /** A Python value as far as the validators look at it: a number (an
      int, a float or a bool, which `isinstance(x, (int, float))` all
      accept), a string, a dict, a list (a tuple or a set behaves the same
      here: `in` is element membership and a string index raises), or
      anything else that supports neither (`None`, an object). */
  datatype PyVal = Num(x: real) | Str(s: string) | Dict(d: map<string, PyVal>) | List(xs: seq<PyVal>) | Other

  /** `key in v`: dict membership, substring on strings, element equality
      on lists, TypeError otherwise. */
  function Contains(v: PyVal, key: string): Result<bool> {
    match v
    case Dict(d) => Ok(key in d)
    case Str(s) => Ok(IsSubstring(key, s))
    case List(xs) => Ok(Str(key) in xs)
    case _ => Err("TypeError: argument is not iterable")
  }

  /** `v[key]`: the dict entry; a string or a list raises TypeError. Only
      called after `key in v` held. */
  function Index(v: PyVal, key: string): Result<PyVal> {
    match v
    case Dict(d) => if key in d then Ok(d[key]) else Err("KeyError")
    case _ => Err("TypeError: indices must be integers")
  }

  /** One check's messages, or the exception it raised. */
  function Then(a: Result<seq<string>>, b: Result<seq<string>>): Result<seq<string>> {
    if a.Err? then a else if b.Err? then b else Ok(a.value + b.value)
  }

  // ---------------------------------------------------------------------
  // validate_audio_features
  // ---------------------------------------------------------------------

  const REQUIRED_FEATURES: seq<string> := ["danceability", "energy", "valence"]
  const OPTIONAL_FEATURES: seq<string> := ["acousticness", "instrumentalness", "liveness", "speechiness"]

  /** The range message of a 0..1 feature. */
  function UnitCheck(key: string, x: PyVal): seq<string> {
    if !x.Num? then ["Feature " + key + " must be numeric"]
    else if !(0.0 <= x.x <= 1.0) then ["Feature " + key + " must be between 0 and 1"]
    else []
  }

  /** The validation of one required feature. */
  function RequiredFeature(v: PyVal, key: string): Result<seq<string>> {
    match Contains(v, key)
    case Err(e) => Err(e)
    case Ok(present) =>
      if !present then Ok(["Missing required feature: " + key])
      else match Index(v, key)
        case Err(e) => Err(e)
        case Ok(x) => Ok(UnitCheck(key, x))
  }

  /** The validation of one optional feature. */
  function OptionalFeature(v: PyVal, key: string): Result<seq<string>> {
    match Contains(v, key)
    case Err(e) => Err(e)
    case Ok(present) =>
      if !present then Ok([])
      else match Index(v, key)
        case Err(e) => Err(e)
        case Ok(x) => Ok(UnitCheck(key, x))
  }

  function TempoCheck(v: PyVal): Result<seq<string>> {
    match Contains(v, "tempo")
    case Err(e) => Err(e)
    case Ok(present) =>
      if !present then Ok([])
      else match Index(v, "tempo")
        case Err(e) => Err(e)
        case Ok(x) =>
          if !x.Num? then Ok(["Tempo must be numeric"])
          else if !(0.0 <= x.x <= 300.0) then Ok(["Tempo must be between 0 and 300 BPM"])
          else Ok([])
  }

  function RequiredAll(v: PyVal, ks: seq<string>): Result<seq<string>> {
    if ks == [] then Ok([]) else Then(RequiredAll(v, ks[..|ks| - 1]), RequiredFeature(v, ks[|ks| - 1]))
  }

  function OptionalAll(v: PyVal, ks: seq<string>): Result<seq<string>> {
    if ks == [] then Ok([]) else Then(OptionalAll(v, ks[..|ks| - 1]), OptionalFeature(v, ks[|ks| - 1]))
  }

  /** The messages `validate_audio_features` collects, in order, or the
      exception it raises. */
  function AudioErrors(v: PyVal): Result<seq<string>> {
    Then(Then(RequiredAll(v, REQUIRED_FEATURES), OptionalAll(v, OPTIONAL_FEATURES)), TempoCheck(v))
  }

  /** The feature dict passes: the required features are numbers in [0,1],
      the optional ones present are too, and a tempo is a number in
      [0,300]. */
  predicate AudioFeaturesOk(d: map<string, PyVal>) {
    && (forall k :: k in REQUIRED_FEATURES ==> k in d && d[k].Num? && 0.0 <= d[k].x <= 1.0)
    && (forall k :: k in OPTIONAL_FEATURES && k in d ==> d[k].Num? && 0.0 <= d[k].x <= 1.0)
    && ("tempo" in d ==> d["tempo"].Num? && 0.0 <= d["tempo"].x <= 300.0)
  }

  /** The two loops and the tempo check of `validate_audio_features`. */
  method ValidateAudioFeatures(v: PyVal) returns (r: Result<(bool, seq<string>)>)
    ensures AudioErrors(v).Err? <==> r.Err?
    ensures r.Ok? ==> r.value.1 == AudioErrors(v).value && (r.value.0 <==> r.value.1 == [])
  {
    var errors: seq<string> := [];
    for i := 0 to |REQUIRED_FEATURES|
      invariant RequiredAll(v, REQUIRED_FEATURES[..i]) == Ok(errors)
    {
      assert REQUIRED_FEATURES[..i + 1][..i] == REQUIRED_FEATURES[..i];
      var step := RequiredFeature(v, REQUIRED_FEATURES[i]);
      if step.Err? {
        RequiredFails(v, REQUIRED_FEATURES, i + 1);
        return Err(step.error);
      }
      errors := errors + step.value;
    }
    assert REQUIRED_FEATURES[..|REQUIRED_FEATURES|] == REQUIRED_FEATURES;
    var optional: seq<string> := [];
    for i := 0 to |OPTIONAL_FEATURES|
      invariant OptionalAll(v, OPTIONAL_FEATURES[..i]) == Ok(optional)
    {
      assert OPTIONAL_FEATURES[..i + 1][..i] == OPTIONAL_FEATURES[..i];
      var step := OptionalFeature(v, OPTIONAL_FEATURES[i]);
      if step.Err? {
        OptionalFails(v, OPTIONAL_FEATURES, i + 1);
        return Err(step.error);
      }
      optional := optional + step.value;
    }
    assert OPTIONAL_FEATURES[..|OPTIONAL_FEATURES|] == OPTIONAL_FEATURES;
    errors := errors + optional;
    var tempo := TempoCheck(v);
    if tempo.Err? {
      return Err(tempo.error);
    }
    errors := errors + tempo.value;
    return Ok((errors == [], errors));
  }

  /** Once a check raised, the whole fold has raised. */
  lemma {:induction false} RequiredFails(v: PyVal, ks: seq<string>, n: nat)
    requires 0 < n <= |ks| && RequiredAll(v, ks[..n - 1]).Ok? && RequiredFeature(v, ks[n - 1]).Err?
    ensures RequiredAll(v, ks).Err?
  {
    RequiredStaysErr(v, ks, n);
  }

  lemma {:induction false} RequiredStaysErr(v: PyVal, ks: seq<string>, n: nat)
    requires 0 < n <= |ks| && RequiredAll(v, ks[..n]).Err?
    ensures RequiredAll(v, ks).Err?
    decreases |ks| - n
  {
    if n < |ks| {
      assert ks[..n + 1][..n] == ks[..n];
      RequiredStaysErr(v, ks, n + 1);
    } else {
      assert ks[..n] == ks;
    }
  }

  lemma {:induction false} OptionalFails(v: PyVal, ks: seq<string>, n: nat)
    requires 0 < n <= |ks| && OptionalAll(v, ks[..n - 1]).Ok? && OptionalFeature(v, ks[n - 1]).Err?
    ensures OptionalAll(v, ks).Err?
  {
    OptionalStaysErr(v, ks, n);
  }

  lemma {:induction false} OptionalStaysErr(v: PyVal, ks: seq<string>, n: nat)
    requires 0 < n <= |ks| && OptionalAll(v, ks[..n]).Err?
    ensures OptionalAll(v, ks).Err?
    decreases |ks| - n
  {
    if n < |ks| {
      assert ks[..n + 1][..n] == ks[..n];
      OptionalStaysErr(v, ks, n + 1);
    } else {
      assert ks[..n] == ks;
    }
  }

  /** On a dict, the required checks never raise, and find nothing exactly
      when every listed feature is a number in [0,1]. */
  lemma {:induction false} RequiredAllDict(d: map<string, PyVal>, ks: seq<string>)
    ensures RequiredAll(Dict(d), ks).Ok?
    ensures RequiredAll(Dict(d), ks).value == [] <==>
      forall k :: k in ks ==> k in d && d[k].Num? && 0.0 <= d[k].x <= 1.0
  {
    if ks != [] {
      RequiredAllDict(d, ks[..|ks| - 1]);
      assert forall k :: k in ks <==> k in ks[..|ks| - 1] || k == ks[|ks| - 1];
    }
  }

  lemma {:induction false} OptionalAllDict(d: map<string, PyVal>, ks: seq<string>)
    ensures OptionalAll(Dict(d), ks).Ok?
    ensures OptionalAll(Dict(d), ks).value == [] <==>
      forall k :: k in ks && k in d ==> d[k].Num? && 0.0 <= d[k].x <= 1.0
  {
    if ks != [] {
      OptionalAllDict(d, ks[..|ks| - 1]);
      assert forall k :: k in ks <==> k in ks[..|ks| - 1] || k == ks[|ks| - 1];
    }
  }

  /** A feature dict never makes the validator raise, and it is reported
      valid exactly when it passes every check. */
  lemma AudioErrorsDict(d: map<string, PyVal>)
    ensures AudioErrors(Dict(d)).Ok?
    ensures AudioErrors(Dict(d)).value == [] <==> AudioFeaturesOk(d)
  {
    RequiredAllDict(d, REQUIRED_FEATURES);
    OptionalAllDict(d, OPTIONAL_FEATURES);
  }

  /** On a dict each required feature adds exactly one message when it
      fails and none otherwise, so there are never more messages from the
      required checks than required features. */
  lemma {:induction false} RequiredAllCount(d: map<string, PyVal>, ks: seq<string>)
    ensures RequiredAll(Dict(d), ks).Ok? && |RequiredAll(Dict(d), ks).value| <= |ks|
  {
    if ks != [] {
      RequiredAllCount(d, ks[..|ks| - 1]);
    }
  }

  /** A number or another value that answers neither `in` nor `[]`
      makes the validator raise. */
  lemma AudioErrorsScalar(v: PyVal)
    requires v.Num? || v.Other?
    ensures AudioErrors(v).Err?
  {
    assert RequiredAll(v, REQUIRED_FEATURES[..1]).Err?;
    RequiredStaysErr(v, REQUIRED_FEATURES, 1);
  }

  /** Every key the validator looks up with `in`. */
  const AUDIO_KEYS: seq<string> := REQUIRED_FEATURES + OPTIONAL_FEATURES + ["tempo"]

  /** One "missing" message per required feature, in order. */
  function MissingMessages(ks: seq<string>): (ms: seq<string>)
    ensures |ms| == |ks|
  {
    if ks == [] then [] else MissingMessages(ks[..|ks| - 1]) + ["Missing required feature: " + ks[|ks| - 1]]
  }

  /** A string or a list answers `in` but raises on a string index: the
      validator raises exactly when one of the feature names is in it (a
      substring of the string, an element of the list), and otherwise
      reports the three required features missing, so `[]` and `""` are
      rejected with those three messages. */
  lemma AudioErrorsIndexless(v: PyVal)
    requires v.Str? || v.List?
    ensures AudioErrors(v).Err? <==> exists k :: k in AUDIO_KEYS && Contains(v, k) == Ok(true)
    ensures AudioErrors(v).Ok? ==> AudioErrors(v).value == MissingMessages(REQUIRED_FEATURES)
  {
    RequiredAllIndexless(v, REQUIRED_FEATURES);
    OptionalAllIndexless(v, OPTIONAL_FEATURES);
    assert forall k :: k in AUDIO_KEYS <==> k in REQUIRED_FEATURES || k in OPTIONAL_FEATURES || k == "tempo";
  }

  lemma {:induction false} RequiredAllIndexless(v: PyVal, ks: seq<string>)
    requires v.Str? || v.List?
    ensures RequiredAll(v, ks).Err? <==> exists k :: k in ks && Contains(v, k) == Ok(true)
    ensures RequiredAll(v, ks).Ok? ==> RequiredAll(v, ks).value == MissingMessages(ks)
  {
    if ks != [] {
      RequiredAllIndexless(v, ks[..|ks| - 1]);
      assert forall k :: k in ks <==> k in ks[..|ks| - 1] || k == ks[|ks| - 1];
    }
  }

  lemma {:induction false} OptionalAllIndexless(v: PyVal, ks: seq<string>)
    requires v.Str? || v.List?
    ensures OptionalAll(v, ks).Err? <==> exists k :: k in ks && Contains(v, k) == Ok(true)
    ensures OptionalAll(v, ks).Ok? ==> OptionalAll(v, ks).value == []
  {
    if ks != [] {
      OptionalAllIndexless(v, ks[..|ks| - 1]);
      assert forall k :: k in ks <==> k in ks[..|ks| - 1] || k == ks[|ks| - 1];
    }
  }

  // ---------------------------------------------------------------------
  // validate_track_data
  // ---------------------------------------------------------------------

  const REQUIRED_FIELDS: seq<string> := ["id", "name", "artist"]

  /** The validation of one required text field. */
  function RequiredField(t: map<string, PyVal>, key: string): seq<string> {
    if key !in t then ["Missing required field: " + key]
    else if !t[key].Str? || PyStrip(t[key].s) == "" then ["Field " + key + " must be a non-empty string"]
    else []
  }

  function RequiredFields(t: map<string, PyVal>, ks: seq<string>): seq<string> {
    if ks == [] then [] else RequiredFields(t, ks[..|ks| - 1]) + RequiredField(t, ks[|ks| - 1])
  }

  /** The validations of `popularity` (0..100) and `duration_ms` (non-negative). */
  function PopularityCheck(t: map<string, PyVal>): seq<string> {
    if "popularity" !in t then []
    else if !t["popularity"].Num? then ["Field popularity must be numeric"]
    else if !(0.0 <= t["popularity"].x <= 100.0) then ["Popularity must be between 0 and 100"]
    else []
  }

  function DurationCheck(t: map<string, PyVal>): seq<string> {
    if "duration_ms" !in t then []
    else if !t["duration_ms"].Num? then ["Field duration_ms must be numeric"]
    else if t["duration_ms"].x < 0.0 then ["Duration must be non-negative"]
    else []
  }

  /** The messages `validate_track_data` collects: the field checks, then
      the nested audio-feature messages; a raising nested check raises. */
  function TrackErrors(t: map<string, PyVal>): Result<seq<string>> {
    var own := RequiredFields(t, REQUIRED_FIELDS) + PopularityCheck(t) + DurationCheck(t);
    if "audio_features" !in t then Ok(own)
    else Then(Ok(own), AudioErrors(t["audio_features"]))
  }

  /** The track passes: non-blank text ids, name and artist; a numeric
      popularity in [0,100] and a non-negative numeric duration when
      present; and, when present, a feature dict that passes. */
  predicate TrackOk(t: map<string, PyVal>) {
    && (forall k :: k in REQUIRED_FIELDS ==> k in t && t[k].Str? && PyStrip(t[k].s) != "")
    && ("popularity" in t ==> t["popularity"].Num? && 0.0 <= t["popularity"].x <= 100.0)
    && ("duration_ms" in t ==> t["duration_ms"].Num? && t["duration_ms"].x >= 0.0)
    && ("audio_features" in t ==> t["audio_features"].Dict? && AudioFeaturesOk(t["audio_features"].d))
  }

  /** `validate_track_data`. */
  method ValidateTrackData(t: map<string, PyVal>) returns (r: Result<(bool, seq<string>)>)
    ensures TrackErrors(t).Err? <==> r.Err?
    ensures r.Ok? ==> r.value.1 == TrackErrors(t).value && (r.value.0 <==> r.value.1 == [])
  {
    var errors: seq<string> := [];
    for i := 0 to |REQUIRED_FIELDS|
      invariant errors == RequiredFields(t, REQUIRED_FIELDS[..i])
    {
      assert REQUIRED_FIELDS[..i + 1][..i] == REQUIRED_FIELDS[..i];
      errors := errors + RequiredField(t, REQUIRED_FIELDS[i]);
    }
    assert REQUIRED_FIELDS[..|REQUIRED_FIELDS|] == REQUIRED_FIELDS;
    errors := errors + PopularityCheck(t) + DurationCheck(t);
    if "audio_features" in t {
      var nested := ValidateAudioFeatures(t["audio_features"]);
      if nested.Err? {
        return Err(nested.error);
      }
      if !nested.value.0 {
        errors := errors + nested.value.1;
      } else {
        assert errors + nested.value.1 == errors;
      }
    }
    return Ok((errors == [], errors));
  }

  lemma {:induction false} RequiredFieldsEmpty(t: map<string, PyVal>, ks: seq<string>)
    ensures RequiredFields(t, ks) == [] <==> forall k :: k in ks ==> k in t && t[k].Str? && PyStrip(t[k].s) != ""
  {
    if ks != [] {
      RequiredFieldsEmpty(t, ks[..|ks| - 1]);
      assert forall k :: k in ks <==> k in ks[..|ks| - 1] || k == ks[|ks| - 1];
    }
  }

  /** The nested feature value makes `validate_audio_features` raise: a
      number or another value without `in`, or a string or list holding a
      feature name. */
  predicate AudioRaises(v: PyVal) {
    match v
    case Dict(_) => false
    case Str(_) => exists k :: k in AUDIO_KEYS && Contains(v, k) == Ok(true)
    case List(_) => exists k :: k in AUDIO_KEYS && Contains(v, k) == Ok(true)
    case _ => true
  }

  /** A track is reported valid exactly when it passes every check, and
      the validator raises exactly when a nested `audio_features` value
      raises. */
  lemma TrackErrorsSpec(t: map<string, PyVal>)
    ensures TrackErrors(t) == Ok([]) <==> TrackOk(t)
    ensures TrackErrors(t).Err? <==> "audio_features" in t && AudioRaises(t["audio_features"])
  {
    RequiredFieldsEmpty(t, REQUIRED_FIELDS);
    if "audio_features" in t {
      var v := t["audio_features"];
      if v.Dict? {
        AudioErrorsDict(v.d);
      } else {
        AudioNonDictFails(v);
      }
    }
  }

  /** A nested value that is not a dict is never accepted, and it raises
      exactly as `AudioRaises` says. */
  lemma AudioNonDictFails(v: PyVal)
    requires !v.Dict?
    ensures AudioErrors(v).Err? || AudioErrors(v).value != []
    ensures AudioErrors(v).Err? <==> AudioRaises(v)
  {
    if v.Str? || v.List? {
      AudioErrorsIndexless(v);
    } else {
      AudioErrorsScalar(v);
    }
  }
}
