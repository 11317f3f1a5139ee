/** The backend settings: their defaults and the parsed list of allowed CORS origins. */
module Config {
  import opened Text

  /** The settings object; `supabaseUrl` and `supabaseKey` have no default and come from the environment. */
  datatype Settings = Settings(
    supabaseUrl: string,
    supabaseKey: string,
    modelPath: string,
    confidenceThreshold: real,
    iouThreshold: real,
    trackingWindowSize: int,
    maxVideoSizeMb: int,
    corsOrigins: string)

  /** The settings when the environment supplies only the two required values. */
  function DefaultSettings(supabaseUrl: string, supabaseKey: string): Settings
  {
    Settings(supabaseUrl, supabaseKey, "./models/road_damage_yolo.onnx", 0.5, 0.5, 30, 500, LocalOrigin)
  }

  /** `cors_origins_list`: split on every comma, then strip whitespace from each piece. */
  function CorsOriginsList(corsOrigins: string): (origins: seq<string>)
    ensures |origins| == |Split(corsOrigins, ',')|
    ensures forall i :: 0 <= i < |origins| ==> origins[i] == Strip(Split(corsOrigins, ',')[i])
  {
    var pieces := Split(corsOrigins, ',');
    seq(|pieces|, i requires 0 <= i < |pieces| => Strip(pieces[i]))
  }

  /**
   * One origin per comma-separated piece, in the original order: there are exactly one more
   * origins than commas, and the i-th origin is the i-th piece without surrounding whitespace,
   * so it holds no comma and neither starts nor ends with whitespace.
   */
  lemma CorsOriginsShape(corsOrigins: string)
    ensures var origins := CorsOriginsList(corsOrigins);
      && |origins| == Occurrences(corsOrigins, ',') + 1
      && forall i :: 0 <= i < |origins| ==>
           && ',' !in origins[i]
           && (origins[i] == [] || (!IsSpace(origins[i][0]) && !IsSpace(origins[i][|origins[i]| - 1])))
  {
    SplitLength(corsOrigins, ',');
    var pieces := Split(corsOrigins, ',');
    assert forall i :: 0 <= i < |pieces| ==> pieces[i] in pieces;
  }

  /** Origins that are already trimmed and comma-free are recovered from their comma-joined list. */
  lemma CorsOriginsJoin(origins: seq<string>)
    requires |origins| >= 1
    requires forall o :: o in origins ==> ',' !in o && Strip(o) == o
    ensures CorsOriginsList(Join(origins, ',')) == origins
  {
    SplitJoin(origins, ',');
  }

  const LocalOrigin := "http://localhost:5173"

  /** With the defaults, the list is the single local development origin. */
  lemma DefaultCorsOrigins(supabaseUrl: string, supabaseKey: string)
    ensures CorsOriginsList(DefaultSettings(supabaseUrl, supabaseKey).corsOrigins) == [LocalOrigin]
  {
    assert DefaultSettings(supabaseUrl, supabaseKey).corsOrigins == LocalOrigin;
    LocalOriginSplit();
    LocalOriginStrip();
    var origins := CorsOriginsList(LocalOrigin);
    assert |origins| == 1 && origins[0] == LocalOrigin;
  }

  lemma LocalOriginSplit()
    ensures Split(LocalOrigin, ',') == [LocalOrigin]
  {
    var s := LocalOrigin;
    assert ',' !in s;
    SplitNoSeparator(s, ',');
  }

  lemma LocalOriginStrip()
    ensures Strip(LocalOrigin) == LocalOrigin
  {
    var s := LocalOrigin;
    assert !IsSpace(s[0]) && !IsSpace(s[|s| - 1]);
    assert FirstNonSpace(s, 0) == 0;
    assert EndNonSpace(s, 0, |s|) == |s|;
  }

  /** The defaults: thresholds 0.5, a 30-frame window and a 500 MB upload limit. */
  lemma DefaultThresholds(supabaseUrl: string, supabaseKey: string)
    ensures var s := DefaultSettings(supabaseUrl, supabaseKey);
      && s.confidenceThreshold == 0.5 && s.iouThreshold == 0.5
      && s.trackingWindowSize == 30 && s.maxVideoSizeMb == 500
      && s.modelPath == "./models/road_damage_yolo.onnx"
  {
  }
}
