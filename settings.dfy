// The application configuration's table of per-source scraping settings:
// five sources with a base URL, a delay between requests and a timeout,
// which callers read by name and may replace at run time.
module Settings {
  import opened Wrappers
  import opened Text
  import opened Json

  /** One source's settings as __post_init__ writes them. */
  function SourceEntry(baseUrl: string, delay: real, timeout: int): Record
  {
    [("base_url", Str(baseUrl)), ("rate_limit_delay", Float(delay)), ("timeout", Int(timeout))]
  }

  /** The default source table. */
  function DefaultSourceConfigs(): map<string, Record>
  {
    map[
      "alcaldia_medellin" := SourceEntry("https://medellin.gov.co", 2.0, 30),
      "secretaria_movilidad" := SourceEntry("https://movilidadmedellin.gov.co", 1.5, 25),
      "metro_medellin" := SourceEntry("https://metroenvilla.com.co", 1.0, 20),
      "sdp" := SourceEntry("https://sdp.gov.co", 2.0, 35),
      "medellin_cultura" := SourceEntry("https://medellin.gov.co/cultura", 1.5, 25)
    ]
  }

  /** A usable source entry: an https base URL, a positive delay and a positive timeout. */
  predicate WellFormedSource(entry: Record)
  {
    && (match Get(entry, "base_url") case Some(Str(url)) => StartsWith(url, "https://") case _ => false)
    && (match Get(entry, "rate_limit_delay") case Some(Float(d)) => d > 0.0 case _ => false)
    && (match Get(entry, "timeout") case Some(Int(t)) => t > 0 case _ => false)
  }

  /** The default table holds exactly the five known sources, each with an
    * https base URL, a positive delay and a positive timeout. */
  lemma DefaultSourcesWellFormed()
    ensures DefaultSourceConfigs().Keys
            == {"alcaldia_medellin", "secretaria_movilidad", "metro_medellin", "sdp", "medellin_cultura"}
    ensures forall s | s in DefaultSourceConfigs() :: WellFormedSource(DefaultSourceConfigs()[s])
  {
    DefaultSourceNames();
    forall s | s in DefaultSourceConfigs() ensures WellFormedSource(DefaultSourceConfigs()[s]) {
      DefaultSourceWellFormed(s);
    }
  }

  /** One default source at a time: its URL is "https://" and a host. */
  lemma DefaultSourceWellFormed(s: string)
    requires s in DefaultSourceConfigs()
    ensures WellFormedSource(DefaultSourceConfigs()[s])
  {
    var entry := DefaultSourceConfigs()[s];
    if s == "alcaldia_medellin" {
      assert entry == SourceEntry("https://medellin.gov.co", 2.0, 30);
      EntryWellFormed("medellin.gov.co", 2.0, 30);
    } else if s == "secretaria_movilidad" {
      assert entry == SourceEntry("https://movilidadmedellin.gov.co", 1.5, 25);
      EntryWellFormed("movilidadmedellin.gov.co", 1.5, 25);
    } else if s == "metro_medellin" {
      assert entry == SourceEntry("https://metroenvilla.com.co", 1.0, 20);
      EntryWellFormed("metroenvilla.com.co", 1.0, 20);
    } else if s == "sdp" {
      assert entry == SourceEntry("https://sdp.gov.co", 2.0, 35);
      EntryWellFormed("sdp.gov.co", 2.0, 35);
    } else {
      assert entry == SourceEntry("https://medellin.gov.co/cultura", 1.5, 25);
      EntryWellFormed("medellin.gov.co/cultura", 1.5, 25);
    }
  }

  lemma DefaultSourceNames()
    ensures DefaultSourceConfigs().Keys
            == {"alcaldia_medellin", "secretaria_movilidad", "metro_medellin", "sdp", "medellin_cultura"}
  {
  }

  /** Any entry __post_init__ could write with an https URL and positive
    * delay and timeout is well formed. */
  lemma EntryWellFormed(host: string, d: real, t: int)
    requires d > 0.0 && t > 0
    ensures WellFormedSource(SourceEntry("https://" + host, d, t))
  {
    var url := "https://" + host;
    assert url[..|"https://"|] == "https://";
    var entry := SourceEntry(url, d, t);
    assert Get(entry, "base_url") == Some(Str(url));
    assert Get(entry, "rate_limit_delay") == Some(Float(d));
    assert "timeout"[0] != "base_url"[0] && "timeout"[0] != "rate_limit_delay"[0];
    assert Get(entry[2..], "timeout") == Some(Int(t));
    assert Get(entry[1..], "timeout") == Get(entry[2..], "timeout");
    assert Get(entry, "timeout") == Some(Int(t));
  }

  /** config.source_configs.get(name, {}) */
  function Lookup(configs: map<string, Record>, name: string): Record
  {
    if name in configs then configs[name] else []
  }

  class AppConfig {
    var sourceConfigs: map<string, Record>

    /** AppConfig() with __post_init__: the default source table. */
    constructor()
      ensures sourceConfigs == DefaultSourceConfigs()
    {
      sourceConfigs := DefaultSourceConfigs();
    }

    /** get_source_config: the source's settings, or an empty dict for an unknown source. */
    function GetSourceConfig(sourceName: string): (r: Record)
      reads this
      ensures sourceName !in sourceConfigs ==> r == []
      ensures sourceName in sourceConfigs ==> r == sourceConfigs[sourceName]
    {
      Lookup(sourceConfigs, sourceName)
    }

    /** update_source_config: replaces (or adds) one source's settings. */
    method UpdateSourceConfig(sourceName: string, configData: Record)
      modifies this
      ensures sourceConfigs == old(sourceConfigs)[sourceName := configData]
      ensures GetSourceConfig(sourceName) == configData
      ensures forall s | s != sourceName :: GetSourceConfig(s) == old(GetSourceConfig(s))
    {
      sourceConfigs := sourceConfigs[sourceName := configData];
    }
  }
}
