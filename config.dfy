/**
 * The configuration holder: a string-keyed array seeded with fixed defaults,
 * with the user's options merged over them, typed getters and an in-place
 * setter.
 */
module Config {
  import opened Wrappers
  import opened Php

  const DefaultBaseUrl: string := "https://apis.tryoto.com/"

  /** The defaults every configuration starts from. */
  const Defaults: map<string, Value> := map[
    "base_url" := Str(DefaultBaseUrl),
    "timeout" := Int(30),
    "verify_ssl" := Bool(true),
    "debug" := Bool(false),
    "version" := Str("v1")
  ]

  /** A base URL ending in exactly one `/`: trailing slashes removed, one added. */
  function NormalizeBaseUrl(url: string): (r: string)
    ensures |r| > 0 && r[|r| - 1] == '/'
    ensures |r| < 2 || r[|r| - 2] != '/'
    ensures |r| - 1 <= |url| && r[..|r| - 1] == url[..|r| - 1]
    ensures forall i :: |r| - 1 <= i < |url| ==> url[i] == '/'
  {
    TrimRight(url, '/') + "/"
  }

  /** Normalising an already normalised URL leaves it as it is. */
  lemma NormalizeBaseUrlIdempotent(url: string)
    ensures NormalizeBaseUrl(NormalizeBaseUrl(url)) == NormalizeBaseUrl(url)
  {
    var t := TrimRight(url, '/');
    assert (t + "/")[..|t|] == t;
  }

  /** However many slashes end a URL, it normalises to the same value. */
  lemma {:induction false} NormalizeBaseUrlIgnoresTrailingSlashes(url: string, n: nat)
    ensures NormalizeBaseUrl(url + Repeat('/', n)) == NormalizeBaseUrl(url)
  {
    var s := url + Repeat('/', n);
    if n == 0 {
      assert s == url;
    } else {
      assert s[..|s| - 1] == url + Repeat('/', n - 1);
      assert TrimRight(s, '/') == TrimRight(s[..|s| - 1], '/');
      NormalizeBaseUrlIgnoresTrailingSlashes(url, n - 1);
    }
  }

  lemma NormalizeBaseUrlExample()
    ensures NormalizeBaseUrl("https://x.test") == "https://x.test/"
    ensures NormalizeBaseUrl("https://x.test/") == "https://x.test/"
    ensures NormalizeBaseUrl("https://x.test///") == "https://x.test/"
  {
    NormalizeBaseUrlIgnoresTrailingSlashes("https://x.test", 1);
    NormalizeBaseUrlIgnoresTrailingSlashes("https://x.test", 3);
    assert "https://x.test" + Repeat('/', 1) == "https://x.test/";
    assert "https://x.test" + Repeat('/', 3) == "https://x.test///";
    assert NormalizeBaseUrl("https://x.test") == "https://x.test/";
  }

  class TryOtoConfig {
    /** The merged configuration array. */
    var entries: map<string, Value>

    /** Every default key is present: the merge keeps them and `Set` only adds
        or overwrites. */
    ghost predicate HasDefaultKeys()
      reads this
    {
      Defaults.Keys <= entries.Keys
    }

    /** The user's options merged over the defaults; unknown keys are kept. */
    constructor (options: map<string, Value> := map[])
      ensures entries == ArrayMerge(Defaults, options)
      ensures HasDefaultKeys()
    {
      entries := ArrayMerge(Defaults, options);
    }

    /** The base URL with exactly one trailing `/`; an array stored there has
        no string form and raises a TypeError, modelled as None. */
    function GetBaseUrl(): (r: Option<string>)
      reads this
      ensures r.None? <==> Index(entries, "base_url").List? || Index(entries, "base_url").Dict?
      ensures Index(entries, "base_url").Str? ==> r == Some(NormalizeBaseUrl(Index(entries, "base_url").s))
      ensures r.Some? ==> |r.value| > 0 && r.value[|r.value| - 1] == '/'
      ensures r.Some? ==> |r.value| < 2 || r.value[|r.value| - 2] != '/'
      ensures r.Some? ==> NormalizeBaseUrl(r.value) == r.value
    {
      match StringArgument(Index(entries, "base_url"))
      case None => None
      case Some(url) =>
        NormalizeBaseUrlIdempotent(url);
        Some(NormalizeBaseUrl(url))
    }

    /** The timeout in seconds, through the `(int)` cast. */
    function GetTimeout(): (r: int)
      reads this
      ensures Index(entries, "timeout").Int? ==> r == Index(entries, "timeout").i
      ensures Index(entries, "timeout").Null? ==> r == 0
      ensures Index(entries, "timeout").Bool? ==> r == (if Index(entries, "timeout").b then 1 else 0)
      ensures Index(entries, "timeout").Str? ==> r == StringToInt(Index(entries, "timeout").s)
      ensures forall i :: Index(entries, "timeout") == Str(DecimalString(i)) ==> r == i
    {
      DecimalStringRoundTripAll();
      ToInt(Index(entries, "timeout"))
    }

    /** Whether TLS certificates are verified, through the `(bool)` cast. */
    function GetVerifySsl(): (r: bool)
      reads this
      ensures r <==> !Empty(Index(entries, "verify_ssl"))
    {
      ToBool(Index(entries, "verify_ssl"))
    }

    /** Whether debug output is requested, through the `(bool)` cast. */
    function GetDebug(): (r: bool)
      reads this
      ensures r <==> !Empty(Index(entries, "debug"))
    {
      ToBool(Index(entries, "debug"))
    }

    /** The API version, returned as a string; null or an array raises a
        TypeError, modelled as None. */
    function GetVersion(): (r: Option<string>)
      reads this
      ensures Index(entries, "version").Str? ==> r == Some(Index(entries, "version").s)
      ensures r.None? <==> (var v := Index(entries, "version"); v.Null? || v.List? || v.Dict?)
    {
      StringReturn(Index(entries, "version"))
    }

    /** The stored value, or `default` when the key is absent or holds null. */
    function Get(key: string, default: Value := Null): (r: Value)
      reads this
      ensures key in entries && !entries[key].Null? ==> r == entries[key]
      ensures key !in entries || entries[key].Null? ==> r == default
    {
      Coalesce(entries, key, default)
    }

    /** Overwrites or inserts one key, with no check of the value. */
    method Set(key: string, value: Value)
      modifies this
      ensures entries == old(entries)[key := value]
      ensures old(HasDefaultKeys()) ==> HasDefaultKeys()
      ensures forall d :: Get(key, d) == (if value.Null? then d else value)
      ensures forall k, d :: k != key ==> Get(k, d) == Coalesce(old(entries), k, d)
    {
      entries := entries[key := value];
    }
  }

  /** The default base URL is already in normal form. */
  lemma DefaultBaseUrlNormalized()
    ensures NormalizeBaseUrl(DefaultBaseUrl) == DefaultBaseUrl
  {
    var t := TrimRight(DefaultBaseUrl, '/');
    assert |t| == |DefaultBaseUrl| - 1 by {
      assert DefaultBaseUrl[|DefaultBaseUrl| - 2] != '/';
    }
  }

  /** With no user options the getters give the documented defaults. */
  lemma DefaultGetters(c: TryOtoConfig)
    requires c.entries == ArrayMerge(Defaults, map[])
    ensures c.GetBaseUrl() == Some(DefaultBaseUrl)
    ensures c.GetTimeout() == 30
    ensures c.GetVerifySsl() == true
    ensures c.GetDebug() == false
    ensures c.GetVersion() == Some("v1")
  {
    assert c.entries == Defaults;
    DefaultBaseUrlNormalized();
  }

  /** The merge is override-preserving at the level of the getters: a setting
      the user gave is what its getter reads, and one the user left out reads
      as its default. */
  lemma MergedGetters(c: TryOtoConfig, options: map<string, Value>)
    requires c.entries == ArrayMerge(Defaults, options)
    ensures "timeout" in options && options["timeout"].Int? ==> c.GetTimeout() == options["timeout"].i
    ensures "timeout" !in options ==> c.GetTimeout() == 30
    ensures "verify_ssl" in options ==> c.GetVerifySsl() == ToBool(options["verify_ssl"])
    ensures "verify_ssl" !in options ==> c.GetVerifySsl() == true
    ensures "debug" in options ==> c.GetDebug() == ToBool(options["debug"])
    ensures "debug" !in options ==> c.GetDebug() == false
    ensures "version" in options && options["version"].Str? ==> c.GetVersion() == Some(options["version"].s)
    ensures "version" !in options ==> c.GetVersion() == Some("v1")
  {
    MergedIndex(options, "timeout");
    MergedIndex(options, "verify_ssl");
    MergedIndex(options, "debug");
    MergedIndex(options, "version");
  }

  /** A base URL the user gave comes back normalised; without one the default
      comes back. */
  lemma MergedBaseUrl(c: TryOtoConfig, options: map<string, Value>)
    requires c.entries == ArrayMerge(Defaults, options)
    ensures "base_url" in options && options["base_url"].Str? ==> c.GetBaseUrl() == Some(NormalizeBaseUrl(options["base_url"].s))
    ensures "base_url" !in options ==> c.GetBaseUrl() == Some(DefaultBaseUrl)
  {
    MergedIndex(options, "base_url");
    if "base_url" !in options {
      assert Index(c.entries, "base_url") == Str(DefaultBaseUrl);
      DefaultBaseUrlNormalized();
    } else if options["base_url"].Str? {
      assert Index(c.entries, "base_url") == options["base_url"];
    }
  }

  /** Every key the user gave, unknown ones included, reads back as given;
      every default key the user left out reads as its default. */
  lemma MergedReadBack(c: TryOtoConfig, options: map<string, Value>)
    requires c.entries == ArrayMerge(Defaults, options)
    ensures forall k :: k in options ==> c.Get(k) == options[k]
    ensures forall k, d :: k in Defaults && k !in options ==> c.Get(k, d) == Defaults[k]
  {
  }

  lemma MergedIndex(options: map<string, Value>, k: string)
    ensures Index(ArrayMerge(Defaults, options), k) == if k in options then options[k] else Index(Defaults, k)
  {
  }

}
