/**
 * `DeepLinkUtils`: whether an intent is a wallpaper deep link, and which
 * collection it asks for. An intent is reduced to its data URI and its string extras.
 */
module DeepLink {
  import opened Wrappers

  datatype Uri = Uri(scheme: Option<string>, schemeSpecificPart: string, queryParameters: map<string, string>)
  datatype Intent = Intent(data: Option<Uri>, stringExtras: map<string, string>)

  const KeyCollectionId := "collection_id"
  const Scheme := "https"
  const SchemeSpecificPartPrefix := "//g.co/wallpaper"
  const ExtraKeyCollectionId := "extra_collection_id"

  /** `String.startsWith`, compared character by character. */
  predicate StartsWith(s: string, prefix: string) {
    |prefix| <= |s| && s[..|prefix|] == prefix
  }

  /** The prefix test agrees with "the string is the prefix followed by something". */
  lemma StartsWithIffSuffix(s: string, prefix: string)
    ensures StartsWith(s, prefix) <==> exists suffix :: s == prefix + suffix
  {
    if StartsWith(s, prefix) {
      assert s == prefix + s[|prefix|..];
    }
    if exists suffix :: s == prefix + suffix {
      var suffix :| s == prefix + suffix;
      assert s[..|prefix|] == prefix;
    }
  }

  function QueryParameter(uri: Uri, key: string): Option<string> {
    if key in uri.queryParameters then Some(uri.queryParameters[key]) else None
  }

  function StringExtra(intent: Intent, key: string): Option<string> {
    if key in intent.stringExtras then Some(intent.stringExtras[key]) else None
  }

  /**
   * `isDeepLink`: the intent has data whose scheme is exactly "https" and
   * whose scheme-specific part begins with "//g.co/wallpaper".
   */
  function IsDeepLink(intent: Intent): (r: bool)
    ensures r <==> intent.data.Some? && intent.data.value.scheme == Some(Scheme) &&
                   exists rest :: intent.data.value.schemeSpecificPart == SchemeSpecificPartPrefix + rest
  {
    if intent.data.None? then false
    else
      StartsWithIffSuffix(intent.data.value.schemeSpecificPart, SchemeSpecificPartPrefix);
      intent.data.value.scheme == Some(Scheme) && StartsWith(intent.data.value.schemeSpecificPart, SchemeSpecificPartPrefix)
  }

  /**
   * `getCollectionId`: a deep link's "collection_id" query parameter;
   * otherwise the "extra_collection_id" string extra.
   */
  function GetCollectionId(intent: Intent): (r: Option<string>)
    ensures IsDeepLink(intent) ==> r == QueryParameter(intent.data.value, KeyCollectionId)
    ensures !IsDeepLink(intent) ==> r == StringExtra(intent, ExtraKeyCollectionId)
    ensures intent.data.None? && ExtraKeyCollectionId !in intent.stringExtras ==> r.None?
  {
    if IsDeepLink(intent) then QueryParameter(intent.data.value, KeyCollectionId)
    else StringExtra(intent, ExtraKeyCollectionId)
  }

  /**
   * The test is a prefix test, not equality: a longer path such as
   * "//g.co/wallpaperX" is accepted, while another scheme, a missing scheme,
   * or a shorter part is not, and a deep link ignores the extra.
   */
  lemma DeepLinkExamples(extras: map<string, string>, query: map<string, string>)
    ensures IsDeepLink(Intent(Some(Uri(Some("https"), "//g.co/wallpaperX", query)), extras))
    ensures !IsDeepLink(Intent(Some(Uri(Some("http"), "//g.co/wallpaper", query)), extras))
    ensures !IsDeepLink(Intent(Some(Uri(None, "//g.co/wallpaper", query)), extras))
    ensures !IsDeepLink(Intent(Some(Uri(Some("https"), "//g.co/wallpape", query)), extras))
    ensures GetCollectionId(Intent(Some(Uri(Some("https"), "//g.co/wallpaper", map["collection_id" := "a"])),
                                   map["extra_collection_id" := "b"])) == Some("a")
    ensures GetCollectionId(Intent(Some(Uri(Some("https"), "//example.com", map["collection_id" := "a"])),
                                   map["extra_collection_id" := "b"])) == Some("b")
  {
    assert "//g.co/wallpaperX"[..|SchemeSpecificPartPrefix|] == SchemeSpecificPartPrefix;
    assert "//g.co/wallpaper"[..|SchemeSpecificPartPrefix|] == SchemeSpecificPartPrefix;
    assert "//example.com"[2] != SchemeSpecificPartPrefix[2];
  }
}
