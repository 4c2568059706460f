/** URL scheme normalisation (`fix_url`). */
module Utils {
  import opened Strings

  const HttpScheme: string := "http://"
  const HttpsScheme: string := "https://"

  /** The URL already begins with one of the two accepted schemes. The test is
      a case-sensitive prefix test at position 0. */
  predicate HasScheme(url: string) {
    StartsWith(url, HttpScheme) || StartsWith(url, HttpsScheme)
  }

  /** A literal reading of the pattern `(?:http|https)://` applied with
      `re.match`: from position 0, try each alternative in turn, and succeed
      if `://` follows one of them. */
  predicate MatchesSchemePattern(url: string) {
    MatchesAfter(url, "http", "://") || MatchesAfter(url, "https", "://")
  }

  /** `first` matches at position 0 and `rest` right after it. */
  predicate MatchesAfter(url: string, first: string, rest: string) {
    StartsWith(url, first) && StartsWith(url[|first|..], rest)
  }

  /** Matching two pieces one after the other is matching their concatenation. */
  lemma MatchesAfterConcat(url: string, first: string, rest: string)
    ensures MatchesAfter(url, first, rest) <==> StartsWith(url, first + rest)
  {
    if StartsWith(url, first + rest) {
      assert url[..|first|] == url[..|first + rest|][..|first|];
      assert url[|first|..][..|rest|] == url[..|first + rest|][|first|..];
    }
    if MatchesAfter(url, first, rest) {
      assert url[..|first + rest|] == url[..|first|] + url[|first|..][..|rest|];
    }
  }

  /** The regular-expression test and the prefix test accept the same URLs. */
  lemma SchemePatternIsPrefixTest(url: string)
    ensures MatchesSchemePattern(url) <==> HasScheme(url)
  {
    MatchesAfterConcat(url, "http", "://");
    MatchesAfterConcat(url, "https", "://");
    assert "http" + "://" == HttpScheme && "https" + "://" == HttpsScheme;
  }

  /** `fix_url`: a URL without an http or https scheme gets `https://` in front. */
  function FixUrl(url: string): (fixed: string)
    ensures HasScheme(fixed)
    ensures EndsWith(fixed, url)
    ensures fixed == url <==> HasScheme(url)
    ensures !HasScheme(url) ==> StartsWith(fixed, HttpsScheme) && |fixed| == |url| + |HttpsScheme|
  {
    if HasScheme(url) then url
    else
      var fixed := HttpsScheme + url;
      assert fixed[..|HttpsScheme|] == HttpsScheme;
      assert fixed[|fixed| - |url|..] == url;
      fixed
  }

  /** Normalising twice is the same as normalising once. */
  lemma FixUrlIdempotent(url: string)
    ensures FixUrl(FixUrl(url)) == FixUrl(url)
  {
  }

  /** The result either is the input or is the input with exactly
      `https://` in front, so its length grows by 0 or 8. */
  lemma FixUrlShape(url: string)
    ensures FixUrl(url) == url || FixUrl(url) == HttpsScheme + url
    ensures |FixUrl(url)| == |url| || |FixUrl(url)| == |url| + 8
  {
    if !HasScheme(url) {
      var fixed := FixUrl(url);
      assert fixed == fixed[..8] + fixed[8..];
    }
  }

  /** Two strings that differ in their first character are not prefixes of each other. */
  lemma FirstCharacterDiffers(s: string, prefix: string)
    requires |s| > 0 && |prefix| > 0 && s[0] != prefix[0]
    ensures !StartsWith(s, prefix)
  {
    if |prefix| <= |s| {
      assert s[..|prefix|][0] == s[0];
    }
  }

  /** Other schemes, and upper-case ones, are not recognised: they get
      `https://` prepended as well. */
  lemma FixUrlOtherSchemes()
    ensures FixUrl("ftp://x") == "https://ftp://x"
    ensures FixUrl("HTTPS://x") == "https://HTTPS://x"
  {
    FirstCharacterDiffers("ftp://x", HttpScheme);
    FirstCharacterDiffers("ftp://x", HttpsScheme);
    FirstCharacterDiffers("HTTPS://x", HttpScheme);
    FirstCharacterDiffers("HTTPS://x", HttpsScheme);
  }

  /** The three cases exercised by the library's own unit tests. */
  lemma FixUrlTestCases()
    ensures FixUrl("google.com") == "https://google.com"
    ensures FixUrl("http://google.com") == "http://google.com"
    ensures FixUrl("https://google.com") == "https://google.com"
  {
    FirstCharacterDiffers("google.com", HttpScheme);
    FirstCharacterDiffers("google.com", HttpsScheme);
    assert "http://google.com"[..7] == HttpScheme;
    assert "https://google.com"[..8] == HttpsScheme;
  }
}
