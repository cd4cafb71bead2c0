/** Extraction of the domain from the address (functions.go lines 46-52).
    The index of the last '@' is taken in the PARSED address, but the domain is cut from
    the RAW input string; the two are separate inputs here, as they are in the source.
    Indices and lengths count characters, where Go counts UTF-8 bytes: the two agree when
    the input is ASCII or when the parsed address equals the input. */
module Domain {
  import opened Wrappers

  /** strings.LastIndex for a single character: the index of the last `c` in `s`, or -1. */
  function LastIndex(s: string, c: char): (r: int)
    ensures -1 <= r < |s|
    ensures r >= 0 ==> s[r] == c && forall j :: r < j < |s| ==> s[j] != c
    ensures r < 0 <==> c !in s
  {
    if |s| == 0 then -1
    else if s[|s| - 1] == c then |s| - 1
    else LastIndex(s[..|s| - 1], c)
  }

  /** The domain of `raw` given the parsed address `parsed`, or None when the parsed address
      has no '@' or its last '@' sits at or past the last character of `raw`. */
  function ExtractDomain(parsed: string, raw: string): (r: Option<string>)
    ensures r.None? <==> '@' !in parsed || LastIndex(parsed, '@') >= |raw| - 1
    ensures r.Some? ==> 0 < |r.value| <= |raw| && r.value == raw[|raw| - |r.value|..]
    ensures r.Some? ==> exists i :: 0 <= i < |parsed| && parsed[i] == '@'
                               && (forall j :: i < j < |parsed| ==> parsed[j] != '@')
                               && r.value == raw[i + 1..]
  {
    var i := LastIndex(parsed, '@');
    if i < 0 || i >= |raw| - 1 then None else Some(raw[i + 1..])
  }

  /** When the parser hands back the input unchanged, the domain is exactly the part after
      the last '@': it is a non-empty suffix holding no '@', and the address is
      `local + "@" + domain` for some local part. */
  lemma ExtractDomainOfPlainAddress(raw: string)
    requires ExtractDomain(raw, raw).Some?
    ensures var d := ExtractDomain(raw, raw).value;
            '@' !in d && |d| > 0 && exists local :: raw == local + "@" + d
  {
    var d := ExtractDomain(raw, raw).value;
    var i := LastIndex(raw, '@');
    assert d == raw[i + 1..];
    forall k | 0 <= k < |d| ensures d[k] != '@' {
      assert d[k] == raw[i + 1 + k];
    }
    assert raw == raw[..i] + "@" + d;
  }

  /** The domain is cut from the raw input even when the parser dropped a display name:
      for `N <a@b>` the parser yields `a@b`, whose last '@' is at index 1, so the
      "domain" is `<a@b>`, which is not the domain of the parsed address. */
  lemma ExtractDomainDisplayName()
    ensures ExtractDomain("a@b", "N <a@b>") == Some("<a@b>")
  {
    assert LastIndex("a@b", '@') == 1 by {
      assert "a@b"[..2] == "a@";
    }
    assert "N <a@b>"[2..] == "<a@b>";
  }

  /** Inputs the guard rejects: a parsed address with no '@', or an empty raw string. */
  lemma ExtractDomainRejects(parsed: string, raw: string)
    requires '@' !in parsed || |raw| == 0 || parsed == raw[..|raw| - 1] + "@"
    ensures ExtractDomain(parsed, raw) == None
  {
    if '@' in parsed && |raw| > 0 && parsed == raw[..|raw| - 1] + "@" {
      assert parsed[|parsed| - 1] == '@';
    }
  }
}
