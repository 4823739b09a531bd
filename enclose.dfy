/** Text between a fixed prefix and a fixed suffix, and reading it back. */
module Enclosing {
  import opened Wrappers

  /** `s` ends with `suffix`. */
  predicate EndsWith(s: string, suffix: string)
  {
    |suffix| <= |s| && s[|s| - |suffix|..] == suffix
  }

  /** `body` between a fixed prefix and a fixed suffix. */
  function Enclose(prefix: string, body: string, suffix: string): (text: string)
    ensures prefix <= text
    ensures |text| == |prefix| + |body| + |suffix|
    ensures text[|prefix|..|prefix| + |body|] == body
  {
    prefix + body + suffix
  }

  /** A suffix written in three pieces still encloses the same body. */
  lemma EncloseThreePieceSuffix(prefix: string, body: string, s1: string, mid: string, s2: string)
    ensures prefix + body + s1 + mid + s2 == Enclose(prefix, body, s1 + mid + s2)
  {
  }

  /** What lies between `prefix` and `suffix` in `text`, if it has both. */
  function Disclose(prefix: string, text: string, suffix: string): Option<string>
  {
    if |text| >= |prefix| + |suffix| && prefix <= text && text[|text| - |suffix|..] == suffix
    then Some(text[|prefix|..|text| - |suffix|])
    else None
  }

  lemma DiscloseEnclosed(prefix: string, body: string, suffix: string)
    ensures Disclose(prefix, Enclose(prefix, body, suffix), suffix) == Some(body)
  {
    var t := Enclose(prefix, body, suffix);
    assert t[|t| - |suffix|..] == suffix;
    assert t[|prefix|..|t| - |suffix|] == body;
  }

  lemma EncloseDisclosed(prefix: string, body: string, suffix: string, text: string)
    requires Disclose(prefix, text, suffix) == Some(body)
    ensures Enclose(prefix, body, suffix) == text
  {
    var i, j := |prefix|, |text| - |suffix|;
    assert text[..i] == prefix && text[i..j] == body && text[j..] == suffix;
    assert text == text[..i] + text[i..j] + text[j..];
  }

  /** Disclosing undoes enclosing, and every text that discloses a body is
      that body enclosed. */
  lemma EncloseRoundTrip(prefix: string, body: string, suffix: string, text: string)
    ensures Disclose(prefix, Enclose(prefix, body, suffix), suffix) == Some(body)
    ensures Disclose(prefix, text, suffix) == Some(body) ==> Enclose(prefix, body, suffix) == text
  {
    DiscloseEnclosed(prefix, body, suffix);
    if Disclose(prefix, text, suffix) == Some(body) {
      EncloseDisclosed(prefix, body, suffix, text);
    }
  }
}
