/**
  Endpoint URLs. Every operation takes the configured API URL, removes all of
  its trailing '/' characters (Python's `str.rstrip('/')`) and appends a fixed
  path: `/assistant` to list, `/assistant/<id>` for one assistant.
 */
module Urls {

  /** Python's `s.rstrip(c)` for a single character `c`: the longest prefix of
      `s` that does not end in `c` and is followed in `s` only by `c`s. */
  function RStrip(s: string, c: char): (r: string)
    ensures r <= s
    ensures |r| == 0 || r[|r| - 1] != c
    ensures forall i :: |r| <= i < |s| ==> s[i] == c
  {
    if |s| > 0 && s[|s| - 1] == c then RStrip(s[..|s| - 1], c) else s
  }

  /** The three properties of `RStrip`'s contract pin its result down:
      no other prefix has them. */
  lemma RStripUnique(s: string, c: char, p: string)
    requires p <= s
    requires |p| == 0 || p[|p| - 1] != c
    requires forall i :: |p| <= i < |s| ==> s[i] == c
    ensures p == RStrip(s, c)
  {
  }

  /** Stripping is idempotent. */
  lemma RStripIdempotent(s: string, c: char)
    ensures RStrip(RStrip(s, c), c) == RStrip(s, c)
  {
  }

  /** Extra trailing `c`s make no difference to the stripped result. */
  lemma RStripIgnoresTrailing(s: string, c: char, tail: string)
    requires forall i :: 0 <= i < |tail| ==> tail[i] == c
    ensures RStrip(s + tail, c) == RStrip(s, c)
  {
    var r := RStrip(s, c);
    var st := s + tail;
    assert r <= st by {
      assert forall i :: 0 <= i < |r| ==> st[i] == s[i];
    }
    forall i | |r| <= i < |st|
      ensures st[i] == c
    {
      if i >= |s| {
        assert st[i] == tail[i - |s|];
      }
    }
    RStripUnique(st, c, r);
  }

  /** The API base: the configured URL with every trailing '/' removed. */
  function Base(apiUrl: string): (b: string)
    ensures b <= apiUrl
    ensures |b| == 0 || b[|b| - 1] != '/'
    ensures forall i :: |b| <= i < |apiUrl| ==> apiUrl[i] == '/'
  {
    RStrip(apiUrl, '/')
  }

  /** `{base}/assistant`: the list endpoint (singular path segment). */
  function ListUrl(apiUrl: string): (u: string)
    ensures Base(apiUrl) <= u && u[|Base(apiUrl)|..] == "/assistant"
    ensures |Base(apiUrl)| > 0 ==> u[|Base(apiUrl)| - 1] != '/'
  {
    Base(apiUrl) + "/assistant"
  }

  /** `{base}/assistant/{id}`: the endpoint of one assistant, for both GET and PATCH. */
  function ItemUrl(apiUrl: string, assistantId: string): (u: string)
    ensures ListUrl(apiUrl) + "/" <= u && u[|ListUrl(apiUrl)| + 1..] == assistantId
  {
    Base(apiUrl) + "/assistant/" + assistantId
  }

  /** The item URL extends the list URL by one path segment. */
  lemma ItemUrlExtendsListUrl(apiUrl: string, assistantId: string)
    ensures ItemUrl(apiUrl, assistantId) == ListUrl(apiUrl) + "/" + assistantId
    ensures ListUrl(apiUrl) <= ItemUrl(apiUrl, assistantId)
  {
  }

  /** The base never ends in '/', so the join never doubles the slash: the
      character before the fixed path is not '/'. */
  lemma NoDoubleSlash(apiUrl: string)
    requires |Base(apiUrl)| > 0
    ensures ListUrl(apiUrl)[|Base(apiUrl)| - 1] != '/'
    ensures ListUrl(apiUrl)[|Base(apiUrl)|] == '/'
  {
  }

  /** Adding trailing slashes to the configured URL changes no endpoint. */
  lemma TrailingSlashesIrrelevant(apiUrl: string, slashes: string, assistantId: string)
    requires forall i :: 0 <= i < |slashes| ==> slashes[i] == '/'
    ensures ListUrl(apiUrl + slashes) == ListUrl(apiUrl)
    ensures ItemUrl(apiUrl + slashes, assistantId) == ItemUrl(apiUrl, assistantId)
  {
    RStripIgnoresTrailing(apiUrl, '/', slashes);
  }

  /** For one configured URL, the item URL names the assistant id unambiguously. */
  lemma ItemUrlInjective(apiUrl: string, id1: string, id2: string)
    requires ItemUrl(apiUrl, id1) == ItemUrl(apiUrl, id2)
    ensures id1 == id2
  {
    var p := Base(apiUrl) + "/assistant/";
    assert ItemUrl(apiUrl, id1) == p + id1;
    assert ItemUrl(apiUrl, id2) == p + id2;
    assert id1 == (p + id1)[|p|..];
    assert id2 == (p + id2)[|p|..];
  }

  /** Two configured URLs reach the same list endpoint exactly when they agree
      once their trailing slashes are removed. */
  lemma ListUrlEqualIff(u1: string, u2: string)
    ensures ListUrl(u1) == ListUrl(u2) <==> Base(u1) == Base(u2)
  {
    if ListUrl(u1) == ListUrl(u2) {
      var b1, b2 := Base(u1), Base(u2);
      assert |b1| == |b2|;
      assert b1 == ListUrl(u1)[..|b1|];
      assert b2 == ListUrl(u2)[..|b2|];
    }
  }
}
