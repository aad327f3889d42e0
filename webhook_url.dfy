/** Extraction of the webhook id and token from the configured URL:
    `webhookUrl.match(/webhooks\/(\d+)\/([^/]+)/)` followed by
    `const [, webhookId, webhookToken] = webhookParts` (index.js:169-174).
    The regular expression has no anchors and no flags, so the match is the
    leftmost position where the pattern fits; `\d` is an ASCII digit, `[^/]`
    is any character but a slash, and both repetitions are greedy. */
module WebhookUrl {
  import opened Wrappers

  const Prefix: string := "webhooks/"

  predicate IsDigit(c: char)
  {
    '0' <= c <= '9'
  }

  predicate AllDigits(s: string)
  {
    forall k :: 0 <= k < |s| ==> IsDigit(s[k])
  }

  predicate SlashFree(s: string)
  {
    forall k :: 0 <= k < |s| ==> s[k] != '/'
  }

  /** What the two capture groups can hold: a non-empty run of digits and a
      non-empty run of characters other than '/'. */
  predicate WellFormed(parts: (string, string))
  {
    |parts.0| >= 1 && AllDigits(parts.0) && |parts.1| >= 1 && SlashFree(parts.1)
  }

  /** Greedy `\d+` from position j: the length of the longest run of digits. */
  function DigitRun(s: string, j: nat): (n: nat)
    requires j <= |s|
    ensures j + n <= |s|
    ensures forall k :: j <= k < j + n ==> IsDigit(s[k])
    ensures j + n == |s| || !IsDigit(s[j + n])
    decreases |s| - j
  {
    if j < |s| && IsDigit(s[j]) then 1 + DigitRun(s, j + 1) else 0
  }

  /** Greedy `[^/]+` from position j: the length of the longest slash-free run. */
  function SlashFreeRun(s: string, j: nat): (n: nat)
    requires j <= |s|
    ensures j + n <= |s|
    ensures forall k :: j <= k < j + n ==> s[k] != '/'
    ensures j + n == |s| || s[j + n] == '/'
    decreases |s| - j
  {
    if j < |s| && s[j] != '/' then 1 + SlashFreeRun(s, j + 1) else 0
  }

  /** The attempt to match the pattern starting exactly at position i, with
      the two captures it yields. Backtracking `\d+` cannot help: giving up a
      digit leaves a digit, not the '/' the pattern needs next. */
  function MatchAt(s: string, i: nat): (r: Option<(string, string)>)
    requires i <= |s|
    ensures r.Some? ==> WellFormed(r.value)
  {
    var j := i + |Prefix|;
    if j <= |s| && s[i..j] == Prefix then
      var d := DigitRun(s, j);
      if d >= 1 && j + d < |s| && s[j + d] == '/' then
        var t := SlashFreeRun(s, j + d + 1);
        if t >= 1 then
          assert AllDigits(s[j..j + d]);
          Some((s[j..j + d], s[j + d + 1..j + d + 1 + t]))
        else None
      else None
    else None
  }

  /** Trying the start positions i, i+1, ... in turn: the leftmost match. */
  function MatchFrom(s: string, i: nat): (r: Option<(string, string)>)
    requires i <= |s|
    ensures r.Some? ==> WellFormed(r.value)
    decreases |s| - i
  {
    if MatchAt(s, i).Some? then MatchAt(s, i)
    else if i == |s| then None
    else MatchFrom(s, i + 1)
  }

  /** `[, webhookId, webhookToken] = webhookUrl.match(...)`, None for `null`. */
  function ParseWebhookUrl(url: string): (r: Option<(string, string)>)
    ensures r.Some? ==> WellFormed(r.value)
  {
    MatchFrom(url, 0)
  }

  // ----- The pattern, stated declaratively -----

  /** The pattern occurs at i with d digits in the id and t characters in the
      token: "webhooks/", then d >= 1 digits, then '/', then t >= 1
      characters none of which is '/'. */
  ghost predicate OccursAt(s: string, i: nat, d: nat, t: nat)
  {
    var j := i + |Prefix|;
    && j + d + 1 + t <= |s|
    && s[i..j] == Prefix
    && d >= 1 && t >= 1
    && AllDigits(s[j..j + d])
    && s[j + d] == '/'
    && SlashFree(s[j + d + 1..j + d + 1 + t])
  }

  ghost predicate MatchesAt(s: string, i: nat)
  {
    exists d: nat, t: nat :: OccursAt(s, i, d, t)
  }

  ghost predicate Matches(s: string)
  {
    exists i: nat, d: nat, t: nat :: OccursAt(s, i, d, t)
  }

  /** The match attempt at i succeeds exactly when the pattern occurs at i,
      and then it captures the longest digit run and the longest token. */
  lemma MatchAtSpec(s: string, i: nat)
    requires i <= |s|
    ensures MatchAt(s, i).Some? <==> MatchesAt(s, i)
    ensures MatchAt(s, i).Some? ==>
      var (id, token) := MatchAt(s, i).value;
      var j := i + |Prefix|;
      && OccursAt(s, i, |id|, |token|)
      && id == s[j..j + |id|]
      && token == s[j + |id| + 1..j + |id| + 1 + |token|]
      && (j + |id| + 1 + |token| == |s| || s[j + |id| + 1 + |token|] == '/')
  {
    var j := i + |Prefix|;
    if MatchAt(s, i).Some? {
      var d := DigitRun(s, j);
      var t := SlashFreeRun(s, j + d + 1);
      assert AllDigits(s[j..j + d]);
      assert SlashFree(s[j + d + 1..j + d + 1 + t]);
      assert OccursAt(s, i, d, t);
    } else if MatchesAt(s, i) {
      var d: nat, t: nat :| OccursAt(s, i, d, t);
      DigitsOfOccurrence(s, i, d, t);
    }
  }

  /** In an occurrence, the greedy digit run stops exactly at the '/'. */
  lemma DigitsOfOccurrence(s: string, i: nat, d: nat, t: nat)
    requires OccursAt(s, i, d, t)
    ensures DigitRun(s, i + |Prefix|) == d
  {
  }

  /** The first start position from i on where the attempt succeeds, or
      |s| when there is none. */
  ghost function FirstMatchPosition(s: string, i: nat): (k: nat)
    requires i <= |s|
    ensures i <= k <= |s|
    ensures k < |s| ==> MatchAt(s, k).Some?
    decreases |s| - i
  {
    if MatchAt(s, i).Some? || i == |s| then i else FirstMatchPosition(s, i + 1)
  }

  /** MatchFrom returns the attempt at the first position where one succeeds,
      and every attempt before that position fails. */
  lemma {:induction false} MatchFromIsFirst(s: string, i: nat)
    requires i <= |s|
    ensures MatchFrom(s, i) == MatchAt(s, FirstMatchPosition(s, i))
    ensures forall k :: i <= k < FirstMatchPosition(s, i) ==> MatchAt(s, k).None?
    decreases |s| - i
  {
    if MatchAt(s, i).Some? || i == |s| {
      assert FirstMatchPosition(s, i) == i;
    } else {
      MatchFromIsFirst(s, i + 1);
      assert FirstMatchPosition(s, i) == FirstMatchPosition(s, i + 1);
      assert MatchFrom(s, i) == MatchFrom(s, i + 1);
    }
  }

  /** The parse succeeds iff the pattern occurs somewhere in the URL. */
  lemma ParseSucceedsIffMatches(url: string)
    ensures ParseWebhookUrl(url).Some? <==> Matches(url)
  {
    if ParseWebhookUrl(url).Some? {
      ParseFindsOccurrence(url);
    }
    if Matches(url) {
      OccurrenceIsFound(url);
    }
  }

  /** A successful parse stands on an occurrence of the pattern. */
  lemma ParseFindsOccurrence(url: string)
    requires ParseWebhookUrl(url).Some?
    ensures Matches(url)
  {
    MatchFromIsFirst(url, 0);
    var i := FirstMatchPosition(url, 0);
    MatchAtSpec(url, i);
    var (id, token) := MatchAt(url, i).value;
    assert OccursAt(url, i, |id|, |token|);
  }

  /** An occurrence anywhere is found: the attempt there succeeds, so the
      first successful attempt is at or before it. */
  lemma OccurrenceIsFound(url: string)
    requires Matches(url)
    ensures ParseWebhookUrl(url).Some?
  {
    var i: nat, d: nat, t: nat :| OccursAt(url, i, d, t);
    assert MatchesAt(url, i);
    MatchAtSpec(url, i);
    MatchFromIsFirst(url, 0);
    assert i < |url|;
  }

  /** A successful parse returns the captures of the leftmost occurrence of
      the pattern, with the longest digit run as id and the longest
      slash-free run as token. */
  lemma ParseIsLeftmost(url: string)
    requires ParseWebhookUrl(url).Some?
    ensures
      var (id, token) := ParseWebhookUrl(url).value;
      exists i: nat ::
        && OccursAt(url, i, |id|, |token|)
        && id == url[i + |Prefix|..i + |Prefix| + |id|]
        && token == url[i + |Prefix| + |id| + 1..i + |Prefix| + |id| + 1 + |token|]
        && (i + |Prefix| + |id| + 1 + |token| == |url| || url[i + |Prefix| + |id| + 1 + |token|] == '/')
        && forall i': nat :: i' < i ==> !MatchesAt(url, i')
  {
    MatchFromIsFirst(url, 0);
    var i := FirstMatchPosition(url, 0);
    MatchAtSpec(url, i);
    forall i': nat | i' < i ensures !MatchesAt(url, i') {
      MatchAtSpec(url, i');
    }
  }
}
