/** The version lookup of `get_version` (src/settings/__init__.py): the first
    match of the regular expression `version = "(.+)"` in the text of
    pyproject.toml, with Python's `re.search` semantics (leftmost start, greedy
    `.+` that never crosses a newline). Reading the file is left to the caller. */
module Version {
  import opened Results
  import opened Strings

  /** The literal part of the pattern in front of the capture group. */
  const Prefix: string := "version = \""

  datatype VersionError = ValueError(message: string)

  const NotFoundMessage: string := "Could not find version in pyproject.toml"

  /** The pattern matches `text` at `i` with `v` as its capture group. */
  ghost predicate IsMatch(text: string, i: nat, v: string) {
    var s := i + |Prefix|;
    && s + |v| < |text|
    && text[i..s] == Prefix
    && |v| >= 1
    && '\n' !in v
    && text[s..s + |v|] == v
    && text[s + |v|] == '"'
  }

  /** The first newline at or after `k`, or the end of the text. */
  function LineEnd(text: string, k: nat): (e: nat)
    requires k <= |text|
    ensures k <= e <= |text|
    ensures e < |text| ==> text[e] == '\n'
    ensures '\n' !in text[k..e]
    decreases |text| - k
  {
    if k == |text| || text[k] == '\n' then k else LineEnd(text, k + 1)
  }

  /** The last `"` in `text[lo..hi]`. */
  function LastQuote(text: string, lo: nat, hi: nat): (r: Option<nat>)
    requires lo <= hi <= |text|
    ensures r.Some? ==> lo <= r.value < hi && text[r.value] == '"'
    ensures forall j :: lo <= j < hi && text[j] == '"' ==> r.Some? && j <= r.value
    decreases hi - lo
  {
    if hi == lo then None
    else if text[hi - 1] == '"' then Some(hi - 1)
    else LastQuote(text, lo, hi - 1)
  }

  /** The capture of the pattern when the match starts at `i`: the longest one. */
  function MatchAt(text: string, i: nat): (r: Option<string>)
    requires i <= |text|
    ensures r.Some? ==> IsMatch(text, i, r.value)
    ensures r.Some? ==> forall v :: IsMatch(text, i, v) ==> |v| <= |r.value|
    ensures r.None? ==> forall v :: !IsMatch(text, i, v)
  {
    if !OccursAt(text, Prefix, i) then None
    else
      var s := i + |Prefix|;
      var e := LineEnd(text, s);
      if e == s then None
      else
        match LastQuote(text, s + 1, e)
        case None => None
        case Some(j) =>
          NoNewlineBefore(text, s, j, e);
          Some(text[s..j])
  }

  /** A stretch of a line holds no newline. */
  lemma NoNewlineBefore(text: string, s: nat, j: nat, e: nat)
    requires s <= j <= e <= |text| && '\n' !in text[s..e]
    ensures '\n' !in text[s..j]
  {
    assert text[s..j] == text[s..e][..j - s];
  }

  /** `re.search`: the leftmost start position from `from` on where the pattern
      matches, with its capture. */
  function Search(text: string, from: nat): (r: Option<(nat, string)>)
    requires from <= |text|
    ensures r.Some? ==> from <= r.value.0 <= |text| && IsMatch(text, r.value.0, r.value.1)
    ensures r.Some? ==> forall v :: IsMatch(text, r.value.0, v) ==> |v| <= |r.value.1|
    ensures forall i: nat, v :: from <= i && (r.None? || i < r.value.0) ==> !IsMatch(text, i, v)
    decreases |text| - from
  {
    match MatchAt(text, from)
    case Some(v) => Some((from, v))
    case None => if from == |text| then None else Search(text, from + 1)
  }

  /** `get_version` on the text of pyproject.toml. */
  function GetVersion(text: string): (r: Result<string, VersionError>)
    ensures r.Err? ==> r.error == ValueError(NotFoundMessage)
  {
    match Search(text, 0)
    case None => Err(ValueError(NotFoundMessage))
    case Some((i, v)) => Ok(v)
  }

  /** The version found is a non-empty text without newline that sits between
      `version = "` and `"` in the file; `ValueError` is raised exactly when
      the pattern matches nowhere. */
  lemma GetVersionFound(text: string)
    ensures var r := GetVersion(text);
      && (r.Ok? ==> |r.value| >= 1 && '\n' !in r.value)
      && (r.Ok? ==> Contains(text, Prefix + r.value + "\""))
      && (r.Err? <==> forall i: nat, v :: !IsMatch(text, i, v))
  {
    match Search(text, 0)
    case None =>
    case Some((i, v)) =>
      MatchedTextOccurs(text, i, v);
  }

  lemma MatchedTextOccurs(text: string, i: nat, v: string)
    requires IsMatch(text, i, v)
    ensures Contains(text, Prefix + v + "\"")
  {
    var s := i + |Prefix|;
    var w := Prefix + v + "\"";
    assert text[i..i + |w|] == text[i..s] + text[s..s + |v|] + [text[s + |v|]];
    ContainsOccurrence(text, w, i);
  }

  /** The version is the capture of the leftmost match, and at that position the
      greedy `.+` runs to the last `"` before the end of the line. */
  lemma VersionIsLeftmostGreedy(text: string, i: nat, v: string)
    requires Search(text, 0) == Some((i, v))
    ensures GetVersion(text) == Ok(v) && IsMatch(text, i, v)
    ensures forall i': nat, v' :: i' < i ==> !IsMatch(text, i', v')
    ensures forall k :: i + |Prefix| + |v| < k < LineEnd(text, i + |Prefix|) ==> text[k] != '"'
  {
    CaptureRunsToLastQuote(text, i, v);
  }

  /** No `"` follows the longest capture on its line. */
  lemma CaptureRunsToLastQuote(text: string, i: nat, v: string)
    requires IsMatch(text, i, v)
    requires forall v' :: IsMatch(text, i, v') ==> |v'| <= |v|
    ensures forall k :: i + |Prefix| + |v| < k < LineEnd(text, i + |Prefix|) ==> text[k] != '"'
  {
    var s := i + |Prefix|;
    var e := LineEnd(text, s);
    forall k | s + |v| < k < e ensures text[k] != '"' {
      NoLaterQuote(text, i, v, k);
    }
  }

  /** A `"` after the capture on the same line would give a longer capture. */
  lemma NoLaterQuote(text: string, i: nat, v: string, k: nat)
    requires IsMatch(text, i, v)
    requires forall v' :: IsMatch(text, i, v') ==> |v'| <= |v|
    requires i + |Prefix| + |v| < k < LineEnd(text, i + |Prefix|)
    ensures text[k] != '"'
  {
    if text[k] == '"' {
      QuoteGivesMatch(text, i, k);
    }
  }

  /** Any `"` past the first character of the line's rest closes a match. */
  lemma QuoteGivesMatch(text: string, i: nat, k: nat)
    requires i + |Prefix| <= |text| && text[i..i + |Prefix|] == Prefix
    requires i + |Prefix| < k < LineEnd(text, i + |Prefix|) && text[k] == '"'
    ensures IsMatch(text, i, text[i + |Prefix|..k])
  {
    var s := i + |Prefix|;
    NoNewlineBefore(text, s, k, LineEnd(text, s));
  }
}
