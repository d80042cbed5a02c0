/**
 * `get_video_id`: `re.search(r"(?:v=|/)([0-9A-Za-z_-]{11}).*", url)` and its
 * first group, as a left-to-right scan over match start positions.
 */
module VideoId {
  import opened Wrappers

  /** The fixed length of the captured identifier, `{11}` in the pattern. */
  const IdLength := 11

  /** The character class `[0-9A-Za-z_-]`. */
  predicate IsIdChar(c: char) {
    ('0' <= c <= '9') || ('A' <= c <= 'Z') || ('a' <= c <= 'z') || c == '_' || c == '-'
  }

  /** Exactly eleven characters of the class. */
  predicate IsIdToken(s: string) {
    |s| == IdLength && forall i :: 0 <= i < |s| ==> IsIdChar(s[i])
  }

  /** The `v=` alternative matches at `i`: `v=` then eleven class characters. */
  predicate QueryMatchAt(url: string, i: nat) {
    i + 2 + IdLength <= |url| && url[i] == 'v' && url[i + 1] == '=' && IsIdToken(url[i + 2..i + 2 + IdLength])
  }

  /** The `/` alternative matches at `i`: `/` then eleven class characters. */
  predicate PathMatchAt(url: string, i: nat) {
    i + 1 + IdLength <= |url| && url[i] == '/' && IsIdToken(url[i + 1..i + 1 + IdLength])
  }

  /** The pattern matches with its match starting at `i` (the trailing `.*` always matches). */
  predicate MatchesAt(url: string, i: nat) {
    QueryMatchAt(url, i) || PathMatchAt(url, i)
  }

  /** The capture group of the match that starts at `i`. */
  function CaptureAt(url: string, i: nat): (id: string)
    requires MatchesAt(url, i)
    ensures IsIdToken(id)
  {
    if QueryMatchAt(url, i) then url[i + 2..i + 2 + IdLength] else url[i + 1..i + 1 + IdLength]
  }

  /** The first start position at or after `from` where the pattern matches, as `re.search` tries them. */
  function FirstMatch(url: string, from: nat): (r: Option<nat>)
    ensures r.Some? ==> from <= r.value < |url| && MatchesAt(url, r.value)
    ensures r.Some? ==> forall j :: from <= j < r.value ==> !MatchesAt(url, j)
    ensures r.None? ==> forall j :: from <= j ==> !MatchesAt(url, j)
    decreases |url| - from
  {
    if from >= |url| then None
    else if MatchesAt(url, from) then Some(from)
    else FirstMatch(url, from + 1)
  }

  /** `get_video_id(url)`. */
  function GetVideoId(url: string): (r: Option<string>)
    ensures r.None? <==> forall i :: !MatchesAt(url, i)
    ensures r.Some? ==> IsIdToken(r.value)
    ensures r.Some? ==> exists i: nat :: MatchesAt(url, i) && CaptureAt(url, i) == r.value
                                     && forall j :: 0 <= j < i ==> !MatchesAt(url, j)
  {
    match FirstMatch(url, 0)
    case None => None
    case Some(i) => Some(CaptureAt(url, i))
  }

  /** The result is determined by the leftmost match: any match with no match before it gives the result. */
  lemma LeftmostMatchWins(url: string, i: nat)
    requires MatchesAt(url, i)
    requires forall j :: 0 <= j < i ==> !MatchesAt(url, j)
    ensures GetVideoId(url) == Some(CaptureAt(url, i))
  {
  }


  /** A URL with no `v` and no `/` anywhere has no identifier. */
  lemma NoMarkerNoId(url: string)
    requires 'v' !in url && '/' !in url
    ensures GetVideoId(url) == None
  {
    forall i: nat ensures !MatchesAt(url, i) {
      if i < |url| {
        assert url[i] in url;
      }
    }
  }

  /** Up to the first `v=`, a URL with no `v` and no `/` contributes nothing: the eleven characters after `v=` are the result. */
  lemma {:induction false} QueryAfterPlainPrefix(prefix: string, id: string, rest: string)
    requires 'v' !in prefix && '/' !in prefix
    requires IsIdToken(id)
    ensures GetVideoId(prefix + "v=" + id + rest) == Some(id)
  {
    var url := prefix + "v=" + id + rest;
    forall j: nat | j < |prefix| ensures !MatchesAt(url, j) {
      assert url[j] == prefix[j] && prefix[j] in prefix;
    }
    assert url[|prefix|..|prefix| + 2 + IdLength] == "v=" + id;
    assert QueryMatchAt(url, |prefix|);
    LeftmostMatchWins(url, |prefix|);
  }


  /** Likewise for the `/` alternative: the eleven characters after the first `/` are the result. */
  lemma {:induction false} PathAfterPlainPrefix(prefix: string, id: string, rest: string)
    requires 'v' !in prefix && '/' !in prefix
    requires IsIdToken(id)
    ensures GetVideoId(prefix + "/" + id + rest) == Some(id)
  {
    var url := prefix + "/" + id + rest;
    forall j: nat | j < |prefix| ensures !MatchesAt(url, j) {
      assert url[j] == prefix[j] && prefix[j] in prefix;
    }
    assert url[|prefix|..|prefix| + 1 + IdLength] == "/" + id;
    assert PathMatchAt(url, |prefix|);
    LeftmostMatchWins(url, |prefix|);
  }

  /** The watch-page prefix of an ordinary YouTube link. */
  const WatchPrefix := "https://www.youtube.com/watch?v="

  /** An ordinary watch link yields the eleven characters after `v=`. */
  lemma WatchUrl(id: string, rest: string)
    requires IsIdToken(id)
    ensures GetVideoId(WatchPrefix + id + rest) == Some(id)
  {
    var url := WatchPrefix + id + rest;
    assert url[..32] == WatchPrefix;
    NoMatchInWatchPrefix(url);
    assert url[30..32 + IdLength] == "v=" + id;
    assert QueryMatchAt(url, 30);
    LeftmostMatchWins(url, 30);
  }

  /** Inside `https://www.youtube.com/watch?` the pattern matches nowhere. */
  lemma NoMatchInWatchPrefix(url: string)
    requires |url| >= 32 && url[..32] == WatchPrefix
    ensures forall j: nat :: j < 30 ==> !MatchesAt(url, j)
  {
    forall j: nat | j < 30 ensures !MatchesAt(url, j) {
      assert url[j] == WatchPrefix[j];
      if j == 6 {
        assert url[j + 5] == '.';
      } else if j == 7 {
        assert url[j + 4] == '.';
      } else if j == 23 {
        assert url[j + 6] == '?';
      }
    }
  }
}
