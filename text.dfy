/**
 * The JavaScript string operations the components use: `lastIndexOf`,
 * `substring` with a start only, and `includes`, and the image-key
 * extraction built from the first two.  Strings are sequences of characters.
 */
module Text {

  /** `s.lastIndexOf(c)` for a one-character search string: the last index of `c`, or -1. */
  function LastIndexOf(s: string, c: char): (r: int)
    ensures -1 <= r < |s|
    ensures r >= 0 ==> s[r] == c
    ensures forall j :: r < j < |s| ==> s[j] != c
  {
    if |s| == 0 then -1
    else if s[|s| - 1] == c then |s| - 1
    else LastIndexOf(s[..|s| - 1], c)
  }

  /** `s.substring(start)`: a start outside the string is clamped into `[0, |s|]`. */
  function Substring(s: string, start: int): (r: string)
    ensures |r| <= |s| && r == s[|s| - |r|..]
    ensures start <= 0 ==> r == s
    ensures start >= |s| ==> r == []
    ensures 0 <= start <= |s| ==> |r| == |s| - start
  {
    if start <= 0 then s else if start >= |s| then [] else s[start..]
  }

  /**
   * `url.substring(url.lastIndexOf('/') + 1)`: the storage key of an uploaded
   * image.  ImageKeyIsLastSegment says what it is.
   */
  function ImageKey(url: string): string
  {
    Substring(url, LastIndexOf(url, '/') + 1)
  }

  /**
   * The key is a suffix of the URL that holds no '/': what follows the last
   * '/', or the whole URL when it has none.
   */
  lemma ImageKeyIsLastSegment(url: string)
    ensures var key := ImageKey(url);
      && |key| <= |url| && key == url[|url| - |key|..]
      && '/' !in key
      && ('/' !in url ==> key == url)
      && ('/' in url ==> |key| < |url| && url[|url| - |key| - 1] == '/')
  {
  }

  /** `sub` occurs in `s` starting at index `i`. */
  predicate OccursAt(s: string, sub: string, i: int)
  {
    0 <= i && i + |sub| <= |s| && s[i..i + |sub|] == sub
  }

  /** `s.includes(sub)`, searched from the front; ContainsIff says what it computes. */
  predicate Contains(s: string, sub: string)
    decreases |s|
  {
    if |sub| > |s| then false
    else if s[..|sub|] == sub then true
    else Contains(s[1..], sub)
  }

  lemma {:induction false} ContainsIff(s: string, sub: string)
    ensures Contains(s, sub) <==> exists i :: OccursAt(s, sub, i)
    decreases |s|
  {
    if |sub| > |s| {
      forall i ensures !OccursAt(s, sub, i) { }
    } else if s[..|sub|] == sub {
      assert OccursAt(s, sub, 0);
    } else {
      ContainsIff(s[1..], sub);
      forall i | OccursAt(s, sub, i) ensures OccursAt(s[1..], sub, i - 1) {
        assert i != 0;
        assert s[1..][i - 1..i - 1 + |sub|] == s[i..i + |sub|];
      }
      forall i | OccursAt(s[1..], sub, i) ensures OccursAt(s, sub, i + 1) {
        assert s[1..][i..i + |sub|] == s[i + 1..i + 1 + |sub|];
      }
    }
  }
}
