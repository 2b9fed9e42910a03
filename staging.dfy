/**
 * The names under which the collector stages per-pull-request data and the way the
 * processor reads a pull-request number back from a file name or an issue URL.
 */
module Staging {
  import opened JsString

  const ReviewsPrefix := "reviews_"

  const CommentsPrefix := "pr_comments_"

  const JsonSuffix := ".json"

  /** `` `reviews_${prNumber}.json` `` and `` `pr_comments_${prNumber}.json` ``: a prefix, the number, `.json`. */
  function StagedName(prefix: string, prNumber: nat): string {
    prefix + NatToString(prNumber) + JsonSuffix
  }

  /** `parseInt(name.replace(prefix, '').replace('.json', ''))`: the pull-request number of a staged file. */
  function FileKey(name: string, prefix: string): Num {
    ParseInt(ReplaceFirst(ReplaceFirst(name, prefix, ""), JsonSuffix, ""))
  }

  /** The processor reads back the number the collector wrote into a staged file name. */
  lemma FileKeyRoundTrip(prefix: string, prNumber: nat)
    ensures FileKey(StagedName(prefix, prNumber), prefix) == Int(prNumber)
  {
    var digits := NatToString(prNumber);
    var name := StagedName(prefix, prNumber);
    assert ReplaceFirst(name, prefix, "") == digits + JsonSuffix by {
      assert name[..|prefix|] == prefix && name[|prefix|..] == digits + JsonSuffix;
    }
    assert ReplaceFirst(digits + JsonSuffix, JsonSuffix, "") == digits by {
      assert JsonSuffix[0] !in digits;
      ReplaceFirstAfter(digits, JsonSuffix, [], "");
      assert digits + JsonSuffix + [] == digits + JsonSuffix;
      assert digits + "" + [] == digits;
    }
    DecimalRoundTrip(prNumber);
  }

  /** `url.split('/').pop()`: the text after the last `/`. */
  function LastSegment(url: string): string {
    var parts := Split(url, '/');
    parts[|parts| - 1]
  }

  /**
   * The pull-request number of an issue comment, `parseInt(url.split('/').pop() || '0')`:
   * an empty last segment falls back to the text '0', which reads as 0 (`ZeroTextReadsZero`).
   */
  function IssueKey(url: string): Num {
    var segment := LastSegment(url);
    if segment == "" then Int(0) else ParseInt(segment)
  }

  /** `parseInt('0')` is 0. */
  lemma ZeroTextReadsZero()
    ensures ParseInt("0") == Int(0)
  {
    DecimalRoundTrip(0);
    assert NatToString(0) == "0";
  }

  /** An issue URL that ends in the number reads back as that number, whatever comes before it. */
  lemma IssueKeyRoundTrip(base: string, number: nat)
    ensures IssueKey(base + "/" + NatToString(number)) == Int(number)
  {
    var digits := NatToString(number);
    SplitAround(base, digits, '/');
    assert base + "/" + digits == base + ['/'] + digits;
    DecimalRoundTrip(number);
  }

  /** An issue URL that ends in `/` reads as number 0. */
  lemma TrailingSlashReadsZero(base: string)
    ensures IssueKey(base + "/") == Int(0)
  {
    SplitAround(base, "", '/');
    assert base + "/" == base + ['/'] + "";
  }
}
