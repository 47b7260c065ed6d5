/**
 * The list of languages whose audio tracks are kept: the title's original
 * language, the user's languages, English and "undefined".
 */
module Languages {
  import opened Wrappers
  import opened Strings

  /**
   * The two lookups of the ISO-639 language library, whose tables are not part
   * of this model. `alpha2ToAlpha3B` may find no code (`undefined` in the
   * library), hence the Option.
   */
  datatype IsoLanguages = IsoLanguages(
    alpha2ToAlpha3B: string -> Option<string>,
    getName: string -> string)

  const English: string := "eng"
  const Undefined: string := "und"

  /** The metadata service reports Chinese as "cn"; the library expects "zh". */
  function NormalizeChinese(code: string): (r: string)
    ensures code == "cn" ==> r == "zh"
    ensures code != "cn" ==> r == code
  {
    if code == "cn" then "zh" else code
  }

  /**
   * The `user_langs` input as processStreams receives it: split on commas
   * when non-empty (pieces are not trimmed), nothing otherwise.
   */
  function UserLanguages(input: string): (r: seq<string>)
    ensures input == "" ==> r == []
    ensures input != "" ==> |r| >= 1 && Join(r, ',') == input
    ensures forall k :: 0 <= k < |r| ==> ',' !in r[k]
  {
    if input == "" then [] else JoinSplit(input, ','); Split(input, ',')
  }

  /** The original language's code followed by the user's languages. */
  function RetainBase(originalLanguage: string, userLangs: seq<string>,
                      alpha2ToAlpha3B: string -> Option<string>): (r: seq<Option<string>>)
    ensures |r| == |userLangs| + 1
    ensures r[0] == alpha2ToAlpha3B(NormalizeChinese(originalLanguage))
    ensures forall k :: 0 <= k < |userLangs| ==> r[1 + k] == Some(userLangs[k])
    ensures forall c :: Some(c) in r <==> Some(c) == r[0] || c in userLangs
    decreases |userLangs|
  {
    if userLangs == [] then [alpha2ToAlpha3B(NormalizeChinese(originalLanguage))]
    else
      var r := RetainBase(originalLanguage, userLangs[..|userLangs| - 1], alpha2ToAlpha3B) +
               [Some(userLangs[|userLangs| - 1])];
      assert forall c :: c in userLangs <==> c in userLangs[..|userLangs| - 1] || c == userLangs[|userLangs| - 1] by {
        assert userLangs == userLangs[..|userLangs| - 1] + [userLangs[|userLangs| - 1]];
      }
      r
  }

  /** `if (!list.includes(x)) list.push(x)`. */
  function AppendIfMissing(list: seq<Option<string>>, x: Option<string>): (r: seq<Option<string>>)
    ensures |r| == if x in list then |list| else |list| + 1
    ensures x in r && r[..|list|] == list
    ensures |r| > |list| ==> r[|list|] == x && x !in list
    ensures forall y :: y in r <==> y in list || y == x
  {
    var r := if x in list then list else list + [x];
    assert r[..|list|] == list;
    r
  }

  /** Two appends-if-missing of distinct values add each value at most once. */
  lemma AppendTwice(list: seq<Option<string>>, x: Option<string>, y: Option<string>)
    requires x != y
    ensures var r := AppendIfMissing(AppendIfMissing(list, x), y);
      |list| <= |r| <= |list| + 2 && r[..|list|] == list && x in r && y in r &&
      (forall k :: |list| <= k < |r| ==> (r[k] == x || r[k] == y) && r[k] !in list) &&
      (forall j, k :: |list| <= j < k < |r| ==> r[j] != r[k]) &&
      (forall z :: z in r <==> z in list || z == x || z == y)
  {
    var mid := AppendIfMissing(list, x);
    var r := AppendIfMissing(mid, y);
    assert r[..|list|] == list by {
      assert r[..|mid|][..|list|] == r[..|list|];
    }
  }

  /**
   * The retain list: the original language's bibliographic code, then the
   * user's languages, then "eng" and "und", each appended only if missing.
   */
  function RetainList(originalLanguage: string, userLangs: seq<string>,
                      alpha2ToAlpha3B: string -> Option<string>): (r: seq<Option<string>>)
    ensures |userLangs| + 1 <= |r| <= |userLangs| + 3
    ensures r[0] == alpha2ToAlpha3B(if originalLanguage == "cn" then "zh" else originalLanguage)
    ensures forall k :: 0 <= k < |userLangs| ==> r[1 + k] == Some(userLangs[k])
    ensures Some(English) in r && Some(Undefined) in r
    // what is appended is "eng" or "und", only when missing, and once
    ensures forall k :: 1 + |userLangs| <= k < |r| ==>
      (r[k] == Some(English) || r[k] == Some(Undefined)) && r[k] !in r[..1 + |userLangs|]
    ensures forall j, k :: 1 + |userLangs| <= j < k < |r| ==> r[j] != r[k]
    ensures forall c :: Some(c) in r <==>
      (Some(c) == r[0] || c in userLangs || c == English || c == Undefined)
  {
    var base := RetainBase(originalLanguage, userLangs, alpha2ToAlpha3B);
    var r := AppendIfMissing(AppendIfMissing(base, Some(English)), Some(Undefined));
    AppendTwice(base, Some(English), Some(Undefined));
    r
  }
}
