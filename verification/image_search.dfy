/**
 * The image picker of the word editor: a search term is upper-cased and
 * looked up in a fixed table of ten words, each with three photo ids; a
 * term not in the table gets three fixed photos. Every suggestion is a photo
 * id behind the same address prefix.
 */
module ImageSearch {

  const BaseUrl: string := "https://images.unsplash.com/photo-"

  /** The photo ids suggested for each upper-cased search term. */
  const Suggestions: map<string, seq<string>> := map[
    "CAT" := ["1514888286974-6c03e2ca1dba", "1574158622682-e40e69881006", "1571566882372-1598d88abd90"],
    "DOG" := ["1552053831-71594a27632d", "1587300003388-59208cc962cb", "1548199973-84fcc611f6bd"],
    "ELEPHANT" := ["1551969014-7d2c4cddf0b6", "1564349683136-77e08dba1ef7", "1520637836862-4d197d17c43a"],
    "BIRD" := ["1552728089-57bdde30beb3", "1444927714506-8492d94b5ba0", "1419242902214-272b3f66ee7a"],
    "FISH" := ["1535591273668-578e31182c4f", "1544551763-46a013bb70d5", "1520637836862-4d197d17c43a"],
    "TREE" := ["1441974231531-c6227db76b6e", "1506905925346-21bda4d32df4", "1416879595882-3373a0480b5b"],
    "HOUSE" := ["1570129477492-45c003edd2be", "1505691938481-b9e30c4be8d5", "1564013799919-ab600027ffc6"],
    "BALL" := ["1594736797933-d0bd1aebf67c", "1578662996442-48f60103fc96", "1571019613454-1cb2f99b2d8b"],
    "BOOK" := ["1481627834876-b7833e8f5570", "1507003211169-0a1dd7228f2d", "1519452575417-564c1401ecc0"],
    "FLOWER" := ["1490750967868-88aa4486c946", "1553982012-39a2abef9cde", "1416879595882-3373a0480b5b"]
  ]

  /** The photo ids offered for a term the table does not know. */
  const Fallback: seq<string> := ["1506905925346-21bda4d32df4", "1441974231531-c6227db76b6e", "1552053831-71594a27632d"]

  /** Every term of the table has exactly three photos. */
  lemma SuggestionsHaveThree()
    ensures forall term :: term in Suggestions ==> |Suggestions[term]| == 3
  {
    forall term | term in Suggestions ensures |Suggestions[term]| == 3 {
      assert term in {"CAT", "DOG", "ELEPHANT", "BIRD", "FISH", "TREE", "HOUSE", "BALL", "BOOK", "FLOWER"};
    }
  }

  /** Upper-casing of one character; letters outside a..z are left alone. */
  function UpperChar(c: char): (u: char)
    ensures 'a' <= c <= 'z' ==> 'A' <= u <= 'Z' && u as int == c as int - 32
    ensures !('a' <= c <= 'z') ==> u == c
  {
    if 'a' <= c <= 'z' then (c as int - 32) as char else c
  }

  /** `String.prototype.toUpperCase`, on ASCII letters. */
  function ToUpper(s: string): (r: string)
    ensures |r| == |s|
    ensures forall i :: 0 <= i < |s| ==> r[i] == UpperChar(s[i])
  {
    if s == [] then [] else [UpperChar(s[0])] + ToUpper(s[1..])
  }

  /** Upper-casing twice is upper-casing once. */
  lemma ToUpperIdempotent(s: string)
    ensures ToUpper(ToUpper(s)) == ToUpper(s)
  {
    var u := ToUpper(s);
    forall i | 0 <= i < |s| ensures ToUpper(u)[i] == u[i] {
      assert !('a' <= u[i] <= 'z');
    }
  }

  /** The photo ids for a term: its table entry under the upper-cased term, or the fallback. */
  function PhotoIds(query: string): (ids: seq<string>)
    ensures |ids| == 3
    ensures ToUpper(query) in Suggestions ==> ids == Suggestions[ToUpper(query)]
    ensures ToUpper(query) !in Suggestions ==> ids == Fallback
  {
    SuggestionsHaveThree();
    var upper := ToUpper(query);
    if upper in Suggestions then Suggestions[upper] else Fallback
  }

  /** `getImageSuggestions`: three addresses, each the base address followed by a photo id. */
  function GetImageSuggestions(query: string): (urls: seq<string>)
    ensures |urls| == 3
    ensures forall i :: 0 <= i < 3 ==> urls[i] == BaseUrl + PhotoIds(query)[i]
  {
    var ids := PhotoIds(query);
    seq(3, i requires 0 <= i < 3 => BaseUrl + ids[i])
  }

  /** The photo id is read back from each suggested address by dropping the base address. */
  lemma SuggestionIdsRecovered(query: string)
    ensures forall i :: 0 <= i < 3 ==>
      BaseUrl <= GetImageSuggestions(query)[i] && GetImageSuggestions(query)[i][|BaseUrl|..] == PhotoIds(query)[i]
  {
    var urls := GetImageSuggestions(query);
    forall i | 0 <= i < 3
      ensures BaseUrl <= urls[i] && urls[i][|BaseUrl|..] == PhotoIds(query)[i]
    {
      assert urls[i] == BaseUrl + PhotoIds(query)[i];
    }
  }

  /** The search ignores letter case: a term and its upper-cased form get the same suggestions. */
  lemma SuggestionsIgnoreCase(query: string)
    ensures GetImageSuggestions(query) == GetImageSuggestions(ToUpper(query))
  {
    ToUpperIdempotent(query);
  }

  /** Terms that differ only in the case of their letters get the same suggestions. */
  lemma SameLettersSameSuggestions(q1: string, q2: string)
    requires |q1| == |q2| && forall i :: 0 <= i < |q1| ==> UpperChar(q1[i]) == UpperChar(q2[i])
    ensures GetImageSuggestions(q1) == GetImageSuggestions(q2)
  {
    assert ToUpper(q1) == ToUpper(q2);
  }

  /** A lower-case table word finds its own photos. */
  lemma LowerCaseCatFound()
    ensures GetImageSuggestions("cat")[0] == BaseUrl + "1514888286974-6c03e2ca1dba"
  {
    assert ToUpper("cat") == "CAT";
  }

  /** A term outside the table gets the fallback photos. */
  lemma UnknownTermFallsBack(query: string)
    requires ToUpper(query) !in Suggestions
    ensures GetImageSuggestions(query) == [BaseUrl + Fallback[0], BaseUrl + Fallback[1], BaseUrl + Fallback[2]]
  {
  }
}
