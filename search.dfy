/**
 * Client-side search and browsing categories (frontend/src/utils/search.js):
 * a case-insensitive substring search over a video's title, description
 * and tags, keyword categories, and a "Recently Added" category of the ten
 * newest uploads.
 */
module Search {
  import opened Wrappers
  import opened Seqs
  import opened Text

  /** The fields of a video record that search reads; `None` is a field that is missing. */
  datatype Video = Video(
    id: string,
    title: Option<string>,
    description: Option<string>,
    tags: Option<seq<string>>,
    uploadedAt: Option<int>)

  /** `(video.title || '').toLowerCase()`. */
  function TitleText(v: Video): string {
    Lower(v.title.GetOr(""))
  }

  /** `(video.description || '').toLowerCase()`. */
  function DescriptionText(v: Video): string {
    Lower(v.description.GetOr(""))
  }

  /** `(video.tags || []).join(' ').toLowerCase()`. */
  function TagsText(v: Video): string {
    Lower(Join(v.tags.GetOr([]), " "))
  }

  /** The client-side test of one video against a lower-cased, trimmed search term. */
  predicate MatchesTerm(v: Video, term: string) {
    Contains(TitleText(v), term) || Contains(DescriptionText(v), term) || Contains(TagsText(v), term)
  }

  /** The filter callback of the client-side search. */
  function Matcher(term: string): Video -> bool {
    (v: Video) => MatchesTerm(v, term)
  }

  /**
   * `searchVideos(query, videos)` without a signed-in user or after the API
   * call failed: a blank query finds nothing; otherwise the videos whose
   * title, description or tags contain the lower-cased, trimmed query.
   */
  function SearchVideos(query: string, videos: seq<Video>): (r: seq<Video>)
    ensures |r| <= |videos|
  {
    if Trim(query) == [] then []
    else
      var term := Trim(Lower(query));
      Filter(Matcher(term), videos)
  }

  lemma LowerKeepsSpace(s: string)
    ensures forall i :: 0 <= i < |s| ==> (IsSpace(Lower(s)[i]) <==> IsSpace(s[i]))
  {
  }

  /** A query with a character other than white space leaves a non-empty term after lower-casing and trimming. */
  lemma TermNonEmpty(query: string)
    requires exists i :: 0 <= i < |query| && !IsSpace(query[i])
    ensures Trim(query) != [] && Trim(Lower(query)) != []
  {
    TrimEmpty(query);
    LowerKeepsSpace(query);
    TrimEmpty(Lower(query));
  }

  /** A query made of white space only finds nothing. */
  lemma SearchBlankQuery(query: string, videos: seq<Video>)
    requires forall i :: 0 <= i < |query| ==> IsSpace(query[i])
    ensures SearchVideos(query, videos) == []
  {
    TrimEmpty(query);
  }

  /**
   * What search returns for any other query: exactly the videos matching
   * the lower-cased, trimmed query, each as often as it is listed and in the
   * listed order.
   */
  lemma SearchVideosExact(query: string, videos: seq<Video>)
    requires exists i :: 0 <= i < |query| && !IsSpace(query[i])
    ensures var r := SearchVideos(query, videos);
            var term := Trim(Lower(query));
            && term != []
            && (forall k :: 0 <= k < |r| ==> MatchesTerm(r[k], term))
            && (forall v: Video :: MatchesTerm(v, term) ==> multiset(r)[v] == multiset(videos)[v])
            && IsSubsequence(r, videos)
  {
    TermNonEmpty(query);
    MatchingExact(Trim(Lower(query)), videos);
  }

  /** Filtering by a term keeps exactly the matching videos, as often as listed and in order. */
  lemma MatchingExact(term: string, videos: seq<Video>)
    ensures var r := Filter(Matcher(term), videos);
            && (forall k :: 0 <= k < |r| ==> MatchesTerm(r[k], term))
            && (forall v: Video :: MatchesTerm(v, term) ==> multiset(r)[v] == multiset(videos)[v])
            && IsSubsequence(r, videos)
  {
    var r := Filter(Matcher(term), videos);
    FilterExact(Matcher(term), videos);
    forall k | 0 <= k < |r| ensures MatchesTerm(r[k], term) {
      assert Matcher(term)(r[k]);
    }
    forall v: Video | MatchesTerm(v, term) ensures multiset(r)[v] == multiset(videos)[v] {
      assert Matcher(term)(v);
    }
  }

  /** Search ignores the case of ASCII letters in the query. */
  lemma SearchIgnoresCase(q1: string, q2: string, videos: seq<Video>)
    requires Lower(q1) == Lower(q2)
    ensures SearchVideos(q1, videos) == SearchVideos(q2, videos)
  {
    LowerKeepsSpace(q1);
    LowerKeepsSpace(q2);
    TrimEmpty(q1);
    TrimEmpty(q2);
    assert (Trim(q1) == []) == (Trim(q2) == []) by {
      assert forall i :: 0 <= i < |q1| ==> (IsSpace(q1[i]) <==> IsSpace(q2[i])) by {
        forall i | 0 <= i < |q1| ensures IsSpace(q1[i]) <==> IsSpace(q2[i]) {
          assert Lower(q1)[i] == Lower(q2)[i];
        }
      }
    }
  }

  /** A term that runs across two adjacent tags is found, because the tags are joined with a space. */
  lemma TermAcrossTags(v: Video, a: string, b: string)
    requires v.tags == Some([a, b])
    ensures MatchesTerm(v, Lower(a + " " + b))
  {
    assert Join([a, b], " ") == a + " " + b;
    assert OccursAt(TagsText(v), Lower(a + " " + b), 0);
  }

  const RecentlyAdded: string := "Recently Added"
  const RecentlyAddedLimit: nat := 10

  /** The category names, in display order (`getCategories()`). */
  const Categories: seq<string> := ["Family Trips", "Birthdays", "Kids", "Old Memories", RecentlyAdded]

  /** The keywords of a category; none for "Recently Added" and for a name that is not a category. */
  function CategoryKeywords(category: string): (kw: seq<string>)
    ensures category !in Categories ==> kw == []
    ensures category == RecentlyAdded ==> kw == []
  {
    if category == "Family Trips" then ["trip", "vacation", "travel", "journey", "adventure"]
    else if category == "Birthdays" then ["birthday", "celebration", "party"]
    else if category == "Kids" then ["kids", "children", "child", "baby", "toddler"]
    else if category == "Old Memories" then ["old", "vintage", "archive", "memory", "past"]
    else []
  }

  /**
   * The categories offered are exactly the names with keywords, each once,
   * followed by "Recently Added", which is ordered by date instead.
   */
  lemma CategoriesOffered()
    ensures |Categories| == 5 && Categories[|Categories| - 1] == RecentlyAdded
    ensures forall i, j :: 0 <= i < j < |Categories| ==> Categories[i] != Categories[j]
    ensures forall c :: CategoryKeywords(c) != [] <==> c in Categories[..|Categories| - 1]
  {
  }

  /** The keywords of every keyword category hold no space and no capital, so lower-casing leaves them as they are. */
  lemma KeywordsPlain(category: string)
    requires category in Categories && category != RecentlyAdded
    ensures CategoryKeywords(category) != []
    ensures forall k :: 0 <= k < |CategoryKeywords(category)| ==> SpaceFreeLower(CategoryKeywords(category)[k])
  {
    if category == "Family Trips" {
      PlainWords(["trip", "vacation", "travel", "journey", "adventure"]);
    } else if category == "Birthdays" {
      PlainWords(["birthday", "celebration", "party"]);
    } else if category == "Kids" {
      PlainWords(["kids", "children", "child", "baby", "toddler"]);
    } else {
      assert category == "Old Memories";
      PlainWords(["old", "vintage", "archive", "memory", "past"]);
    }
  }

  /** Words of lower-case ASCII letters hold no space and no capital. */
  lemma PlainWords(ws: seq<string>)
    requires forall k, i :: 0 <= k < |ws| && 0 <= i < |ws[k]| ==> 'a' <= ws[k][i] <= 'z'
    ensures forall k :: 0 <= k < |ws| ==> SpaceFreeLower(ws[k])
  {
  }

  /** Lower-casing a string without capitals changes nothing. */
  lemma LowerPlain(s: string)
    requires SpaceFreeLower(s)
    ensures Lower(s) == s
  {
  }

  predicate SpaceFreeLower(s: string) {
    forall i :: 0 <= i < |s| ==> s[i] != ' ' && !('A' <= s[i] <= 'Z')
  }

  /** `${title} ${description} ${tags}`. */
  function SearchText(v: Video): string {
    TitleText(v) + " " + DescriptionText(v) + " " + TagsText(v)
  }

  /** `keywords.some((keyword) => text.includes(keyword.toLowerCase()))`. */
  predicate AnyKeyword(text: string, keywords: seq<string>) {
    exists k :: 0 <= k < |keywords| && Contains(text, Lower(keywords[k]))
  }

  /** `uploadedAt || 0`, the sort key of "Recently Added". */
  function UploadKey(v: Video): int {
    v.uploadedAt.GetOr(0)
  }

  /**
   * `getVideosByCategory(category, videos)`: for "Recently Added" the ten
   * newest videos, newest first; for a keyword category the videos whose
   * text contains one of its keywords; otherwise nothing.
   */
  function VideosByCategory(category: string, videos: seq<Video>): (r: seq<Video>)
    ensures category == RecentlyAdded ==> |r| == if |videos| <= RecentlyAddedLimit then |videos| else RecentlyAddedLimit
    ensures category != RecentlyAdded ==> |r| <= |videos|
    ensures category !in Categories ==> r == []
  {
    if category == RecentlyAdded then
      Take(SortDesc(UploadKey, videos), RecentlyAddedLimit)
    else
      var keywords := CategoryKeywords(category);
      if keywords == [] then []
      else Filter((v: Video) => AnyKeyword(SearchText(v), keywords), videos)
  }

  /**
   * "Recently Added" is ordered newest first, holds only listed videos, and
   * leaves out no video newer than one it shows; with ten videos or fewer it
   * shows all of them.
   */
  lemma RecentlyAddedNewest(videos: seq<Video>)
    ensures var r := VideosByCategory(RecentlyAdded, videos);
            && SortedDesc(UploadKey, r)
            && multiset(r) <= multiset(videos)
            && (|videos| <= RecentlyAddedLimit ==> multiset(r) == multiset(videos))
            && forall v :: v in multiset(videos) - multiset(r) ==> forall k :: 0 <= k < |r| ==> UploadKey(r[k]) >= UploadKey(v)
  {
    var s := SortDesc(UploadKey, videos);
    SortDescSorted(UploadKey, videos);
    TakeSorted(UploadKey, s, RecentlyAddedLimit);
  }

  /** A needle without spaces found in `a + " " + b` lies inside `a` or inside `b`. */
  lemma SpaceFreeSplit(a: string, b: string, needle: string)
    requires SpaceFreeLower(needle)
    requires Contains(a + " " + b, needle)
    ensures Contains(a, needle) || Contains(b, needle)
  {
    var s := a + " " + b;
    var i: nat :| i <= |s| && OccursAt(s, needle, i);
    if i + |needle| <= |a| {
      assert s == a + (" " + b);
      SliceOfLeft(a, " " + b, i, |needle|);
      assert OccursAt(a, needle, i);
    } else if i > |a| {
      var j: nat := i - |a| - 1;
      assert s == (a + " ") + b;
      SliceOfRight(a + " ", b, j, |needle|);
      assert OccursAt(b, needle, j);
    } else {
      OccursAtChar(s, needle, i, |a| - i);
      assert false;
    }
  }

  /** Each character of an occurrence is the needle's character at the same offset. */
  lemma OccursAtChar(s: string, needle: string, i: nat, k: nat)
    requires OccursAt(s, needle, i) && k < |needle|
    ensures s[i + k] == needle[k]
  {
    assert s[i..i + |needle|][k] == s[i + k];
  }

  /** A needle without spaces occurs in three texts joined by spaces exactly when it occurs in one of them. */
  lemma SpaceFreeInThree(t: string, d: string, g: string, needle: string)
    requires SpaceFreeLower(needle)
    ensures Contains(t + " " + d + " " + g, needle) <==> Contains(t, needle) || Contains(d, needle) || Contains(g, needle)
  {
    var dg := d + " " + g;
    assert t + " " + d + " " + g == t + " " + dg;
    if Contains(t + " " + dg, needle) {
      SpaceFreeSplit(t, dg, needle);
      if Contains(dg, needle) {
        SpaceFreeSplit(d, g, needle);
      }
    }
    if Contains(d, needle) || Contains(g, needle) {
      if Contains(d, needle) {
        ContainsInPart(d, " " + g, needle);
        assert d + (" " + g) == dg;
      } else {
        ContainsInPart(d + " ", g, needle);
      }
      ContainsInPart(t + " ", dg, needle);
      assert (t + " ") + dg == t + " " + dg;
    }
    if Contains(t, needle) {
      ContainsInPart(t, " " + dg, needle);
      assert t + (" " + dg) == t + " " + dg;
    }
  }

  /**
   * A keyword category's keywords hold no space, so a video belongs to it
   * exactly when one keyword occurs in its title, its description or its
   * tags; no match spans two fields.
   */
  lemma KeywordMatchPerField(v: Video, category: string)
    requires category in Categories && category != RecentlyAdded
    ensures AnyKeyword(SearchText(v), CategoryKeywords(category)) <==>
              exists k :: 0 <= k < |CategoryKeywords(category)| && MatchesTerm(v, CategoryKeywords(category)[k])
  {
    var kw := CategoryKeywords(category);
    KeywordsPlain(category);
    forall k | 0 <= k < |kw| ensures Contains(SearchText(v), Lower(kw[k])) <==> MatchesTerm(v, kw[k]) {
      LowerPlain(kw[k]);
      SpaceFreeInThree(TitleText(v), DescriptionText(v), TagsText(v), kw[k]);
    }
  }

  /** A keyword category keeps exactly its matching videos, each as often as listed, in the listed order. */
  lemma KeywordCategoryExact(category: string, videos: seq<Video>)
    requires category in Categories && category != RecentlyAdded
    ensures var r := VideosByCategory(category, videos);
            var kw := CategoryKeywords(category);
            && (forall i :: 0 <= i < |r| ==> AnyKeyword(SearchText(r[i]), kw))
            && (forall v: Video :: AnyKeyword(SearchText(v), kw) ==> multiset(r)[v] == multiset(videos)[v])
            && IsSubsequence(r, videos)
  {
    KeywordsPlain(category);
    var kw := CategoryKeywords(category);
    FilterExact((v: Video) => AnyKeyword(SearchText(v), kw), videos);
  }

  datatype CategoryData = CategoryData(name: string, videos: seq<Video>, count: nat)

  /** `getCategoryData(category, videos)`: the category's videos together with their number. */
  function GetCategoryData(category: string, videos: seq<Video>): (r: CategoryData)
    ensures r.name == category && r.count == |r.videos|
    ensures r.videos == VideosByCategory(category, videos)
    ensures category !in Categories ==> r.count == 0
  {
    var categoryVideos := VideosByCategory(category, videos);
    CategoryData(category, categoryVideos, |categoryVideos|)
  }
}
