/** The agent's deterministic prompt pieces: web search results formatted as numbered
    entries under a length cap, and the summary of activity tags for the packing prompt. */
module Prompts {
  import opened Wrappers
  import opened Text

  /** A web search result; None is a key the result does not have. */
  datatype SearchResult = SearchResult(title: Option<string>, url: Option<string>, content: Option<string>)

  /** Python's `s[:n]` for any integer `n`: a negative `n` counts from the end. */
  function PyTake(s: string, n: int): (r: string)
    ensures |r| <= |s| && r == s[..|r|]
    ensures n >= 0 ==> |r| == Min(n, |s|)
    ensures n < 0 ==> |r| == Max(0, |s| + n)
  {
    if n >= 0 then Take(s, n) else s[..Max(0, |s| + n)]
  }

  /** The four lines of the entry numbered `idx`. */
  function EntryLines(idx: nat, r: SearchResult): seq<string> {
    [NatToString(idx) + ". " + r.title.GetOr("N/A"),
     "   URL: " + r.url.GetOr("N/A"),
     "   Summary: " + Take(r.content.GetOr(""), 200) + "...",
     ""]
  }

  /** The lines of `rs`, entries numbered from 1. */
  function Lines(rs: seq<SearchResult>): (r: seq<string>)
    ensures |r| == 4 * |rs|
    decreases |rs|
  {
    if rs == [] then [] else Lines(rs[..|rs| - 1]) + EntryLines(|rs|, rs[|rs| - 1])
  }

  /** Entry `i` occupies lines 4i to 4i+3, numbered i+1: its title (or "N/A"), its URL (or
      "N/A"), at most the first 200 characters of its content followed by "...", and a blank
      line. */
  lemma {:induction false} LinesShape(rs: seq<SearchResult>)
    ensures forall i :: 0 <= i < |rs| ==> Lines(rs)[4 * i..4 * i + 4] == EntryLines(i + 1, rs[i])
    decreases |rs|
  {
    if rs != [] {
      var init := rs[..|rs| - 1];
      LinesShape(init);
      forall i | 0 <= i < |rs| ensures Lines(rs)[4 * i..4 * i + 4] == EntryLines(i + 1, rs[i]) {
        if i < |rs| - 1 {
          assert Lines(rs)[4 * i..4 * i + 4] == Lines(init)[4 * i..4 * i + 4];
          assert init[i] == rs[i];
        } else {
          assert Lines(rs)[4 * i..4 * i + 4] == EntryLines(|rs|, rs[|rs| - 1]);
        }
      }
    }
  }

  /** `format_search_results`: the entries of the first ten results, joined with newlines,
      cut to `maxLength` characters. */
  method FormatSearchResults(results: seq<SearchResult>, maxLength: int) returns (text: string)
    ensures text == PyTake(Join(Lines(Take(results, 10)), "\n"), maxLength)
    ensures maxLength >= 0 ==> |text| <= maxLength
    ensures text == Join(Lines(Take(results, 10)), "\n")[..|text|]
    ensures results == [] ==> text == ""
  {
    var formatted: seq<string> := [];
    var first := Take(results, 10);
    var idx := 0;
    while idx < |first|
      invariant 0 <= idx <= |first|
      invariant formatted == Lines(first[..idx])
    {
      var result := first[idx];
      formatted := formatted + [NatToString(idx + 1) + ". " + result.title.GetOr("N/A")];
      formatted := formatted + ["   URL: " + result.url.GetOr("N/A")];
      var content := Take(result.content.GetOr(""), 200);
      formatted := formatted + ["   Summary: " + content + "..."];
      formatted := formatted + [""];
      assert first[..idx + 1][..idx] == first[..idx];
      idx := idx + 1;
    }
    assert first[..idx] == first;
    text := PyTake(Join(formatted, "\n"), maxLength);
  }

  // ---------------------------------------------------------------------------------------
  // format_activities_summary

  /** Activity `i` carries tag `t`. */
  predicate HasTag(tagLists: seq<Option<seq<string>>>, i: int, t: string) {
    0 <= i < |tagLists| && t in tagLists[i].GetOr([])
  }

  /** All tags of all activities, in order; an activity without `tags` contributes none. */
  function Flatten(tagLists: seq<Option<seq<string>>>): (r: seq<string>)
    ensures forall t :: t in r <==> exists i :: HasTag(tagLists, i, t)
  {
    if tagLists == [] then []
    else
      var rest := Flatten(tagLists[1..]);
      var r := tagLists[0].GetOr([]) + rest;
      assert forall t :: t in rest ==> exists i :: HasTag(tagLists, i, t) by {
        forall t | t in rest ensures exists i :: HasTag(tagLists, i, t) {
          var i :| HasTag(tagLists[1..], i, t);
          assert HasTag(tagLists, i + 1, t);
        }
      }
      assert forall i, t :: HasTag(tagLists, i, t) ==> t in r by {
        forall i, t | HasTag(tagLists, i, t) ensures t in r {
          if i > 0 {
            assert HasTag(tagLists[1..], i - 1, t);
          }
        }
      }
      assert forall t :: t in tagLists[0].GetOr([]) ==> HasTag(tagLists, 0, t);
      r
  }

  predicate NoDuplicates(xs: seq<string>) {
    forall i, j :: 0 <= i < j < |xs| ==> xs[i] != xs[j]
  }

  /** The distinct elements of `xs`, each at its first occurrence. */
  function Distinct(xs: seq<string>): (r: seq<string>)
    ensures NoDuplicates(r)
    ensures forall x :: x in r <==> x in xs
    decreases |xs|
  {
    if xs == [] then []
    else
      var d := Distinct(xs[..|xs| - 1]);
      var x := xs[|xs| - 1];
      assert forall y :: y in xs <==> y in xs[..|xs| - 1] || y == x by {
        assert xs == xs[..|xs| - 1] + [x];
      }
      if x in d then d else d + [x]
  }

  /** The tags the summary names: exactly ten, or every distinct tag when there are fewer;
      no tag twice, each carried by some activity, and every tag there is when there are at
      most ten distinct ones. */
  function SummaryTags(tagLists: seq<Option<seq<string>>>): (r: seq<string>)
    ensures |r| == Min(10, |Distinct(Flatten(tagLists))|) && NoDuplicates(r)
    ensures forall t :: t in r ==> exists i :: HasTag(tagLists, i, t)
    ensures |Distinct(Flatten(tagLists))| <= 10 ==> forall i, t :: HasTag(tagLists, i, t) ==> t in r
  {
    var d := Distinct(Flatten(tagLists));
    var r := Take(d, 10);
    assert forall t :: t in r ==> t in d;
    assert |d| <= 10 ==> forall i, t :: HasTag(tagLists, i, t) ==> t in r by {
      if |d| <= 10 {
        assert r == d;
        forall i, t | HasTag(tagLists, i, t) ensures t in r {
          assert t in Flatten(tagLists);
        }
      }
    }
    r
  }

  /** `format_activities_summary`: a fixed text for no activities, otherwise the chosen tags
      joined with ", ". Python draws `unique_tags` from a set, whose order is not fixed; here
      the tags come in order of first occurrence. */
  function FormatActivitiesSummary(tagLists: seq<Option<seq<string>>>): (r: string)
    ensures tagLists == [] ==> r == "General sightseeing and leisure"
    ensures tagLists != [] ==> r == Join(SummaryTags(tagLists), ", ")
  {
    if tagLists == [] then "General sightseeing and leisure"
    else Join(SummaryTags(tagLists), ", ")
  }

  /** Activities that carry no tags give the empty text, not the fixed one. */
  lemma UntaggedActivitiesGiveEmptySummary()
    ensures FormatActivitiesSummary([None, Some([])]) == ""
  {
    var lists: seq<Option<seq<string>>> := [None, Some([])];
    assert Flatten(lists[1..][1..]) == [];
    assert Flatten(lists) == [];
  }
}
