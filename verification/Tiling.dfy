// Ranges of line numbers that cut an interval of lines into consecutive pieces.
module Tiling {

  datatype Range = Range(start: int, end: int) {
    predicate Holds(n: int) { start <= n <= end }
  }

  // The ranges are non-empty, follow one another without gap or overlap, and
  // together make up the lines start..end.
  predicate Tiles(ranges: seq<Range>, start: int, end: int) {
    if ranges == [] then start == end + 1
    else
      && ranges[0].start == start && start <= ranges[0].end <= end
      && Tiles(ranges[1..], ranges[0].end + 1, end)
  }

  // So every line is in exactly one of them, and only the lines start..end are in any.
  lemma {:induction false} TilesCoverOnce(ranges: seq<Range>, start: int, end: int, n: int)
    requires Tiles(ranges, start, end)
    ensures start <= n <= end <==> exists k :: 0 <= k < |ranges| && ranges[k].Holds(n)
    ensures forall j, k | 0 <= j < k < |ranges| :: !(ranges[j].Holds(n) && ranges[k].Holds(n))
  {
    if ranges != [] {
      var rest := ranges[1..];
      TilesCoverOnce(rest, ranges[0].end + 1, end, n);
      if start <= n <= end {
        if n <= ranges[0].end {
          assert ranges[0].Holds(n);
        } else {
          var k :| 0 <= k < |rest| && rest[k].Holds(n);
          assert ranges[k + 1].Holds(n);
        }
      }
      if k :| 0 <= k < |ranges| && ranges[k].Holds(n) {
        assert k > 0 ==> rest[k - 1].Holds(n);
      }
      forall j, k | 0 <= j < k < |ranges| ensures !(ranges[j].Holds(n) && ranges[k].Holds(n)) {
        assert rest[k - 1] == ranges[k] && (j > 0 ==> rest[j - 1] == ranges[j]);
        if ranges[k].Holds(n) { assert rest[k - 1].Holds(n); }
      }
    }
  }
}
