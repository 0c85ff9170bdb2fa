// server/src/logStore.ts: a log that keeps the newest maxEntries entries,
// proved to answer queries as the unbounded log would.
module LogStore {
  import opened Prelude

  datatype Level = Error | Warn | Info | Debug

  // "searchable" is the lower-cased message and context the text filter looks
  // in; "timestamp" is None when the entry's timestamp is not a date.
  datatype LogEntry = LogEntry(
    level: Level, source: string, searchable: string, timestamp: Option<int>, sequence: Option<int>)

  // "text" is already lower-cased; zero bounds and an empty text mean "no filter".
  datatype Filters = Filters(
    level: Option<set<Level>>, source: Option<set<string>>, text: string,
    since: int, until: int, sinceSequence: Option<int>)

  predicate OccursAt(haystack: string, needle: string, k: nat) {
    k <= |haystack| && needle <= haystack[k..]
  }

  predicate Contains(haystack: string, needle: string) {
    exists k :: 0 <= k <= |haystack| && OccursAt(haystack, needle, k)
  }

  predicate MatchesFilters(entry: LogEntry, filters: Filters) {
    && (filters.level.Some? ==> entry.level in filters.level.value)
    && (filters.source.Some? ==> entry.source in filters.source.value)
    && (filters.text != "" ==> Contains(entry.searchable, filters.text))
    && (filters.since != 0 && entry.timestamp.Some? ==> entry.timestamp.value >= filters.since)
    && (filters.until != 0 && entry.timestamp.Some? ==> entry.timestamp.value <= filters.until)
    && (filters.sinceSequence.Some? && entry.sequence.Some?
        ==> entry.sequence.value > filters.sinceSequence.value)
  }

  const NO_FILTERS := Filters(None, None, "", 0, 0, None)

  // The text stands somewhere in the other.
  ghost predicate Occurs(text: string, searched: string) {
    exists before, after :: searched == before + text + after
  }

  lemma ContainsMeans(haystack: string, needle: string)
    ensures Contains(haystack, needle) <==> Occurs(needle, haystack)
  {
    if k: nat :| OccursAt(haystack, needle, k) {
      assert haystack == haystack[..k] + needle + haystack[k + |needle|..];
    }
    if Occurs(needle, haystack) {
      var before, after :| haystack == before + needle + after;
      assert haystack[|before|..] == needle + after;
      assert OccursAt(haystack, needle, |before|);
    }
  }

  // With no filter set every entry matches; and each filter narrows independently of
  // the others, by its own field. An undated entry passes both date bounds, and an
  // unnumbered one the bound on numbers.
  lemma FiltersNarrow(entry: LogEntry, f: Filters)
    ensures MatchesFilters(entry, NO_FILTERS)
    ensures f.level.Some? ==> (MatchesFilters(entry, f)
       <==> MatchesFilters(entry, f.(level := None)) && entry.level in f.level.value)
    ensures f.source.Some? ==> (MatchesFilters(entry, f)
       <==> MatchesFilters(entry, f.(source := None)) && entry.source in f.source.value)
    ensures f.text != "" ==> (MatchesFilters(entry, f)
       <==> MatchesFilters(entry, f.(text := "")) && Occurs(f.text, entry.searchable))
    ensures f.since != 0 ==> (MatchesFilters(entry, f)
       <==> MatchesFilters(entry, f.(since := 0)) && (entry.timestamp.None? || f.since <= entry.timestamp.value))
    ensures f.until != 0 ==> (MatchesFilters(entry, f)
       <==> MatchesFilters(entry, f.(until := 0)) && (entry.timestamp.None? || entry.timestamp.value <= f.until))
    ensures f.sinceSequence.Some? ==> (MatchesFilters(entry, f) <==>
      && MatchesFilters(entry, f.(sinceSequence := None))
      && (entry.sequence.None? || f.sinceSequence.value < entry.sequence.value))
  {
    ContainsMeans(entry.searchable, f.text);
  }

  // A query's answer: the matching entries in order, the newest "limit" of them.
  lemma {:induction false} MatchingMeans(entries: seq<LogEntry>, f: Filters)
    ensures Subsequence(Matching(entries, f), entries)
    ensures forall e :: multiset(Matching(entries, f))[e] == if MatchesFilters(e, f) then multiset(entries)[e] else 0
  {
    if entries != [] {
      MatchingMeans(entries[1..], f);
      assert entries == [entries[0]] + entries[1..];
      SubsequenceSkip(Matching(entries[1..], f), entries[0], entries[1..]);
    }
  }

  function Matching(entries: seq<LogEntry>, filters: Filters): seq<LogEntry> {
    if entries == [] then []
    else
      var rest := Matching(entries[1..], filters);
      if MatchesFilters(entries[0], filters) then [entries[0]] + rest else rest
  }

  lemma {:induction false} MatchingSplits(a: seq<LogEntry>, b: seq<LogEntry>, filters: Filters)
    ensures Matching(a + b, filters) == Matching(a, filters) + Matching(b, filters)
  {
    if a == [] {
      assert a + b == b;
    } else {
      assert (a + b)[1..] == a[1..] + b;
      MatchingSplits(a[1..], b, filters);
    }
  }

  lemma {:induction false} MatchingNothing(entries: seq<LogEntry>, filters: Filters)
    requires forall k | 0 <= k < |entries| :: !MatchesFilters(entries[k], filters)
    ensures Matching(entries, filters) == []
  {
    if entries != [] {
      assert forall k | 0 <= k < |entries[1..]| :: entries[1..][k] == entries[k + 1];
      MatchingNothing(entries[1..], filters);
    }
  }

  // ---- the unbounded log and the window the store keeps of it ----

  // The full history numbers its entries 1, 2, 3, ...
  ghost predicate Numbered(history: seq<LogEntry>) {
    forall k | 0 <= k < |history| :: history[k].sequence == Some(k + 1)
  }

  function Evicted(n: nat, maxEntries: int): nat {
    if maxEntries <= 0 then n else if n <= maxEntries then 0 else n - maxEntries
  }

  function Window(history: seq<LogEntry>, maxEntries: int): seq<LogEntry> {
    history[Evicted(|history|, maxEntries)..]
  }

  // A query bounded by a sequence the window still reaches sees what the full history has.
  lemma QueryRefinesHistory(history: seq<LogEntry>, maxEntries: int, filters: Filters)
    requires Numbered(history)
    requires filters.sinceSequence.Some?
    requires filters.sinceSequence.value >= |history| - (if maxEntries < 0 then 0 else maxEntries)
    ensures Matching(Window(history, maxEntries), filters) == Matching(history, filters)
  {
    var cut := Evicted(|history|, maxEntries);
    assert history == history[..cut] + history[cut..];
    MatchingSplits(history[..cut], history[cut..], filters);
    MatchingNothing(history[..cut], filters);
  }

  // Exactly when a query with a positive limit agrees with the full history:
  // the window already fills the limit, or no evicted entry matches.
  lemma QueryExactness(history: seq<LogEntry>, maxEntries: int, filters: Filters, limit: int)
    requires limit > 0
    requires Numbered(history)
    ensures (SliceFromEnd(Matching(Window(history, maxEntries), filters), limit)
             == SliceFromEnd(Matching(history, filters), limit))
       <==> (|Matching(Window(history, maxEntries), filters)| >= limit
             || (forall k | 0 <= k < Evicted(|history|, maxEntries) :: !MatchesFilters(history[k], filters)))
  {
    var cut := Evicted(|history|, maxEntries);
    var gone, kept := Matching(history[..cut], filters), Matching(history[cut..], filters);
    assert history == history[..cut] + history[cut..];
    MatchingSplits(history[..cut], history[cut..], filters);
    assert Matching(history, filters) == gone + kept;
    if forall k | 0 <= k < cut :: !MatchesFilters(history[k], filters) {
      MatchingNothing(history[..cut], filters);
      assert gone + kept == kept;
    } else {
      var k :| 0 <= k < cut && MatchesFilters(history[k], filters);
      MatchingFinds(history[..cut], k, filters);
      if |kept| >= limit {
        assert SliceFromEnd(gone + kept, limit) == kept[|kept| - limit..];
      } else {
        assert |SliceFromEnd(gone + kept, limit)| > |SliceFromEnd(kept, limit)|;
      }
    }
  }

  lemma {:induction false} MatchingFinds(entries: seq<LogEntry>, k: nat, filters: Filters)
    requires k < |entries| && MatchesFilters(entries[k], filters)
    ensures Matching(entries, filters) != []
  {
    if k > 0 {
      MatchingFinds(entries[1..], k - 1, filters);
    }
  }

  class Store {
    const maxEntries: int
    var store: seq<LogEntry>
    var sequence: nat
    ghost var history: seq<LogEntry>  // every entry appended since the last reset

    ghost predicate Valid() reads this {
      Numbered(history) && sequence == |history| && store == Window(history, maxEntries)
    }

    constructor (maxEntries: int)
      ensures Valid() && history == [] && this.maxEntries == maxEntries
    {
      this.maxEntries := maxEntries;
      store, sequence, history := [], 0, [];
    }

    method Append(entry: LogEntry) returns (enriched: LogEntry)
      requires Valid()
      modifies this
      ensures Valid()
      ensures enriched == entry.(sequence := Some(|old(history)| + 1))
      ensures history == old(history) + [enriched]
    {
      sequence := sequence + 1;
      enriched := entry.(sequence := Some(sequence));
      history := history + [enriched];
      store := store + [enriched];
      if |store| > maxEntries {
        store := store[1..];
      }
    }

    method Query(filters: Filters, limit: int := 200) returns (found: seq<LogEntry>)
      requires Valid()
      ensures found == SliceFromEnd(Matching(Window(history, maxEntries), filters), limit)
      ensures filters.sinceSequence.Some?
           && filters.sinceSequence.value >= sequence - (if maxEntries < 0 then 0 else maxEntries)
          ==> found == SliceFromEnd(Matching(history, filters), limit)
    {
      found := SliceFromEnd(Matching(store, filters), limit);
      if filters.sinceSequence.Some?
         && filters.sinceSequence.value >= sequence - (if maxEntries < 0 then 0 else maxEntries) {
        QueryRefinesHistory(history, maxEntries, filters);
      }
    }

    method LastSequence() returns (last: nat)
      requires Valid()
      ensures last == |history|
      ensures store != [] ==> store[|store| - 1].sequence == Some(last)
      ensures forall k | 0 <= k < |store| :: store[k].sequence == Some(last - |store| + 1 + k)
      ensures maxEntries >= 0 ==> |store| == if last < maxEntries then last else maxEntries
    {
      last := sequence;
    }

    method ResetStore()
      requires Valid()
      modifies this
      ensures Valid() && history == []
    {
      store, sequence := [], 0;
      history := [];
    }
  }
}
