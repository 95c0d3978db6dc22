/**
 * The recent-scans list: how `saveRecentScan` updates the stored list, and
 * `timeAgo`, which renders an entry's age.
 */
module RecentScans {
  import opened Wrappers
  import opened Config
  import opened Text
  import opened Scoring

  /** `{ mint, label, score, ts }`, as saved after a scan. */
  datatype RecentScan = RecentScan(mint: string, verdict: Label, score: int, ts: int)

  /** `list.filter((item) => item.mint !== mint)`. */
  function WithoutMint(list: seq<RecentScan>, mint: string): (r: seq<RecentScan>)
    ensures |r| <= |list|
  {
    if list == [] then []
    else if list[0].mint != mint then [list[0]] + WithoutMint(list[1..], mint)
    else WithoutMint(list[1..], mint)
  }

  /** How many entries of `list` are for `mint`. */
  function CountMint(list: seq<RecentScan>, mint: string): nat
  {
    if list == [] then 0
    else (if list[0].mint == mint then 1 else 0) + CountMint(list[1..], mint)
  }

  /** `a` is `b` with some entries left out, the others in their order. */
  predicate SubsequenceOf(a: seq<RecentScan>, b: seq<RecentScan>)
    decreases |b|
  {
    if a == [] then true
    else if b == [] then false
    else if a[0] == b[0] then SubsequenceOf(a[1..], b[1..])
    else SubsequenceOf(a, b[1..])
  }

  /** An entry survives the filter exactly when it was in the list and is for another mint. */
  lemma {:induction false} WithoutMintMembers(list: seq<RecentScan>, mint: string, x: RecentScan)
    ensures x in WithoutMint(list, mint) <==> x in list && x.mint != mint
  {
    if list != [] {
      WithoutMintMembers(list[1..], mint, x);
      assert list == [list[0]] + list[1..];
    }
  }

  /** No entry for the filtered mint is left. */
  lemma {:induction false} WithoutMintCount(list: seq<RecentScan>, mint: string)
    ensures CountMint(WithoutMint(list, mint), mint) == 0
  {
    if list != [] {
      WithoutMintCount(list[1..], mint);
    }
  }

  /** Filtering a list that has no entry for the mint leaves it unchanged. */
  lemma {:induction false} WithoutAbsentMint(list: seq<RecentScan>, mint: string)
    requires CountMint(list, mint) == 0
    ensures WithoutMint(list, mint) == list
  {
    if list != [] {
      WithoutAbsentMint(list[1..], mint);
      assert list == [list[0]] + list[1..];
    }
  }

  /** The filter keeps the relative order of the entries it keeps. */
  lemma {:induction false} WithoutMintKeepsOrder(list: seq<RecentScan>, mint: string)
    ensures SubsequenceOf(WithoutMint(list, mint), list)
  {
    if list != [] {
      WithoutMintKeepsOrder(list[1..], mint);
      if list[0].mint != mint {
        assert ([list[0]] + WithoutMint(list[1..], mint))[1..] == WithoutMint(list[1..], mint);
      } else {
        SkipHead(WithoutMint(list[1..], mint), list);
      }
    }
  }

  /** A subsequence of the tail is a subsequence of the whole list. */
  lemma {:induction false} SkipHead(a: seq<RecentScan>, b: seq<RecentScan>)
    requires b != [] && SubsequenceOf(a, b[1..])
    ensures SubsequenceOf(a, b)
    decreases |b|, 0
  {
    if a != [] && a[0] == b[0] {
      if |b| > 1 && a[1..] != [] {
        SubsequenceTail(a, b[1..]);
      }
    }
  }

  /** Dropping the first entry of a subsequence leaves a subsequence. */
  lemma {:induction false} SubsequenceTail(a: seq<RecentScan>, b: seq<RecentScan>)
    requires a != [] && SubsequenceOf(a, b)
    ensures SubsequenceOf(a[1..], b)
    decreases |b|, 1
  {
    if a[0] == b[0] {
      if a[1..] != [] {
        SkipHead(a[1..], b);
      }
    } else {
      SubsequenceTail(a, b[1..]);
      SkipHead(a[1..], b);
    }
  }

  /** A prefix of a subsequence is a subsequence. */
  lemma {:induction false} PrefixOfSubsequence(a: seq<RecentScan>, b: seq<RecentScan>, n: nat)
    requires n <= |a| && SubsequenceOf(a, b)
    ensures SubsequenceOf(a[..n], b)
    decreases |b|
  {
    if n > 0 {
      if a[0] == b[0] {
        PrefixOfSubsequence(a[1..], b[1..], n - 1);
        assert a[..n][1..] == a[1..][..n - 1];
      } else {
        PrefixOfSubsequence(a, b[1..], n);
      }
    }
  }

  /** The count over a concatenation is the sum of the counts. */
  lemma {:induction false} CountMintConcat(a: seq<RecentScan>, b: seq<RecentScan>, mint: string)
    ensures CountMint(a + b, mint) == CountMint(a, mint) + CountMint(b, mint)
  {
    if a == [] {
      assert a + b == b;
    } else {
      CountMintConcat(a[1..], b, mint);
      assert (a + b)[1..] == a[1..] + b;
    }
  }

  /** Cutting a list never adds entries for a mint. */
  lemma CountMintPrefix(list: seq<RecentScan>, n: nat, mint: string)
    requires n <= |list|
    ensures CountMint(list[..n], mint) <= CountMint(list, mint)
  {
    CountMintConcat(list[..n], list[n..], mint);
    assert list[..n] + list[n..] == list;
  }

  /**
   * The list update of `saveRecentScan`: drop the entries for the new
   * entry's mint, put the new entry in front, keep at most `RecentLimit`.
   */
  function Saved(list: seq<RecentScan>, entry: RecentScan): (r: seq<RecentScan>)
    ensures 0 < |r| <= RecentLimit && r[0] == entry
    ensures |r| - 1 <= |WithoutMint(list, entry.mint)|
    ensures r[1..] == WithoutMint(list, entry.mint)[..|r| - 1]
  {
    var kept := [entry] + WithoutMint(list, entry.mint);
    if |kept| > RecentLimit then kept[..RecentLimit] else kept
  }

  /**
   * After a save the new entry is the only one for its mint, the list is as
   * long as the other mints' entries allow up to `RecentLimit`, and those
   * entries keep their relative order.
   */
  lemma SavedShape(list: seq<RecentScan>, entry: RecentScan)
    ensures CountMint(Saved(list, entry), entry.mint) == 1
    ensures |Saved(list, entry)| ==
      if 1 + |WithoutMint(list, entry.mint)| < RecentLimit then 1 + |WithoutMint(list, entry.mint)| else RecentLimit
    ensures SubsequenceOf(Saved(list, entry)[1..], list)
  {
    var r := Saved(list, entry);
    var others := WithoutMint(list, entry.mint);
    WithoutMintCount(list, entry.mint);
    CountMintPrefix(others, |r| - 1, entry.mint);
    CountMintConcat([entry], r[1..], entry.mint);
    assert [entry] + r[1..] == r;
    WithoutMintKeepsOrder(list, entry.mint);
    PrefixOfSubsequence(others, list, |r| - 1);
  }

  /** Saving the same scan twice is saving it once. */
  lemma SaveTwice(list: seq<RecentScan>, entry: RecentScan)
    ensures Saved(Saved(list, entry), entry) == Saved(list, entry)
  {
    var once := Saved(list, entry);
    var rest := WithoutMint(list, entry.mint);
    WithoutMintCount(list, entry.mint);
    CountMintPrefix(rest, |once| - 1, entry.mint);
    assert once == [entry] + once[1..];
    WithoutAbsentMint(once[1..], entry.mint);
    assert WithoutMint(once, entry.mint) == once[1..];
  }

  /** The list the stored value stands for: anything that is not an array is an empty list. */
  function StoredList(stored: Option<seq<RecentScan>>): seq<RecentScan>
  {
    if stored.Some? then stored.value else []
  }

  /** `saveRecentScan(entry)`, given what `recentScans` held; returns the list it writes back. */
  method SaveRecentScan(stored: Option<seq<RecentScan>>, entry: RecentScan) returns (list: seq<RecentScan>)
    ensures list == Saved(StoredList(stored), entry)
  {
    list := if stored.Some? then stored.value else [];
    list := WithoutMint(list, entry.mint);
    list := [entry] + list;
    if |list| > RecentLimit {
      list := list[..RecentLimit];
    }
  }

  /** The age buckets `timeAgo` renders. */
  datatype Age = JustNow | MinutesAgo(minutes: nat) | HoursAgo(hours: nat) | DaysAgo(days: nat)

  const MsPerSecond: int := 1000
  const MsPerMinute: int := 60 * MsPerSecond
  const MsPerDay: int := 24 * MsPerHour

  /**
   * The bucket of a timestamp `ts` read at `now` (both in ms). Whole seconds
   * are floored, so a timestamp in the future is "just now".
   */
  function AgeOf(ts: int, now: int): Age
  {
    var seconds := (now - ts) / 1000;
    if seconds < 60 then JustNow
    else if seconds < 3600 then MinutesAgo(seconds / 60)
    else
      var hours := seconds / 3600;
      if hours < 24 then HoursAgo(hours)
      else DaysAgo(hours / 24)
  }

  /** `timeAgo(ts)` at `now`. */
  function TimeAgo(ts: int, now: int): string
  {
    match AgeOf(ts, now)
    case JustNow => "just now"
    case MinutesAgo(m) => NatToString(m) + "m ago"
    case HoursAgo(h) => NatToString(h) + "h ago"
    case DaysAgo(d) => NatToString(d) + "d ago"
  }

  /**
   * Each bucket is the stretch of elapsed time its number names: less than
   * a minute, or so many whole minutes (below an hour), hours (below a day)
   * or days.
   */
  lemma AgeBuckets(ts: int, now: int)
    ensures AgeOf(ts, now) == JustNow <==> now - ts < MsPerMinute
    ensures AgeOf(ts, now).MinutesAgo? ==>
      var m := AgeOf(ts, now).minutes;
      1 <= m < 60 && m * MsPerMinute <= now - ts < (m + 1) * MsPerMinute
    ensures AgeOf(ts, now).HoursAgo? ==>
      var h := AgeOf(ts, now).hours;
      1 <= h < 24 && h * MsPerHour <= now - ts < (h + 1) * MsPerHour
    ensures AgeOf(ts, now).DaysAgo? ==>
      var d := AgeOf(ts, now).days;
      1 <= d && d * MsPerDay <= now - ts < (d + 1) * MsPerDay
  {
    var e := now - ts;
    var seconds := e / 1000;
    assert seconds * 1000 <= e < seconds * 1000 + 1000;
    if seconds >= 3600 {
      var hours := seconds / 3600;
      assert hours * 3600 <= seconds < hours * 3600 + 3600;
      if hours >= 24 {
        var days := hours / 24;
        assert days * 24 <= hours < days * 24 + 24;
      }
    } else if seconds >= 60 {
      var minutes := seconds / 60;
      assert minutes * 60 <= seconds < minutes * 60 + 60;
    }
  }

  /** The count a bucket shows, and the letter after it. */
  function Count(a: Age): nat
  {
    match a
    case JustNow => 0
    case MinutesAgo(m) => m
    case HoursAgo(h) => h
    case DaysAgo(d) => d
  }

  function Unit(a: Age): char
  {
    match a
    case JustNow => ' '
    case MinutesAgo(_) => 'm'
    case HoursAgo(_) => 'h'
    case DaysAgo(_) => 'd'
  }

  /**
   * Every text but "just now" is a decimal count, its unit letter and
   * " ago", and the count reads back as the bucket's number.
   */
  lemma TimeAgoReadsBack(ts: int, now: int)
    requires !AgeOf(ts, now).JustNow?
    ensures var text := TimeAgo(ts, now);
      && |text| > 5
      && text[|text| - 5] == Unit(AgeOf(ts, now))
      && text[|text| - 4..] == " ago"
      && (forall k :: 0 <= k < |text| - 5 ==> '0' <= text[k] <= '9')
      && ParseDecimal(text[..|text| - 5]) == Count(AgeOf(ts, now))
  {
    var a := AgeOf(ts, now);
    var digits := NatToString(Count(a));
    var text := TimeAgo(ts, now);
    assert text == digits + [Unit(a)] + " ago";
    assert text[..|text| - 5] == digits;
    ParseNatToString(Count(a));
  }
}
