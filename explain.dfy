/**
 * `describeTriggers`: the one-line explanation shown under the verdict. Each
 * trigger key is replaced by its human description (an unknown key is shown
 * as it is) and the descriptions are joined with ", ".
 */
module Explain {
  import opened Wrappers
  import opened Text
  import opened Scoring

  const NoFlags: string := "No major red flags detected."
  const Separator: string := ", "

  /** The `TRIGGER_DESCRIPTIONS` table: the description of a known trigger key. */
  function Description(key: string): Option<string>
  {
    if key == "thin liquidity" then Some("thin liquidity (<2 SOL)")
    else if key == "FDV/liquidity skewed" then Some("FDV/liquidity skewed")
    else if key == "low recent activity" then Some("low recent activity")
    else if key == "weak 5m volume" then Some("weak 5m volume")
    else if key == "fresh launch" then Some("fresh launch (<12h old)")
    else if key == "volume/liquidity imbalance" then Some("1h volume vs liquidity imbalance")
    else if key == "sell pressure" then Some("sell pressure in last 5m")
    else None
  }

  /** `TRIGGER_DESCRIPTIONS[key] || key`: the table's entry, or the key itself. */
  function Describe(key: string): string
  {
    match Description(key)
    case Some(text) => text
    case None => key
  }

  function DescribeAll(keys: seq<string>): seq<string>
  {
    seq(|keys|, i requires 0 <= i < |keys| => Describe(keys[i]))
  }

  function DescribeTriggers(keys: seq<string>): string
  {
    if |keys| == 0 then NoFlags else Join(DescribeAll(keys), Separator)
  }

  /** The keys `scorePair` reports for a list of triggers. */
  function Names(ts: seq<Trigger>): seq<string>
  {
    seq(|ts|, i requires 0 <= i < |ts| => Name(ts[i]))
  }

  /** Every trigger the scorer can report has an entry in the description table. */
  lemma TriggerDescribed(t: Trigger)
    ensures Description(Name(t)).Some?
    ensures |Describe(Name(t))| > 0 && Describe(Name(t))[0] != 'N'
  {
  }

  /**
   * For the keys the scorer reports, the explanation is the "no red flags"
   * sentence exactly when there are no triggers: no description starts with
   * the letter that sentence starts with.
   */
  lemma NoFlagsExactlyWhenNoTriggers(ts: seq<Trigger>)
    ensures DescribeTriggers(Names(ts)) == NoFlags <==> ts == []
  {
    if ts != [] {
      var keys := Names(ts);
      var ds := DescribeAll(keys);
      TriggerDescribed(ts[0]);
      JoinStartsWithFirst(ds, Separator);
      assert ds[0] == Describe(Name(ts[0]));
      assert DescribeTriggers(keys)[0] == ds[0][0] != 'N';
      assert NoFlags[0] == 'N';
    }
  }

  /**
   * A non-empty explanation lists the descriptions of all keys in the order
   * of the keys: the description of key `i` sits at `Offset(.., i)`, and
   * exactly ", " fills the gap up to the next one. With the total length
   * this fixes every character of the text.
   */
  lemma ExplanationShape(keys: seq<string>, i: nat)
    requires i < |keys|
    ensures |DescribeTriggers(keys)| == TotalLength(DescribeAll(keys)) + 2 * (|keys| - 1)
    ensures var ds := DescribeAll(keys);
      var at := Offset(ds, Separator, i);
      && at + |Describe(keys[i])| <= |DescribeTriggers(keys)|
      && DescribeTriggers(keys)[at..at + |Describe(keys[i])|] == Describe(keys[i])
    ensures i + 1 < |keys| ==>
      var ds := DescribeAll(keys);
      var gap := Offset(ds, Separator, i) + |Describe(keys[i])|;
      && Offset(ds, Separator, i + 1) <= |DescribeTriggers(keys)|
      && gap <= Offset(ds, Separator, i + 1)
      && DescribeTriggers(keys)[gap..Offset(ds, Separator, i + 1)] == ", "
  {
    var ds := DescribeAll(keys);
    var text := DescribeTriggers(keys);
    assert text == Join(ds, Separator);
    assert ds[i] == Describe(keys[i]);
    JoinLength(ds, Separator);
    JoinPlacesParts(ds, Separator, i);
    if i + 1 < |keys| {
      OffsetStep(ds, Separator, i);
    }
  }
}
