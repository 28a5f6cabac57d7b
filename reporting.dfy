/** `report_availability`: from a non-empty aggregate, compose the webhook
    payload and the short social-media text for the earliest date. Dispatching
    them is outside the model; the composed report is returned instead. */
module Reporting {
  import opened VaxTypes
  import opened Text

  /** One detail line of the webhook attachment. */
  datatype Field = Field(value: string, short: bool)

  /** The webhook payload: user name, optional channel, the attachment's
      pretext and its detail fields. */
  datatype Webhook = Webhook(username: string, channel: Option<string>, pretext: string, fields: seq<Field>)

  /** What one report composes: the date reported on, the slot total, the
      webhook payload, the social-media text and the identities `post_twitter`
      is called with (each call still checks its own API key). */
  datatype Report = Report(date: Date, numSlots: int, webhook: Webhook, tweet: string, tweetAs: seq<string>)

  const BotName: string := "VaxBot"
  const OneSlotText: string := "One slot was found"
  /** The social-media text gets the pincode list only below this length. */
  const PincodeListLimit: int := 100

  /** `d` is the first of the sorted date keys. */
  predicate IsEarliest(d: Date, keys: set<Date>) {
    d in keys && forall k :: k in keys ==> NotAfter(d, k)
  }

  /** At most one date is the earliest, so the report's date is determined. */
  lemma EarliestUnique(d1: Date, d2: Date, keys: set<Date>)
    requires IsEarliest(d1, keys) && IsEarliest(d2, keys)
    ensures d1 == d2
  {
  }

  /** The first key of the sorted date keys (the source sorts and takes
      element 0, which fails on an empty table; the caller never passes one). */
  method EarliestDate(keys: set<Date>) returns (d: Date)
    requires keys != {}
    ensures IsEarliest(d, keys)
  {
    var rest := keys;
    d :| d in rest;
    rest := rest - {d};
    while rest != {}
      invariant d in keys && rest <= keys
      invariant forall k :: k in keys && k !in rest ==> NotAfter(d, k)
      decreases rest
    {
      var k :| k in rest;
      if NotAfter(k, d) {
        d := k;
      }
      rest := rest - {k};
    }
  }

  /** "One slot was found" or "N slots were found". */
  function CountText(capacity: int): string {
    if capacity == 1 then OneSlotText else IntToString(capacity) + " slots were found"
  }

  /** The sole center's name, or "K centers". */
  function CenterText(s: Slots): string {
    if |s.centers| == 1 then s.centers[0] else IntToString(|s.centers|) + " centers"
  }

  function DetailLine(e: Entry): string {
    CountText(e.slots.availableCapacity) + " in pincode " + IntToString(e.pincode) + " at " + CenterText(e.slots) + "."
  }

  function DetailField(e: Entry): Field {
    Field(DetailLine(e), false)
  }

  /** The attachment's fields, one per pincode entry, in entry order. */
  function DetailFields(es: seq<Entry>): seq<Field> {
    MapSeq(es, DetailField)
  }

  function PincodeText(e: Entry): string {
    IntToString(e.pincode)
  }

  /** The pincodes as text, in entry order. */
  function PincodeTexts(es: seq<Entry>): seq<string> {
    MapSeq(es, PincodeText)
  }

  /** All center names of the entries, concatenated in entry order. */
  function CentersOf(es: seq<Entry>): seq<string> {
    if es == [] then [] else CentersOf(es[..|es| - 1]) + es[|es| - 1].slots.centers
  }

  function Pretext(numSlots: int, cfg: Config, dateText: string): string {
    IntToString(numSlots) + " appointment slots for " + IntToString(AgeLimit(cfg)) + "+ found in " +
    cfg.name + " on " + dateText + "!"
  }

  function TweetHead(numSlots: int, cfg: Config): string {
    IntToString(numSlots) + " slots for " + IntToString(AgeLimit(cfg)) + "+ found in " + cfg.name
  }

  function PincodeList(pincodes: seq<string>): string {
    " (pincodes " + Join(pincodes, ", ") + ")"
  }

  /** The social-media text before its date suffix: the sole center when there
      is one center overall, else the sole pincode, else the pincode list when
      it fits under the limit. */
  function TweetBody(es: seq<Entry>, cfg: Config): string {
    var head := TweetHead(TotalCapacity(es), cfg);
    var centers := CentersOf(es);
    var pincodes := PincodeTexts(es);
    if |centers| == 1 then head + " at " + centers[0]
    else if |pincodes| == 1 then head + " (pincode " + pincodes[0] + ")"
    else if |head| + |PincodeList(pincodes)| < PincodeListLimit then head + PincodeList(pincodes)
    else head
  }

  /** The identities `post_twitter` is called with and gets past its first
      check: the default one, then the configuration's own, and none when
      posting is not enabled. Whether each then posts depends on its keys. */
  function TweetIdentities(cfg: Config): seq<string> {
    if cfg.postToTwitter.GetOr(false) then ["default", cfg.name] else []
  }

  /** The report on date `d` whose pincode entries are `es`; `longDate` and
      `shortDate` stand for the two date formats of the messages. */
  function ReportOn(es: seq<Entry>, d: Date, cfg: Config, longDate: Date -> string, shortDate: Date -> string): Report {
    var numSlots := TotalCapacity(es);
    Report(d, numSlots,
           Webhook(BotName, cfg.alertChannel, Pretext(numSlots, cfg, longDate(d)), DetailFields(es)),
           TweetBody(es, cfg) + " on " + shortDate(d) + "!",
           TweetIdentities(cfg))
  }

  /** `r` is the report on the earliest date of `table`. */
  predicate ReportsOn(table: DateTable, r: Report, cfg: Config, longDate: Date -> string, shortDate: Date -> string) {
    IsEarliest(r.date, table.Keys) && r == ReportOn(table[r.date], r.date, cfg, longDate, shortDate)
  }

  /** The reporter: pick the earliest date, walk its pincode entries
      accumulating the total, the detail fields, the pincodes and the centers,
      then build the social-media text step by step. */
  method ComposeReport(table: DateTable, cfg: Config, longDate: Date -> string, shortDate: Date -> string)
    returns (r: Report)
    requires table != map[]
    ensures ReportsOn(table, r, cfg, longDate, shortDate)
  {
    var mostRecent := EarliestDate(table.Keys);
    var slotsByPincode := table[mostRecent];
    var numSlots := 0;
    var fields: seq<Field> := [];
    var pincodes: seq<string> := [];
    var centers: seq<string> := [];
    for i := 0 to |slotsByPincode|
      invariant numSlots == TotalCapacity(slotsByPincode[..i])
      invariant fields == DetailFields(slotsByPincode[..i])
      invariant pincodes == PincodeTexts(slotsByPincode[..i])
      invariant centers == CentersOf(slotsByPincode[..i])
    {
      var e := slotsByPincode[i];
      assert slotsByPincode[..i + 1][..i] == slotsByPincode[..i];
      assert slotsByPincode[..i + 1][i] == e;
      numSlots := numSlots + e.slots.availableCapacity;
      pincodes := pincodes + [IntToString(e.pincode)];
      centers := centers + e.slots.centers;
      var centerText := CenterText(e.slots);
      var numText := CountText(e.slots.availableCapacity);
      fields := fields + [Field(numText + " in pincode " + IntToString(e.pincode) + " at " + centerText + ".", false)];
    }
    assert slotsByPincode[..|slotsByPincode|] == slotsByPincode;
    var ageLimit := AgeLimit(cfg);
    var pretext := IntToString(numSlots) + " appointment slots for " + IntToString(ageLimit) + "+ found in " +
                   cfg.name + " on " + longDate(mostRecent) + "!";
    var twitterText := IntToString(numSlots) + " slots for " + IntToString(ageLimit) + "+ found in " + cfg.name;
    if |centers| == 1 {
      twitterText := twitterText + " at " + centers[0];
    } else if |pincodes| == 1 {
      twitterText := twitterText + " (pincode " + pincodes[0] + ")";
    } else {
      var pincodeText := " (pincodes " + Join(pincodes, ", ") + ")";
      if |twitterText| + |pincodeText| < PincodeListLimit {
        twitterText := twitterText + pincodeText;
      }
    }
    twitterText := twitterText + " on " + shortDate(mostRecent) + "!";
    var webhook := Webhook(BotName, cfg.alertChannel, pretext, fields);
    r := Report(mostRecent, numSlots, webhook, twitterText, TweetIdentities(cfg));
  }

  // ---------------------------------------------------------------------------
  // Properties of the composed texts

  /** One detail field per pincode entry, in entry order, each the entry's
      detail line and none of them short. */
  lemma DetailFieldsPerPincode(es: seq<Entry>)
    ensures |DetailFields(es)| == |es|
    ensures forall i :: 0 <= i < |es| ==> DetailFields(es)[i] == Field(DetailLine(es[i]), false)
  {
    MapSeqAt(es, DetailField);
  }

  /** One pincode text per entry, in entry order. */
  lemma PincodeTextsPerPincode(es: seq<Entry>)
    ensures |PincodeTexts(es)| == |es|
    ensures forall i :: 0 <= i < |es| ==> PincodeTexts(es)[i] == IntToString(es[i].pincode)
  {
    MapSeqAt(es, PincodeText);
  }

  /** A detail line opens with "One slot was found" exactly when its pincode's
      capacity is 1; any other capacity is written as a number. */
  lemma OneSlotIff(e: Entry)
    ensures |DetailLine(e)| >= |OneSlotText|
    ensures DetailLine(e)[..|OneSlotText|] == OneSlotText <==> e.slots.availableCapacity == 1
  {
    var cap := e.slots.availableCapacity;
    var line := DetailLine(e);
    var count := CountText(cap);
    assert line == count + (" in pincode " + IntToString(e.pincode) + " at " + CenterText(e.slots) + ".");
    assert line[..|count|] == count;
    if cap != 1 {
      var n := IntToString(cap);
      assert count[0] == n[0];
      assert n[0] != 'O';
      assert line[0] != OneSlotText[0];
    } else {
      assert line[..|OneSlotText|] == count;
    }
  }

  /** The center part of a detail line: the sole center's name when the pincode
      has exactly one center, otherwise the number of centers. */
  lemma CenterTextIff(e: Entry)
    ensures |e.slots.centers| == 1 ==> CenterText(e.slots) == e.slots.centers[0]
    ensures |e.slots.centers| != 1 ==>
      var t := CenterText(e.slots);
      && |t| > 8
      && t[|t| - 8..] == " centers"
      && AllDigits(t[..|t| - 8])
      && ParseNat(t[..|t| - 8]) == |e.slots.centers|
  {
    if |e.slots.centers| != 1 {
      var n := |e.slots.centers|;
      var t := CenterText(e.slots);
      assert t == NatToString(n) + " centers";
      assert t[..|t| - 8] == NatToString(n);
      NatRoundTrip(n);
    }
  }

  /** Every pincode entry has at least one center, so the concatenated centers
      are at least as many as the entries, and one center overall means one
      pincode entry whose only center it is. */
  lemma {:induction false} CentersCoverEntries(es: seq<Entry>)
    requires forall i :: 0 <= i < |es| ==> es[i].slots.centers != []
    ensures |CentersOf(es)| >= |es|
    ensures |CentersOf(es)| == 1 ==> |es| == 1 && CentersOf(es) == es[0].slots.centers
  {
    if es != [] {
      var init := es[..|es| - 1];
      CentersCoverEntries(init);
      if |CentersOf(es)| == 1 {
        assert |CentersOf(init)| == 0;
        assert init == [];
      }
    }
  }

  /** The choice of the social-media text's middle part: the sole center, else
      the sole pincode, else the pincode list when the text so far plus the list
      stays under 100 characters, and nothing otherwise. */
  lemma TweetSelection(es: seq<Entry>, cfg: Config)
    requires es != []
    requires forall i :: 0 <= i < |es| ==> es[i].slots.centers != []
    ensures var head := TweetHead(TotalCapacity(es), cfg);
      && (|CentersOf(es)| == 1 ==> TweetBody(es, cfg) == head + " at " + es[0].slots.centers[0])
      && (|CentersOf(es)| != 1 && |es| == 1 ==>
            TweetBody(es, cfg) == head + " (pincode " + IntToString(es[0].pincode) + ")")
      && (|es| > 1 ==>
            var list := PincodeList(PincodeTexts(es));
            && (TweetBody(es, cfg) == head + list <==> |head| + |list| < PincodeListLimit)
            && (TweetBody(es, cfg) != head + list ==> TweetBody(es, cfg) == head))
  {
    CentersCoverEntries(es);
    PincodeTextsPerPincode(es);
  }

  /** The pincode list never pushes the text before the date suffix to 100
      characters or more when there are several pincodes. */
  lemma TweetBodyBound(es: seq<Entry>, cfg: Config)
    requires forall i :: 0 <= i < |es| ==> es[i].slots.centers != []
    requires |es| > 1
    ensures var head := TweetHead(TotalCapacity(es), cfg);
      |TweetBody(es, cfg)| < PincodeListLimit || TweetBody(es, cfg) == head
  {
    CentersCoverEntries(es);
    PincodeTextsPerPincode(es);
  }
}
