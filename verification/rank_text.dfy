/**
 * The text of the `!rank` command: the decimal rendering of numbers in a
 * template string, one line per listed entry, the lines joined by newlines,
 * and the reply chosen when nothing is stored.
 */
module RankText {
  import opened Ranking
  import opened Store

  /** Reply sent when no DPS is stored ("no registrants yet"). */
  const NoRegistrantsText: string := "📊 登録者がまだいません。"

  /** First line of the ranking message, with its newline ("DPS ranking (top 10)"). */
  const ListingHeader: string := "🏆 **DPSランキング（上位10位）**\n"

  /** What the handler emits: a reply to the command message, or a message to its channel. */
  datatype Outgoing = Reply(text: string) | ChannelSend(text: string)

  predicate IsDigit(c: char) { '0' <= c <= '9' }

  predicate AllDigits(s: string) { forall i :: 0 <= i < |s| ==> IsDigit(s[i]) }

  function DigitChar(d: nat): (c: char)
    requires d < 10
    ensures IsDigit(c) && c as int - '0' as int == d
  {
    ('0' as int + d) as char
  }

  /** A natural number as a template string shows it: decimal digits, no leading zero. */
  function NatToDecimal(n: nat): (s: string)
    ensures s != [] && AllDigits(s)
    ensures s[0] == '0' ==> n == 0
    decreases n
  {
    if n < 10 then [DigitChar(n)] else NatToDecimal(n / 10) + [DigitChar(n % 10)]
  }

  /** `${dps}` for an integral DPS: a minus sign before the digits of a negative value. */
  function IntToDecimal(n: int): (s: string)
    ensures s != [] && (s[0] == '-' <==> n < 0)
    ensures AllDigits(if n < 0 then s[1..] else s)
  {
    if n < 0 then "-" + NatToDecimal(-n) else NatToDecimal(n)
  }

  /** The value a string of decimal digits denotes. */
  function DigitsValue(s: string): nat
    requires AllDigits(s)
  {
    if s == [] then 0 else 10 * DigitsValue(s[..|s| - 1]) + (s[|s| - 1] as int - '0' as int)
  }

  /** Reads back an optionally signed decimal number; `None` for anything else. */
  function ParseDecimal(s: string): Option<int>
  {
    if |s| > 1 && s[0] == '-' && AllDigits(s[1..]) then var magnitude: int := DigitsValue(s[1..]); Some(-magnitude)
    else if |s| > 0 && AllDigits(s) then Some(DigitsValue(s))
    else None
  }

  lemma {:induction false} NatToDecimalReadsBack(n: nat)
    ensures DigitsValue(NatToDecimal(n)) == n
    decreases n
  {
    if n >= 10 {
      var s := NatToDecimal(n);
      NatToDecimalReadsBack(n / 10);
      assert s[..|s| - 1] == NatToDecimal(n / 10);
    }
  }

  /** The rendered DPS reads back as the stored value, so rendering loses nothing. */
  lemma IntToDecimalReadsBack(n: int)
    ensures ParseDecimal(IntToDecimal(n)) == Some(n)
  {
    if n < 0 {
      var s := IntToDecimal(n);
      assert s[1..] == NatToDecimal(-n);
      NatToDecimalReadsBack(-n);
    } else {
      NatToDecimalReadsBack(n);
    }
  }

  /** Line `k` (from 0) of the listing: `#k+1 <@id> - **dps** DPS`. */
  function RankLine(k: nat, e: Entry): (line: string)
    ensures line != [] && line[0] == '#'
    ensures |line| >= 4 && line[|line| - 4..] == " DPS"
  {
    "#" + NatToDecimal(k + 1) + " <@" + e.id + "> - **" + IntToDecimal(e.dps) + "** DPS"
  }

  /** `shown.map(([userId, dps], index) => ...)`. */
  function RankLines(shown: seq<Entry>): (r: seq<string>)
    ensures |r| == |shown|
    ensures forall k :: 0 <= k < |shown| ==> r[k] == RankLine(k, shown[k])
  {
    seq(|shown|, k requires 0 <= k < |shown| => RankLine(k, shown[k]))
  }

  /** `lines.join("\n")`. */
  function JoinLines(lines: seq<string>): (s: string)
    ensures lines == [] ==> s == ""
    ensures lines != [] ==> |lines[0]| <= |s| && s[..|lines[0]|] == lines[0]
  {
    if lines == [] then ""
    else if |lines| == 1 then lines[0]
    else lines[0] + "\n" + JoinLines(lines[1..])
  }

  /** `s.split("\n")`: the pieces between newlines; always at least one. */
  function SplitLines(s: string): (r: seq<string>)
    ensures |r| >= 1
  {
    if s == [] then [""]
    else if s[0] == '\n' then [""] + SplitLines(s[1..])
    else var rest := SplitLines(s[1..]); [[s[0]] + rest[0]] + rest[1..]
  }

  lemma {:induction false} SplitSingleLine(l: string)
    requires '\n' !in l
    ensures SplitLines(l) == [l]
  {
    if l != [] {
      SplitSingleLine(l[1..]);
      assert [l[0]] + l[1..] == l;
    }
  }

  lemma {:induction false} SplitFirstLine(l: string, rest: string)
    requires '\n' !in l
    ensures SplitLines(l + "\n" + rest) == [l] + SplitLines(rest)
  {
    if l == [] {
      assert l + "\n" + rest == "\n" + rest;
      assert ("\n" + rest)[1..] == rest;
    } else {
      SplitFirstLine(l[1..], rest);
      assert (l + "\n" + rest)[1..] == l[1..] + "\n" + rest;
      assert [l[0]] + l[1..] == l;
    }
  }

  /** Splitting the joined text on newlines gives back the lines, when none holds a newline. */
  lemma {:induction false} SplitJoinRoundTrip(lines: seq<string>)
    requires lines != []
    requires forall k :: 0 <= k < |lines| ==> '\n' !in lines[k]
    ensures SplitLines(JoinLines(lines)) == lines
  {
    if |lines| == 1 {
      SplitSingleLine(lines[0]);
    } else {
      SplitJoinRoundTrip(lines[1..]);
      SplitFirstLine(lines[0], JoinLines(lines[1..]));
      assert [lines[0]] + lines[1..] == lines;
    }
  }

  /** A listing line holds no newline when the id holds none: the numbers are digit strings. */
  lemma RankLineHasNoNewline(k: nat, e: Entry)
    requires '\n' !in e.id
    ensures '\n' !in RankLine(k, e)
  {
  }

  /** The `!rank` handler once the stored entries are read. */
  function RankReply(entries: seq<Entry>): (out: Outgoing)
    ensures out.Reply? <==> entries == []
    ensures out.Reply? ==> out.text == NoRegistrantsText
    ensures out.ChannelSend? ==> |ListingHeader| < |out.text| && out.text[..|ListingHeader|] == ListingHeader
  {
    var shown := TopTen(SortByDps(entries));
    if |shown| == 0 then Reply(NoRegistrantsText)
    else ChannelSend(ListingHeader + JoinLines(RankLines(shown)))
  }

  /** No stored id holds a newline (Discord ids are digit strings). */
  predicate IdsOnOneLine(entries: seq<Entry>)
  {
    forall i :: 0 <= i < |entries| ==> '\n' !in entries[i].id
  }

  /**
   * With nothing stored `!rank` replies "no registrants yet" and sends no
   * ranking; otherwise it sends the header followed by `min(10, n)` lines,
   * line `k` describing the entry at rank position `k`.
   */
  lemma RankReplyShape(entries: seq<Entry>)
    ensures RankReply(entries) == Reply(NoRegistrantsText) <==> entries == []
    ensures entries != [] ==>
      && RankReply(entries).ChannelSend?
      && |ListingHeader| <= |RankReply(entries).text|
      && RankReply(entries).text[..|ListingHeader|] == ListingHeader
    ensures entries != [] && IdsOnOneLine(entries) ==>
      var lines := SplitLines(RankReply(entries).text[|ListingHeader|..]);
      && |lines| == Min(ListingSize, |entries|)
      && forall k :: 0 <= k < |lines| ==> lines[k] == RankLine(k, SortByDps(entries)[k])
  {
    var sorted := SortByDps(entries);
    var shown := TopTen(sorted);
    if entries != [] {
      var body := JoinLines(RankLines(shown));
      var text := ListingHeader + body;
      assert text[..|ListingHeader|] == ListingHeader;
      assert text[|ListingHeader|..] == body;
      if IdsOnOneLine(entries) {
        SortPermutes(entries);
        forall k | 0 <= k < |shown| ensures '\n' !in RankLines(shown)[k] {
          assert shown[k] in multiset(entries);
          var i :| 0 <= i < |entries| && entries[i] == shown[k];
          RankLineHasNoNewline(k, shown[k]);
        }
        SplitJoinRoundTrip(RankLines(shown));
      }
    }
  }

  /** The `!rank` command: read the stored entries, then answer from them. */
  method HandleRank(listing: seq<KvEntry>) returns (out: Outgoing)
    ensures out == RankReply(Entries(listing))
    ensures out.Reply? <==> listing == []
  {
    var allEntries := CollectEntries(listing);
    out := RankReply(allEntries);
    RankReplyShape(allEntries);
  }
}
