/** Text that crosses the process boundary: order references and candidate lists. */
module Codec {
  import opened Domain

  // ── decimal numbers ───────────────────────────────────────────────────────

  function Digit(n: nat): char
    requires n < 10
  {
    '0' + n as char
  }

  predicate IsDigit(c: char) { '0' <= c <= '9' }

  function DigitValue(c: char): nat
    requires IsDigit(c)
  {
    (c - '0') as nat
  }

  function Decimal(n: nat): (text: string)
    ensures |text| > 0 && forall i :: 0 <= i < |text| ==> IsDigit(text[i])
  {
    if n < 10 then [Digit(n)] else Decimal(n / 10) + [Digit(n % 10)]
  }

  function ValueOf(text: string): nat
    requires forall i :: 0 <= i < |text| ==> IsDigit(text[i])
  {
    if |text| == 0 then 0 else ValueOf(text[..|text| - 1]) * 10 + DigitValue(text[|text| - 1])
  }

  /** `Number(text)` on plain digits; any other spelling counts as no number here. */
  function ParseNumber(text: string): Option<nat> {
    if |text| > 0 && forall i :: 0 <= i < |text| ==> IsDigit(text[i]) then Some(ValueOf(text)) else None
  }

  lemma {:induction false} DecimalRoundTrip(n: nat)
    ensures ParseNumber(Decimal(n)) == Some(n)
  {
    var text := Decimal(n);
    assert DigitValue(Digit(n % 10)) == n % 10;
    if n < 10 {
      assert text[..0] == [];
      assert ValueOf(text[..0]) == 0;
    } else {
      DecimalRoundTrip(n / 10);
      assert text[..|text| - 1] == Decimal(n / 10);
    }
  }

  // ── splitting ─────────────────────────────────────────────────────────────

  /** `text.indexOf(mark)`, with the length for "not found". */
  function IndexOf(text: string, mark: char): (i: nat)
    ensures i <= |text| && (forall j :: 0 <= j < i ==> text[j] != mark) && (i < |text| ==> text[i] == mark)
  {
    if |text| == 0 || text[0] == mark then 0 else 1 + IndexOf(text[1..], mark)
  }

  lemma IndexOfFirst(prefix: string, mark: char, rest: string)
    requires mark !in prefix
    ensures IndexOf(prefix + [mark] + rest, mark) == |prefix|
  {
    var text := prefix + [mark] + rest;
    assert text[|prefix|] == mark;
    assert forall j :: 0 <= j < |prefix| ==> text[j] == prefix[j];
  }

  // ── order references ──────────────────────────────────────────────────────

  /** The reference sent to the provider. */
  function EncodeReference(region: string, o: OrderId): string { region + "-" + Decimal(o) }

  /** What the webhook reads back: the region and a positive order id. */
  function DecodeReference(reference: string): Option<(string, OrderId)> {
    var dash := IndexOf(reference, '-');
    if dash == |reference| || dash < 1 then None
    else
      var o := ParseNumber(reference[dash + 1..]);
      if o.None? || o.value == 0 then None else Some((reference[..dash], o.value))
  }

  /** The round trip works exactly for non-empty regions without a dash and positive ids. */
  lemma ReferenceRoundTrip(region: string, o: OrderId)
    ensures DecodeReference(EncodeReference(region, o)) == Some((region, o))
            <==> region != "" && '-' !in region && o > 0
  {
    var text := EncodeReference(region, o);
    if '-' !in region {
      IndexOfFirst(region, '-', Decimal(o));
      assert text == region + ['-'] + Decimal(o);
      assert text[|region| + 1..] == Decimal(o);
      assert text[..|region|] == region;
      DecimalRoundTrip(o);
    } else {
      var i :| 0 <= i < |region| && region[i] == '-';
      assert text[i] == '-';
      assert IndexOf(text, '-') <= i;
    }
  }

  lemma ReferencesAreInjective(region: string, o: OrderId, region': string, o': OrderId)
    requires region != "" && '-' !in region && o > 0 && region' != "" && '-' !in region' && o' > 0
    requires EncodeReference(region, o) == EncodeReference(region', o')
    ensures region == region' && o == o'
  {
    ReferenceRoundTrip(region, o);
    ReferenceRoundTrip(region', o');
  }

  // ── candidate lists ───────────────────────────────────────────────────────

  /** `candidates.join(',')`. */
  function JoinIds(ids: seq<AgentId>): string {
    if |ids| == 0 then "" else if |ids| == 1 then Decimal(ids[0]) else Decimal(ids[0]) + "," + JoinIds(ids[1..])
  }

  /** `offered.split(',').map(Number)`; a piece that is no number matches no agent and is skipped. */
  function SplitIds(text: string): seq<AgentId>
    decreases |text|
  {
    var comma := IndexOf(text, ',');
    var head := ParseNumber(text[..comma]);
    (if head.Some? then [head.value] else [])
    + (if comma < |text| then SplitIds(text[comma + 1..]) else [])
  }

  lemma SplitFirst(id: AgentId, rest: string)
    ensures SplitIds(Decimal(id)) == [id]
    ensures SplitIds(Decimal(id) + [','] + rest) == [id] + SplitIds(rest)
  {
    var first := Decimal(id);
    DecimalRoundTrip(id);
    assert ',' !in first;
    assert IndexOf(first, ',') == |first| && first[..|first|] == first;
    IndexOfFirst(first, ',', rest);
    var text := first + [','] + rest;
    assert text[..|first|] == first && text[|first| + 1..] == rest;
  }

  lemma {:induction false} IdsRoundTrip(ids: seq<AgentId>)
    ensures SplitIds(JoinIds(ids)) == ids
    ensures JoinIds(ids) == "" <==> ids == []
  {
    if |ids| > 0 {
      var rest := JoinIds(ids[1..]);
      SplitFirst(ids[0], rest);
      IdsRoundTrip(ids[1..]);
      assert ids == [ids[0]] + ids[1..];
      assert |ids| > 1 ==> JoinIds(ids) == Decimal(ids[0]) + [','] + rest;
    }
  }
}
