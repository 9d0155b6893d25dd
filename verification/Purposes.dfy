/** The journal purposes that carry row ids: `reclaim:<id,id,...>` and `response:<id>`. What a
    crash leaves behind is only this text, so reading it back must give the same rows. */
module Purposes {
  import opened Options
  import opened Decimal

  const RECLAIM: string := "reclaim:"
  const RESPONSE: string := "response:"

  function Join(parts: seq<string>): string {
    if |parts| == 0 then ""
    else if |parts| == 1 then parts[0]
    else parts[0] + "," + Join(parts[1..])
  }

  /** `split(",")`: the stretches between commas, one more than there are commas. */
  function Split(s: string): (parts: seq<string>)
    ensures parts != []
    decreases |s|
  {
    if s == "" then [""]
    else
      var rest := Split(s[1..]);
      if s[0] == ',' then [""] + rest else [[s[0]] + rest[0]] + rest[1..]
  }

  function Numerals(ids: seq<nat>): seq<string> {
    seq(|ids|, i requires 0 <= i < |ids| => Numeral(ids[i]))
  }

  function ReclaimPurpose(ids: seq<nat>): string {
    RECLAIM + Join(Numerals(ids))
  }

  function ResponsePurpose(row: nat): string {
    RESPONSE + Numeral(row)
  }

  /** `Number(part)` where it yields a positive integer; None stands for every other outcome. */
  function PositiveInteger(part: string): Option<nat> {
    if part != "" && AllDigits(part) && ValueOf(part) > 0 then Some(ValueOf(part)) else None
  }

  function ParseIds(parts: seq<string>): Option<seq<nat>> {
    if parts == [] then Some([])
    else
      match (PositiveInteger(parts[0]), ParseIds(parts[1..]))
      case (Some(id), Some(ids)) => Some([id] + ids)
      case _ => None
  }

  /** None stands for the thrown error. */
  function ParseReclaimPurpose(purpose: string): Option<seq<nat>> {
    var body := if RECLAIM <= purpose then purpose[|RECLAIM|..] else "";
    if body == "" then Some([]) else ParseIds(Split(body))
  }

  /** None stands for `null`: a watch of another kind. */
  function ParseWatchPurpose(purpose: string): Option<nat> {
    if RESPONSE <= purpose then PositiveInteger(purpose[|RESPONSE|..]) else None
  }

  lemma {:induction false} SplitDigits(part: string, rest: string)
    requires AllDigits(part)
    ensures Split(part + "," + rest) == [part] + Split(rest)
    ensures Split(part) == [part]
  {
    if part == "" {
      assert part + "," + rest == "," + rest;
      assert ("," + rest)[1..] == rest;
    } else {
      SplitDigits(part[1..], rest);
      assert (part + "," + rest)[1..] == part[1..] + "," + rest;
      assert [part[0]] + part[1..] == part;
    }
  }

  lemma {:induction false} SplitJoin(ids: seq<nat>)
    requires ids != []
    ensures Split(Join(Numerals(ids))) == Numerals(ids)
  {
    var parts := Numerals(ids);
    if |ids| > 1 {
      SplitJoin(ids[1..]);
      assert parts[1..] == Numerals(ids[1..]);
      SplitDigits(parts[0], Join(parts[1..]));
      assert parts == [parts[0]] + parts[1..];
    } else {
      SplitDigits(parts[0], "");
      assert parts == [parts[0]];
    }
  }

  lemma {:induction false} ParseNumerals(ids: seq<nat>)
    requires forall i :: 0 <= i < |ids| ==> ids[i] > 0
    ensures ParseIds(Numerals(ids)) == Some(ids)
  {
    if ids != [] {
      ParseNumerals(ids[1..]);
      NumeralRoundTrip(ids[0]);
      assert Numerals(ids)[1..] == Numerals(ids[1..]);
      assert PositiveInteger(Numerals(ids)[0]) == Some(ids[0]);
      assert ids == [ids[0]] + ids[1..];
    }
  }

  /** Reading back the purpose of a reclaim gives exactly the rows it was written for. */
  lemma ReclaimPurposeRoundTrip(ids: seq<nat>)
    requires ids != [] && forall i :: 0 <= i < |ids| ==> ids[i] > 0
    ensures ParseReclaimPurpose(ReclaimPurpose(ids)) == Some(ids) && "reclaim:" <= ReclaimPurpose(ids)
  {
    SplitJoin(ids);
    ParseNumerals(ids);
    assert ReclaimPurpose(ids)[|RECLAIM|..] == Join(Numerals(ids));
    assert Join(Numerals(ids)) != "" by {
      assert Numeral(ids[0]) <= Join(Numerals(ids));
    }
  }

  lemma {:induction false} ParsedIds(parts: seq<string>)
    ensures ParseIds(parts).Some? <==> forall i :: 0 <= i < |parts| ==> PositiveInteger(parts[i]).Some?
    ensures ParseIds(parts).Some? ==> |ParseIds(parts).value| == |parts|
    decreases |parts|
  {
    if parts != [] {
      ParsedIds(parts[1..]);
      if forall i :: 0 <= i < |parts| ==> PositiveInteger(parts[i]).Some? {
        assert forall i :: 0 <= i < |parts[1..]| ==> parts[1..][i] == parts[i + 1];
      } else {
        var i :| 0 <= i < |parts| && PositiveInteger(parts[i]).None?;
        assert i > 0 ==> parts[1..][i - 1] == parts[i];
      }
    }
  }

  lemma {:induction false} ParsedIdsArePositive(parts: seq<string>)
    requires ParseIds(parts).Some?
    ensures forall i :: 0 <= i < |ParseIds(parts).value| ==> ParseIds(parts).value[i] > 0
    decreases |parts|
  {
    if parts != [] {
      ParsedIdsArePositive(parts[1..]);
    }
  }

  lemma IdsOfPurpose(purpose: string)
    requires "reclaim:" < purpose
    ensures ParseReclaimPurpose(purpose) == ParseIds(Split(purpose[8..]))
  {
    assert RECLAIM == "reclaim:" && |RECLAIM| == 8;
    assert |purpose| > 8 && |purpose[8..]| > 0;
  }

  /** A purpose that is read gives one positive row id for each of its parts; a part that is no positive
      number makes the whole unreadable. */
  lemma ReadPurposesNameRows(purpose: string)
    requires "reclaim:" < purpose
    ensures var parts := Split(purpose[8..]);
            && (ParseReclaimPurpose(purpose).Some?
                <==> forall i :: 0 <= i < |parts| ==> PositiveInteger(parts[i]).Some?)
            && (ParseReclaimPurpose(purpose).Some? ==>
                  && |ParseReclaimPurpose(purpose).value| == |parts|
                  && forall i :: 0 <= i < |parts| ==> ParseReclaimPurpose(purpose).value[i] > 0)
  {
    var parts := Split(purpose[8..]);
    IdsOfPurpose(purpose);
    ParsedIds(parts);
    if ParseIds(parts).Some? {
      ParsedIdsArePositive(parts);
    }
  }

  lemma WatchPurposeRoundTrip(row: nat)
    requires row > 0
    ensures ParseWatchPurpose(ResponsePurpose(row)) == Some(row) && ResponsePurpose(row) == "response:" + Numeral(row)
  {
    NumeralRoundTrip(row);
    assert ResponsePurpose(row)[|RESPONSE|..] == Numeral(row);
  }
}
