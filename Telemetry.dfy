/**
 * The latest value of each measured quantity (src/main.cpp:52-55) and the
 * JSON text the `_send_data` state publishes (src/main.cpp:485-495).
 */
module Telemetry {
  import opened Wrappers
  import opened Decimal

  /** The four shared telemetry values, as the publisher reads them. */
  datatype Snapshot = Snapshot(ct1: real, ct2: real, temperatureK: real, temperatureIR: real)

  /** The four values as they appear in a payload, each rounded to tenths. */
  datatype Readings = Readings(ct1: Tenths, ct2: Tenths, temperatureK: Tenths, temperatureIR: Tenths)

  /** `"\"<key>\": " + String(v, 1)`. */
  function Field(key: string, v: real): string {
    "\"" + key + "\": " + Format(v)
  }

  /** The payload: '{', the four fields in a fixed order separated by ',', '}'. */
  function Payload(s: Snapshot): (p: string)
    ensures |p| >= 2 && p[0] == '{' && p[|p| - 1] == '}'
  {
    "{" + Field("currentCT31", s.ct1) + ","
        + Field("currentCT32", s.ct2) + ","
        + Field("temperatureK3", s.temperatureK) + ","
        + Field("temperatureIR3", s.temperatureIR) + "}"
  }

  /** Splits `s` at the first occurrence of `c`, dropping that `c`. */
  function SplitAt(s: string, c: char): (r: Option<(string, string)>)
    ensures r.Some? ==> c !in r.value.0 && s == r.value.0 + [c] + r.value.1
  {
    if s == [] then None
    else if s[0] == c then Some(([], s[1..]))
    else
      match SplitAt(s[1..], c)
      case None => None
      case Some((a, b)) => Some(([s[0]] + a, b))
  }

  lemma {:induction false} SplitAtFirst(a: string, c: char, b: string)
    requires c !in a
    ensures SplitAt(a + [c] + b, c) == Some((a, b))
  {
    if a != [] {
      assert (a + [c] + b)[0] == a[0] != c;
      assert (a + [c] + b)[1..] == a[1..] + [c] + b;
      SplitAtFirst(a[1..], c, b);
      assert [a[0]] + a[1..] == a;
    }
  }

  /** Reads `"<key>": <number>` followed by `stop`; returns the number and the rest. */
  function ParseField(key: string, s: string, stop: char): Option<(Tenths, string)> {
    var head := "\"" + key + "\": ";
    if |s| >= |head| && s[..|head|] == head then
      var parts :- SplitAt(s[|head|..], stop);
      var d :- Parse(parts.0);
      Some((d, parts.1))
    else
      None
  }

  /** Reads a payload back into the four rounded values it carries. */
  function ParsePayload(p: string): Option<Readings> {
    if |p| >= 1 && p[0] == '{' then
      var f1 :- ParseField("currentCT31", p[1..], ',');
      var f2 :- ParseField("currentCT32", f1.1, ',');
      var f3 :- ParseField("temperatureK3", f2.1, ',');
      var f4 :- ParseField("temperatureIR3", f3.1, '}');
      if f4.1 == [] then Some(Readings(f1.0, f2.0, f3.0, f4.0)) else None
    else
      None
  }

  lemma ParseFieldThenStop(key: string, v: real, stop: char, rest: string)
    requires stop != '-' && stop != '.' && !IsDigit(stop)
    ensures ParseField(key, Field(key, v) + [stop] + rest, stop) == Some((Round(v), rest))
  {
    var head := "\"" + key + "\": ";
    var s := Field(key, v) + [stop] + rest;
    assert s[..|head|] == head;
    assert s[|head|..] == Format(v) + [stop] + rest;
    SplitAtFirst(Format(v), stop, rest);
    ParseRender(Round(v));
  }

  /**
   * The payload carries exactly the four snapshot values, in key order,
   * each rounded to one decimal.
   */
  lemma PayloadRoundTrip(s: Snapshot)
    ensures ParsePayload(Payload(s)) ==
            Some(Readings(Round(s.ct1), Round(s.ct2), Round(s.temperatureK), Round(s.temperatureIR)))
  {
    var a, b := Field("currentCT31", s.ct1), Field("currentCT32", s.ct2);
    var c, d := Field("temperatureK3", s.temperatureK), Field("temperatureIR3", s.temperatureIR);
    var f4 := d + ['}'] + [];
    var f3 := c + [','] + f4;
    var f2 := b + [','] + f3;
    var f1 := a + [','] + f2;
    assert Payload(s) == "{" + f1 by {
      assert Payload(s) == "{" + a + "," + b + "," + c + "," + d + "}";
    }
    assert Payload(s)[1..] == f1;
    ParseFieldThenStop("currentCT31", s.ct1, ',', f2);
    ParseFieldThenStop("currentCT32", s.ct2, ',', f3);
    ParseFieldThenStop("temperatureK3", s.temperatureK, ',', f4);
    ParseFieldThenStop("temperatureIR3", s.temperatureIR, '}', []);
  }

  /** Every value read back from a payload is within half a tenth of the snapshot's. */
  lemma PayloadAccuracy(s: Snapshot)
    ensures ParsePayload(Payload(s)).Some?
    ensures var r := ParsePayload(Payload(s)).value;
      Abs(Value(r.ct1) - s.ct1) <= 0.05 && Abs(Value(r.ct2) - s.ct2) <= 0.05 &&
      Abs(Value(r.temperatureK) - s.temperatureK) <= 0.05 &&
      Abs(Value(r.temperatureIR) - s.temperatureIR) <= 0.05
  {
    PayloadRoundTrip(s);
    RoundError(s.ct1);
    RoundError(s.ct2);
    RoundError(s.temperatureK);
    RoundError(s.temperatureIR);
  }

  /** The reference snapshot {2.34, 0.0, 45.67, 12.3} is published as 2.3, 0.0, 45.7 and 12.3. */
  lemma PayloadExample(s: Snapshot)
    requires s.ct1 == 2.34 && s.ct2 == 0.0 && s.temperatureK == 45.67 && s.temperatureIR == 12.3
    ensures ParsePayload(Payload(s)) ==
            Some(Readings(Tenths(false, 23), Tenths(false, 0), Tenths(false, 457), Tenths(false, 123)))
  {
    PayloadRoundTrip(s);
    RoundExamples();
  }
}
