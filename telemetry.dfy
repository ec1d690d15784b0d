/**
 * One pass of the telemetry listener's receive loop (`ListenForData`):
 * check the marker prefix, strip it, split the rest into three `name=value`
 * tokens, parse the values and store them in the next of four marker slots.
 * Everything here is a value; the class in module Drone runs it on fields.
 */
module Telemetry {
  import opened Wrappers
  import opened Vectors
  import opened Text
  import opened Numbers

  /** The marker slots `(x1,y1,z1)` .. `(x4,y4,z4)`; marker `k` is at index `k - 1`. */
  type Slots = s: seq<Vec3> | |s| == 4 witness [Zero, Zero, Zero, Zero]

  /** Why a datagram was dropped. */
  datatype DecodeError =
    | FramingError                  // not prefixed by "Marker Hand{i+1}: "
    | FieldCountError(count: nat)   // the split gave `count` tokens, not 3
    | FieldFormatError(field: nat)  // token `field` has no '=' (the source's IndexOutOfRangeException)
    | ParseError(field: nat)        // the value of token `field` is not a number

  /**
   * The outcome of decoding one payload, together with the values that the
   * `out viconX`, `out viconY`, `out viconZ` arguments of `float.TryParse`
   * hold afterwards (a failed parse stores 0 in its argument).
   */
  datatype Attempt = Attempt(result: Result<Vec3, DecodeError>, vicon: Vec3)

  /** `$"Marker Hand{i + 1}: "` */
  function MarkerPrefix(counter: nat): (p: string)
    ensures |p| >= 1 && p[0] == 'M'
  {
    "Marker Hand" + NatToDigits(counter + 1) + ": "
  }

  /** `token.Split('=')[1]`: the piece between the first and the second '='; None where indexing throws. */
  function FieldValue(token: string): Option<string> {
    var pieces := Split(token, '=');
    if |pieces| >= 2 then Some(pieces[1]) else None
  }

  /** `receivedData.Replace(markerPrefix, "").Trim().Split(' ')` */
  function Tokens(payload: string, counter: nat): seq<string> {
    Split(Trim(RemoveAll(payload, MarkerPrefix(counter))), ' ')
  }

  /** What `float.TryParse` leaves in its `out` argument. */
  function OrZero(r: Option<real>): real {
    if r.Some? then r.value else 0.0
  }

  /**
   * The three `float.TryParse(parts[k].Split('=')[1], out ...)` calls joined
   * by `&&`: evaluation stops at the first token without '=' (an exception)
   * or the first value that does not parse.
   */
  function ParseFields(parts: seq<string>, vicon: Vec3): Attempt
    requires |parts| == 3
  {
    match FieldValue(parts[0])
    case None => Attempt(Err(FieldFormatError(0)), vicon)
    case Some(s0) =>
      var p0 := ParseNumber(s0);
      var v0 := vicon.(x := OrZero(p0));
      if p0.None? then Attempt(Err(ParseError(0)), v0) else
      match FieldValue(parts[1])
      case None => Attempt(Err(FieldFormatError(1)), v0)
      case Some(s1) =>
        var p1 := ParseNumber(s1);
        var v1 := v0.(y := OrZero(p1));
        if p1.None? then Attempt(Err(ParseError(1)), v1) else
        match FieldValue(parts[2])
        case None => Attempt(Err(FieldFormatError(2)), v1)
        case Some(s2) =>
          var p2 := ParseNumber(s2);
          var v2 := v1.(z := OrZero(p2));
          if p2.None? then Attempt(Err(ParseError(2)), v2) else Attempt(Ok(v2), v2)
  }

  /** Decoding of one payload while the listener expects marker `counter + 1`. */
  function Decode(payload: string, counter: nat, vicon: Vec3): Attempt {
    if !StartsWith(payload, MarkerPrefix(counter)) then Attempt(Err(FramingError), vicon)
    else
      var parts := Tokens(payload, counter);
      if |parts| != 3 then Attempt(Err(FieldCountError(|parts|)), vicon)
      else ParseFields(parts, vicon)
  }

  // ---------------------------------------------------------------------------
  // The protocol stated directly: which payloads are accepted, and with what value.

  /** Token `k` has a '=' and the text after it parses as a number. */
  predicate FieldOk(parts: seq<string>, k: nat)
    requires k < |parts|
  {
    FieldValue(parts[k]).Some? && ParseNumber(FieldValue(parts[k]).value).Some?
  }

  function FieldNumber(parts: seq<string>, k: nat): real
    requires k < |parts| && FieldOk(parts, k)
  {
    ParseNumber(FieldValue(parts[k]).value).value
  }

  /** A payload the listener accepts while expecting marker `counter + 1`. */
  predicate WellFormed(payload: string, counter: nat) {
    StartsWith(payload, MarkerPrefix(counter)) &&
    var parts := Tokens(payload, counter);
    |parts| == 3 && forall k :: 0 <= k < 3 ==> FieldOk(parts, k)
  }

  /** The position a well-formed payload reports: tokens 0, 1, 2 give x, y, z. */
  function Reading(payload: string, counter: nat): Vec3
    requires WellFormed(payload, counter)
  {
    var parts := Tokens(payload, counter);
    Vec3(FieldNumber(parts, 0), FieldNumber(parts, 1), FieldNumber(parts, 2))
  }

  /** Decoding succeeds exactly on well-formed payloads, and then yields (and leaves in viconX/Y/Z) their reading. */
  lemma DecodeCorrect(payload: string, counter: nat, vicon: Vec3)
    ensures Decode(payload, counter, vicon).result.Ok? <==> WellFormed(payload, counter)
    ensures WellFormed(payload, counter) ==>
              var r := Reading(payload, counter);
              Decode(payload, counter, vicon) == Attempt(Ok(r), r)
  {
    if StartsWith(payload, MarkerPrefix(counter)) && |Tokens(payload, counter)| == 3 {
      var parts := Tokens(payload, counter);
      if FieldOk(parts, 0) && FieldOk(parts, 1) && FieldOk(parts, 2) {
        assert WellFormed(payload, counter);
      } else {
        assert !WellFormed(payload, counter);
      }
    }
  }

  /** A payload without the expected prefix is a framing error and leaves viconX/Y/Z alone. */
  lemma DecodeFraming(payload: string, counter: nat, vicon: Vec3)
    requires !StartsWith(payload, MarkerPrefix(counter))
    ensures Decode(payload, counter, vicon) == Attempt(Err(FramingError), vicon)
  {
  }

  /** A prefixed payload that does not split into three tokens is a field-count error and leaves viconX/Y/Z alone. */
  lemma DecodeFieldCount(payload: string, counter: nat, vicon: Vec3)
    requires StartsWith(payload, MarkerPrefix(counter)) && |Tokens(payload, counter)| != 3
    ensures Decode(payload, counter, vicon) == Attempt(Err(FieldCountError(|Tokens(payload, counter)|)), vicon)
  {
  }

  /** Token `k` is reported as lacking '=' exactly when it does and every earlier token parsed. */
  lemma ParseFieldsFormatError(parts: seq<string>, vicon: Vec3, k: nat)
    requires |parts| == 3
    ensures ParseFields(parts, vicon).result == Err(FieldFormatError(k)) <==>
              k < 3 && (forall j :: 0 <= j < k ==> FieldOk(parts, j)) && FieldValue(parts[k]).None?
  {
    if k == 1 || k == 2 {
      if !FieldOk(parts, 0) {
        assert !(forall j :: 0 <= j < k ==> FieldOk(parts, j));
      } else if k == 2 && !FieldOk(parts, 1) {
        assert !(forall j :: 0 <= j < k ==> FieldOk(parts, j));
      }
    }
  }

  /** The value of token `k` is reported unparsable exactly when it is and every earlier token parsed. */
  lemma ParseFieldsParseError(parts: seq<string>, vicon: Vec3, k: nat)
    requires |parts| == 3
    ensures ParseFields(parts, vicon).result == Err(ParseError(k)) <==>
              k < 3 && (forall j :: 0 <= j < k ==> FieldOk(parts, j)) &&
              FieldValue(parts[k]).Some? && ParseNumber(FieldValue(parts[k]).value).None?
  {
    if k == 1 || k == 2 {
      if !FieldOk(parts, 0) {
        assert !(forall j :: 0 <= j < k ==> FieldOk(parts, j));
      } else if k == 2 && !FieldOk(parts, 1) {
        assert !(forall j :: 0 <= j < k ==> FieldOk(parts, j));
      }
    }
  }

  /** A payload meant for another marker is rejected: the prefix does carry the marker number. */
  lemma PrefixNamesMarker(expected: nat, sent: nat, rest: string, vicon: Vec3)
    requires expected < 4 && sent < 4 && expected != sent
    ensures Decode(MarkerPrefix(sent) + rest, expected, vicon) == Attempt(Err(FramingError), vicon)
  {
    SmallNatToDigits(sent + 1);
    SmallNatToDigits(expected + 1);
    var payload := MarkerPrefix(sent) + rest;
    var pe := MarkerPrefix(expected);
    assert payload[11] == Digit(sent + 1);
    assert pe[11] == Digit(expected + 1);
    assert DigitValue(Digit(sent + 1)) != DigitValue(Digit(expected + 1));
    assert |pe| == 14 <= |payload|;
    assert payload[..|pe|][11] == payload[11];
    assert payload[..|pe|] != pe;
  }

  // ---------------------------------------------------------------------------
  // The listener's state and its receive loop.

  /** One turn of the receive loop: `udpClient.Receive` either delivers a text or throws. */
  datatype Datagram = Received(text: string) | ReceiveFailed

  /** The loop counter `i`, the marker slots, `viconX/Y/Z` and `receivedData`. */
  datatype ListenerState = ListenerState(counter: nat, slots: Slots, vicon: Vec3, received: string)

  /**
   * The effect of a decoding attempt on payload `payload`: `receivedData` and
   * `viconX/Y/Z` are written; on success `i` is incremented, marker `i` is
   * stored (`switch (i)`), and after marker 4 `i` is reset to 0.
   */
  function Commit(s: ListenerState, payload: string, a: Attempt): ListenerState {
    var s1 := s.(received := payload, vicon := a.vicon);
    match a.result
    case Err(_) => s1
    case Ok(v) =>
      var i := s.counter + 1;
      if i <= 4 then s1.(slots := s.slots[i - 1 := v], counter := if i == 4 then 0 else i)
      else s1.(counter := i)
  }

  /** Commit writes `receivedData` itself, so what it held before does not matter. */
  lemma CommitOverwritesReceived(s: ListenerState, payload: string, a: Attempt)
    ensures Commit(s.(received := payload), payload, a) == Commit(s, payload, a)
  {
  }

  /** One iteration of the `while (true)` loop of `ListenForData`. */
  function Step(s: ListenerState, d: Datagram): ListenerState {
    match d
    case ReceiveFailed => s
    case Received(payload) => Commit(s, payload, Decode(payload, s.counter, s.vicon))
  }

  /** A received payload is written to `receivedData`, then decoded and committed. */
  lemma StepReceived(s: ListenerState, payload: string)
    ensures var a := Decode(payload, s.counter, s.vicon);
            Step(s, Received(payload)) == Commit(s.(received := payload), payload, a)
  {
    CommitOverwritesReceived(s, payload, Decode(payload, s.counter, s.vicon));
  }

  /** The state after `step` has handled `ds` in order, starting from `s`. */
  function Fold(step: (ListenerState, Datagram) -> ListenerState, s: ListenerState, ds: seq<Datagram>): ListenerState
    decreases |ds|
  {
    if ds == [] then s else step(Fold(step, s, ds[..|ds| - 1]), ds[|ds| - 1])
  }

  /** How many of `ds` satisfied `accepts` in the state `step` had reached when each arrived. */
  function Count(step: (ListenerState, Datagram) -> ListenerState, accepts: (ListenerState, Datagram) -> bool,
                 s: ListenerState, ds: seq<Datagram>): nat
    decreases |ds|
  {
    if ds == [] then 0
    else Count(step, accepts, s, ds[..|ds| - 1]) + (if accepts(Fold(step, s, ds[..|ds| - 1]), ds[|ds| - 1]) then 1 else 0)
  }

  /** The state after the loop has handled `ds` in order. */
  function Run(s: ListenerState, ds: seq<Datagram>): ListenerState {
    Fold(Step, s, ds)
  }

  /** The datagram is a payload the listener accepts in state `s`. */
  predicate Accepts(s: ListenerState, d: Datagram) {
    d.Received? && WellFormed(d.text, s.counter)
  }

  /** How many of `ds` the loop accepted. */
  function Successes(s: ListenerState, ds: seq<Datagram>): nat {
    Count(Step, Accepts, s, ds)
  }

  /** An accepted datagram writes marker `counter + 1`, only that one, and moves the counter round by one. */
  lemma StepAccepted(s: ListenerState, d: Datagram)
    requires s.counter < 4 && Accepts(s, d)
    ensures var t := Step(s, d);
            var r := Reading(d.text, s.counter);
            t.counter == (s.counter + 1) % 4 &&
            t.slots[s.counter] == r &&
            (forall j :: 0 <= j < 4 && j != s.counter ==> t.slots[j] == s.slots[j]) &&
            t.vicon == r && t.received == d.text
  {
    DecodeCorrect(d.text, s.counter, s.vicon);
  }

  /** A dropped datagram leaves the counter and every marker as they were. */
  lemma StepRejected(s: ListenerState, d: Datagram)
    requires !Accepts(s, d)
    ensures Step(s, d).counter == s.counter && Step(s, d).slots == s.slots
  {
    if d.Received? {
      DecodeCorrect(d.text, s.counter, s.vicon);
    }
  }

  lemma ModSucc(a: nat)
    ensures (a % 4 + 1) % 4 == (a + 1) % 4
  {
  }

  /**
   * Marker identity comes from the payload: a payload prefixed for marker
   * `k + 1` is only ever accepted while the listener expects that marker, and
   * then lands in marker `k + 1`. After a lost datagram the listener skips
   * payloads until the one it expects arrives.
   */
  lemma AcceptedSlotMatchesName(s: ListenerState, k: nat, rest: string)
    requires s.counter < 4 && k < 4
    requires Accepts(s, Received(MarkerPrefix(k) + rest))
    ensures s.counter == k
    ensures Step(s, Received(MarkerPrefix(k) + rest)).slots[k] == Reading(MarkerPrefix(k) + rest, k)
  {
    var payload := MarkerPrefix(k) + rest;
    DecodeCorrect(payload, s.counter, s.vicon);
    if s.counter != k {
      PrefixNamesMarker(s.counter, k, rest, s.vicon);
    }
    StepAccepted(s, Received(payload));
  }

  /** One loop iteration moves the counter round by one exactly when it accepts the datagram. */
  lemma StepCounter(m: ListenerState, d: Datagram)
    requires m.counter < 4
    ensures Step(m, d).counter == if Accepts(m, d) then (m.counter + 1) % 4 else m.counter
  {
    if Accepts(m, d) {
      StepAccepted(m, d);
    } else {
      StepRejected(m, d);
    }
  }

  /** `step` moves a counter in 0..3 round by one exactly on the datagrams `accepts` holds for, and otherwise keeps it. */
  ghost predicate CountsAcceptances(step: (ListenerState, Datagram) -> ListenerState, accepts: (ListenerState, Datagram) -> bool) {
    forall m: ListenerState, d: Datagram ::
      m.counter < 4 ==> step(m, d).counter == if accepts(m, d) then (m.counter + 1) % 4 else m.counter
  }

  /** The counting argument for any such step function: after `ds` the counter is its start plus the acceptances, mod 4. */
  lemma {:induction false} FoldCounter(step: (ListenerState, Datagram) -> ListenerState,
                                       accepts: (ListenerState, Datagram) -> bool,
                                       s: ListenerState, ds: seq<Datagram>)
    requires s.counter < 4 && CountsAcceptances(step, accepts)
    ensures Fold(step, s, ds).counter == (s.counter + Count(step, accepts, s, ds)) % 4
    decreases |ds|
  {
    if ds != [] {
      var front := ds[..|ds| - 1];
      FoldCounter(step, accepts, s, front);
      ModSucc(s.counter + Count(step, accepts, s, front));
    }
  }

  /** The loop body is such a step function, with Accepts as its test. */
  lemma StepCountsAcceptances()
    ensures CountsAcceptances(Step, Accepts)
  {
    forall m: ListenerState, d: Datagram | m.counter < 4
      ensures Step(m, d).counter == if Accepts(m, d) then (m.counter + 1) % 4 else m.counter
    {
      StepCounter(m, d);
    }
  }

  /** FoldCounter for the loop body. */
  lemma StepFoldCounter(s: ListenerState, ds: seq<Datagram>)
    requires s.counter < 4
    ensures Fold(Step, s, ds).counter == (s.counter + Count(Step, Accepts, s, ds)) % 4
  {
    StepCountsAcceptances();
    FoldCounter(Step, Accepts, s, ds);
  }

  /** Between datagrams the counter stays in 0..3 and equals the number of acceptances so far, modulo 4. */
  lemma RunCounter(s: ListenerState, ds: seq<Datagram>)
    requires s.counter < 4
    ensures Run(s, ds).counter == (s.counter + Successes(s, ds)) % 4
  {
    StepFoldCounter(s, ds);
    assert s.counter + Successes(s, ds) == s.counter + Count(Step, Accepts, s, ds);
  }

  /** Starting from counter 0, the N-th accepted datagram is stored in marker `((N - 1) mod 4) + 1`. */
  lemma NthAcceptanceSlot(s: ListenerState, ds: seq<Datagram>)
    requires s.counter == 0 && ds != []
    requires Accepts(Run(s, ds[..|ds| - 1]), ds[|ds| - 1])
    ensures var n := Successes(s, ds);
            n >= 1 &&
            Run(s, ds).slots[(n - 1) % 4] == Reading(ds[|ds| - 1].text, Run(s, ds[..|ds| - 1]).counter)
  {
    var front, d := ds[..|ds| - 1], ds[|ds| - 1];
    var m, n0 := Run(s, front), Successes(s, front);
    RunCounter(s, front);
    assert Run(s, ds) == Step(m, d);
    assert Successes(s, ds) == n0 + 1;
    assert Successes(s, ds) - 1 == n0;
    assert m.counter == n0 % 4;
    StepAccepted(m, d);
  }

  // ---------------------------------------------------------------------------
  // Round trip with the sender's text format "Marker Hand{k}: X=<x> Y=<y> Z=<z>".

  /** The payload the sender writes for marker `counter + 1` at position (x, y, z). */
  function Encode(counter: nat, x: Decimal, y: Decimal, z: Decimal): string {
    MarkerPrefix(counter) + Join(["X=" + FormatDecimal(x), "Y=" + FormatDecimal(y), "Z=" + FormatDecimal(z)], ' ')
  }

  lemma NumberTextExcludes(f: string)
    requires NumberText(f)
    ensures ' ' !in f && '=' !in f && 'M' !in f
  {
    forall k | 0 <= k < |f| ensures f[k] != ' ' && f[k] != '=' && f[k] != 'M' {
      assert IsDigit(f[k]) || f[k] == '-' || f[k] == '.';
    }
  }

  /** A `name=number` token: no space or 'M' in it, and its value is the number text. */
  lemma FieldToken(name: char, f: string)
    requires name != '=' && name != ' ' && name != 'M' && NumberText(f)
    ensures ' ' !in [name, '='] + f && 'M' !in [name, '='] + f
    ensures FieldValue([name, '='] + f) == Some(f)
  {
    NumberTextExcludes(f);
    SplitJoin([[name], f], '=');
    assert Join([[name], f], '=') == [name, '='] + f;
  }

  /** The text after the sender's prefix: three tokens joined by single spaces, starting with 'X', with no 'M'. */
  lemma BodyShape(fx: string, fy: string, fz: string)
    requires NumberText(fx) && NumberText(fy) && NumberText(fz) && fz != [] && IsDigit(fz[|fz| - 1])
    ensures var body := Join(["X=" + fx, "Y=" + fy, "Z=" + fz], ' ');
            body != [] && body[0] == 'X' && body[|body| - 1] == fz[|fz| - 1] && 'M' !in body
  {
    var tx, ty, tz := "X=" + fx, "Y=" + fy, "Z=" + fz;
    FieldToken('X', fx);
    FieldToken('Y', fy);
    FieldToken('Z', fz);
    assert [tx, ty, tz][1..] == [ty, tz] && [ty, tz][1..] == [tz];
    assert Join([ty, tz], ' ') == ty + [' '] + tz;
    var body := Join([tx, ty, tz], ' ');
    assert body == tx + [' '] + (ty + [' '] + tz);
    assert 'M' !in body by {
      forall k | 0 <= k < |body| ensures body[k] != 'M' {
        if k < |tx| {
          assert body[k] == tx[k] && tx[k] in tx;
        } else if k == |tx| {
        } else if k < |tx| + 1 + |ty| {
          assert body[k] == ty[k - |tx| - 1] && ty[k - |tx| - 1] in ty;
        } else if k == |tx| + 1 + |ty| {
        } else {
          assert body[k] == tz[k - |tx| - 2 - |ty|] && tz[k - |tx| - 2 - |ty|] in tz;
        }
      }
    }
  }

  /** Stripping an 'M'-led prefix from a payload and trimming it leaves a body that has no 'M' and no white space at either end. */
  lemma StripPrefix(prefix: string, body: string)
    requires prefix != [] && prefix[0] == 'M' && 'M' !in body
    requires body != [] && !IsWhiteSpace(body[0]) && !IsWhiteSpace(body[|body| - 1])
    ensures StartsWith(prefix + body, prefix) && Trim(RemoveAll(prefix + body, prefix)) == body
  {
    StartsWithConcat(prefix, body);
    RemoveAllLeading(prefix, body);
    RemoveAllAbsent(body, prefix);
    assert RemoveAll(prefix + body, prefix) == body;
    TrimUnchanged(body);
  }

  /** The three tokens the sender joins with spaces split apart again. */
  lemma SplitTokens(fx: string, fy: string, fz: string)
    requires NumberText(fx) && NumberText(fy) && NumberText(fz)
    ensures var tokens := ["X=" + fx, "Y=" + fy, "Z=" + fz];
            Split(Join(tokens, ' '), ' ') == tokens
  {
    FieldToken('X', fx);
    FieldToken('Y', fy);
    FieldToken('Z', fz);
    SplitJoin(["X=" + fx, "Y=" + fy, "Z=" + fz], ' ');
  }

  /** The sender's payload splits, after the prefix is stripped, into its three tokens. */
  lemma EncodeTokens(counter: nat, fx: string, fy: string, fz: string)
    requires NumberText(fx) && NumberText(fy) && NumberText(fz) && fz != [] && IsDigit(fz[|fz| - 1])
    ensures var payload := MarkerPrefix(counter) + Join(["X=" + fx, "Y=" + fy, "Z=" + fz], ' ');
            StartsWith(payload, MarkerPrefix(counter)) &&
            Tokens(payload, counter) == ["X=" + fx, "Y=" + fy, "Z=" + fz]
  {
    var body := Join(["X=" + fx, "Y=" + fy, "Z=" + fz], ' ');
    BodyShape(fx, fy, fz);
    assert !IsWhiteSpace(body[0]) && !IsWhiteSpace(body[|body| - 1]);
    StripPrefix(MarkerPrefix(counter), body);
    SplitTokens(fx, fy, fz);
  }

  /** The three tokens of the sender's payload parse to the three numbers, in order. */
  lemma ParseFieldsEncoded(x: Decimal, y: Decimal, z: Decimal, vicon: Vec3)
    ensures var v := Vec3(x.Value(), y.Value(), z.Value());
            ParseFields(["X=" + FormatDecimal(x), "Y=" + FormatDecimal(y), "Z=" + FormatDecimal(z)], vicon) == Attempt(Ok(v), v)
  {
    FieldToken('X', FormatDecimal(x));
    FieldToken('Y', FormatDecimal(y));
    FieldToken('Z', FormatDecimal(z));
    ParseFormat(x);
    ParseFormat(y);
    ParseFormat(z);
  }

  /** Decoding what the sender writes gives back the three numbers, in order. */
  lemma DecodeEncode(counter: nat, x: Decimal, y: Decimal, z: Decimal, vicon: Vec3)
    ensures var v := Vec3(x.Value(), y.Value(), z.Value());
            Decode(Encode(counter, x, y, z), counter, vicon) == Attempt(Ok(v), v)
  {
    EncodeTokens(counter, FormatDecimal(x), FormatDecimal(y), FormatDecimal(z));
    ParseFieldsEncoded(x, y, z, vicon);
  }
}
