/**
 The Android store-and-forward queue (newline-delimited file, oldest-first eviction) and the backoff
 arithmetic of its uploader. A line is the UTF-8 encoding of one event, one `char` per byte.
 */
module EventQueue {
  import opened Prelude

  const MAX_BYTES: nat := 512 * 1024
  const EVICT: nat := 25

  /** Everything but the first n elements. */
  function DropFirst<T>(s: seq<T>, n: nat): seq<T> {
    if n <= |s| then s[n..] else []
  }

  function TakeFirst<T>(s: seq<T>, n: int): seq<T> {
    if n <= 0 then [] else if n <= |s| then s[..n] else s
  }

  function FileLength(lines: seq<string>): nat {
    if lines == [] then 0 else FileLength(lines[..|lines| - 1]) + |lines[|lines| - 1]| + 1
  }

  function Offered(lines: seq<string>, line: string): seq<string> {
    (if FileLength(lines) > MAX_BYTES then DropFirst(lines, EVICT) else lines) + [line]
  }

  /** The bytes of the file: every line with its newline. */
  function Text(lines: seq<string>): string {
    if lines == [] then "" else Text(lines[..|lines| - 1]) + lines[|lines| - 1] + "\n"
  }

  /** An offer appends its line, first dropping the 25 oldest when the file exceeds 512 KiB. */
  lemma {:induction false} OfferedIs(lines: seq<string>, line: string)
    ensures FileLength(lines) == |Text(lines)|
    ensures |Text(lines)| <= 524288 ==> Offered(lines, line) == lines + [line]
    ensures |Text(lines)| > 524288 ==> Offered(lines, line) == (if |lines| <= 25 then [] else lines[25..]) + [line]
  {
    if lines != [] { OfferedIs(lines[..|lines| - 1], line); }
  }

  class EventQueue {
    var lines: seq<string>

    predicate Valid()
      reads this
    {
      "" !in lines
    }

    constructor ()
      ensures Valid() && lines == []
    {
      lines := [];
    }

    method Offer(line: string)
      requires Valid() && line != ""
      modifies this
      ensures Valid() && lines == Offered(old(lines), line)
    {
      var length := 0;
      for i := 0 to |lines|
        invariant length == FileLength(lines[..i])
      {
        assert lines[..i + 1][..i] == lines[..i];
        length := length + |lines[i]| + 1;
      }
      assert lines[..|lines|] == lines;
      if length > MAX_BYTES {
        Ack(EVICT);
      }
      lines := lines + [line];
    }

    method Peek(max: int) returns (batch: seq<string>)
      requires Valid()
      ensures batch == TakeFirst(lines, max)
      ensures batch <= lines && |batch| == if max <= 0 then 0 else if max <= |lines| then max else |lines|
    {
      batch := [];
      var i := 0;
      while |batch| < max && i < |lines|
        invariant 0 <= i <= |lines| && batch == lines[..i]
        invariant if max <= 0 then i == 0 else i <= max
      {
        assert lines[i] in lines;
        if lines[i] != "" {
          batch := batch + [lines[i]];
        }
        i := i + 1;
      }
      assert lines[..|lines|] == lines;
    }

    method Ack(n: nat)
      requires Valid()
      modifies this
      ensures Valid() && lines == DropFirst(old(lines), n)
      ensures lines == if n <= |old(lines)| then old(lines)[n..] else []
    {
      var all := lines;
      lines := [];
      var i := n;
      while i < |all|
        invariant if n <= |all| then n <= i <= |all| && lines == all[n..i] else lines == []
        invariant forall line :: line in lines ==> line in all
      {
        lines := lines + [all[i]];
        i := i + 1;
      }
    }
  }

  // ---------- upload backoff ----------

  /** What the server or the network answered to one POST. */
  datatype Answer = Code(status: int) | NetworkError

  predicate Success(a: Answer) { a.Code? && 200 <= a.status < 300 }

  predicate Poison(a: Answer) { a.Code? && 400 <= a.status < 500 && a.status != 429 }

  const TWO63: int := 0x8000_0000_0000_0000

  /** The value a 64-bit signed `long` keeps of x. */
  function Long(x: int): (r: int)
    ensures -TWO63 <= r < TWO63
    ensures (r - x) % (2 * TWO63) == 0
    ensures -TWO63 <= x < TWO63 ==> r == x
  {
    (x + TWO63) % (2 * TWO63) - TWO63
  }

  function NextBackoff(backoff: int, a: Answer): int {
    if Success(a) || Poison(a) then 0
    else if backoff == 0 then 5000
    else if a.Code? then Long(backoff * 2)
    else if Long(backoff * 2) < 60000 then Long(backoff * 2) else 60000
  }

  /** Milliseconds slept before the next attempt. */
  function Pause(backoff: int): int {
    if backoff <= 0 then 0 else if backoff < 60000 then backoff else 60000
  }

  class EventUploader {
    var backoffMs: int
    const queue: EventQueue

    constructor (queue: EventQueue)
      ensures this.queue == queue && backoffMs == 0
    {
      this.queue := queue;
      backoffMs := 0;
    }

    /** The part of an upload after the batch was posted. */
    method Settle(batch: seq<string>, a: Answer)
      requires queue.Valid()
      modifies this, queue
      ensures queue.Valid()
      ensures queue.lines == if Success(a) || Poison(a) then DropFirst(old(queue.lines), |batch|) else old(queue.lines)
      ensures Success(a) || Poison(a) <==>
        a.Code? && (200 <= a.status <= 299 || (400 <= a.status <= 499 && a.status != 429))
      ensures backoffMs == NextBackoff(old(backoffMs), a)
    {
      match a
      case NetworkError =>
        var doubled := Long(backoffMs * 2);
        backoffMs := if backoffMs == 0 then 5000 else if doubled < 60000 then doubled else 60000;
      case Code(code) =>
        if code >= 200 && code < 300 {
          queue.Ack(|batch|);
          backoffMs := 0;
        } else if code >= 400 && code < 500 && code != 429 {
          queue.Ack(|batch|);
          backoffMs := 0;
        } else {
          backoffMs := if backoffMs == 0 then 5000 else Long(backoffMs * 2);
        }
    }
  }

  function BackoffAfter(answers: seq<Answer>): int {
    if answers == [] then 0 else NextBackoff(BackoffAfter(answers[..|answers| - 1]), answers[|answers| - 1])
  }

  /** A status that neither acknowledges the batch nor drops it: 5xx, 429 and everything unforeseen. */
  predicate ServerError(a: Answer) { a.Code? && !Success(a) && !Poison(a) }

  predicate AllServerErrors(answers: seq<Answer>) {
    forall i :: 0 <= i < |answers| ==> ServerError(answers[i])
  }

  /** The number of consecutive server errors the history ends with. */
  function Run(answers: seq<Answer>): nat {
    if answers != [] && ServerError(answers[|answers| - 1]) then Run(answers[..|answers| - 1]) + 1 else 0
  }

  /** At no point of the history were there more than n server errors in a row. */
  predicate RunsWithin(answers: seq<Answer>, n: nat) {
    answers == [] || (RunsWithin(answers[..|answers| - 1], n) && Run(answers) <= n)
  }

  /** If the last upload failed, the next one waits at least the five seconds of a first failure. */
  predicate Delayed(answers: seq<Answer>) {
    answers != [] && !Success(answers[|answers| - 1]) && !Poison(answers[|answers| - 1]) ==>
      Pause(BackoffAfter(answers)) >= 5000
  }

  lemma BigPowers()
    ensures Pow2(46) == 0x4000_0000_0000 && Pow2(47) == 0x8000_0000_0000
    ensures Pow2(50) == 0x4_0000_0000_0000 && Pow2(51) == 0x8_0000_0000_0000
  {
    assert Pow2(5) == 32;
    PowAdd(5, 5);
    assert Pow2(10) == 1024;
    PowAdd(10, 10);
    assert Pow2(20) == 0x10_0000;
    PowAdd(20, 20);
    assert Pow2(40) == 0x100_0000_0000;
    assert Pow2(6) == 64 && Pow2(7) == 128;
    PowAdd(40, 6);
    PowAdd(40, 7);
    PowAdd(40, 10);
    PowAdd(50, 1);
  }

  /** x doubled n times. */
  function Doubled(x: int, n: nat): int
    decreases n, x
  {
    if n == 0 then x else 2 * Doubled(x, n - 1)
  }

  lemma {:induction false} DoubledIs(x: int, n: nat)
    ensures Doubled(x, n) == x * Pow2(n)
  {
    if n > 0 {
      DoubledIs(x, n - 1);
      assert x * (2 * Pow2(n - 1)) == 2 * (x * Pow2(n - 1));
    }
  }

  lemma {:induction false} DoubledMonotone(x: nat, n: nat, m: nat)
    requires n <= m
    ensures x <= Doubled(x, n) <= Doubled(x, m)
  {
    if n < m { DoubledMonotone(x, n, m - 1); } else if n > 0 { DoubledMonotone(x, n - 1, n - 1); }
  }

  /** Where doubling the two starting points of a backoff meets the range of a `long`. */
  lemma Thresholds()
    ensures 2 * Doubled(60000, 46) < TWO63 && Doubled(60000, 47) < TWO63 <= 2 * Doubled(60000, 47) < 2 * TWO63 - 60000
    ensures Doubled(5000, 50) < TWO63 <= Doubled(5000, 51) < 2 * TWO63
  {
    DoubledIs(60000, 46);
    DoubledIs(60000, 47);
    DoubledIs(5000, 50);
    DoubledIs(5000, 51);
    BigPowers();
  }

  lemma Overflows(b: int, a: Answer)
    requires TWO63 <= 2 * b < 2 * TWO63 && !Success(a) && !Poison(a)
    ensures NextBackoff(b, a) < 0
  {
    assert Long(b * 2) == b * 2 - 2 * TWO63;
  }

  /** From any positive backoff every server error doubles it, as long as the result fits a `long`. */
  lemma {:induction false} ServerErrorsDouble(before: seq<Answer>, errors: seq<Answer>)
    requires AllServerErrors(errors) && BackoffAfter(before) > 0
    requires Doubled(BackoffAfter(before), |errors|) < TWO63
    ensures BackoffAfter(before + errors) == Doubled(BackoffAfter(before), |errors|)
  {
    if errors == [] {
      assert before + errors == before;
    } else {
      var rest := errors[..|errors| - 1];
      assert (before + errors)[..|before + errors| - 1] == before + rest;
      DoubledMonotone(BackoffAfter(before), |rest|, |rest|);
      ServerErrorsDouble(before, rest);
    }
  }

  lemma {:induction false} RunOfErrors(before: seq<Answer>, errors: seq<Answer>, n: nat)
    requires AllServerErrors(errors) && RunsWithin(before, n) && Run(before) + |errors| <= n
    ensures Run(before + errors) == Run(before) + |errors| && RunsWithin(before + errors, n)
  {
    if errors == [] {
      assert before + errors == before;
    } else {
      assert (before + errors)[..|before + errors| - 1] == before + errors[..|errors| - 1];
      RunOfErrors(before, errors[..|errors| - 1], n);
    }
  }

  function Errors(n: nat): (errors: seq<Answer>)
    ensures |errors| == n && AllServerErrors(errors)
  {
    if n == 0 then [] else Errors(n - 1) + [Code(503)]
  }

  lemma NextAnswer(before: seq<Answer>, a: Answer, n: nat)
    requires RunsWithin(before, n) && (ServerError(a) ==> Run(before) < n)
    ensures BackoffAfter(before + [a]) == NextBackoff(BackoffAfter(before), a)
    ensures RunsWithin(before + [a], n) && Run(before + [a]) == if ServerError(a) then Run(before) + 1 else 0
  {
    assert (before + [a])[..|before|] == before;
  }

  // ---------- with server errors alone ----------

  /** After a reset the n-th server error in a row sets the backoff to 5000 times 2 to the n - 1, up to the 51st. */
  lemma BackoffDoubles(before: seq<Answer>, errors: seq<Answer>)
    requires BackoffAfter(before) == 0 && AllServerErrors(errors) && 1 <= |errors| <= 51
    ensures BackoffAfter(before + errors) == 5000 * Pow2(|errors| - 1)
  {
    var first := before + errors[..1];
    assert first[..|before|] == before;
    assert before + errors == first + errors[1..];
    DoubledMonotone(5000, |errors| - 1, 50);
    Thresholds();
    ServerErrorsDouble(first, errors[1..]);
    DoubledIs(5000, |errors| - 1);
  }

  /** Through 51 of them the pause is 5 s doubling to a ceiling of one minute. */
  lemma PausesGrow(before: seq<Answer>, errors: seq<Answer>)
    requires BackoffAfter(before) == 0 && AllServerErrors(errors) && 1 <= |errors| <= 51
    ensures Pause(BackoffAfter(before + errors)) == if |errors| <= 4 then 5000 * Pow2(|errors| - 1) else 60000
  {
    BackoffDoubles(before, errors);
    assert Pow2(2) == 4 && Pow2(3) == 8 && Pow2(4) == 16;
    if |errors| > 4 { PowMonotone(4, |errors| - 1); }
  }

  /** The 52nd doubles into a negative `long`: the next attempt is not delayed at all. */
  lemma PauseVanishes(before: seq<Answer>, errors: seq<Answer>)
    requires BackoffAfter(before) == 0 && AllServerErrors(errors) && |errors| == 52
    ensures BackoffAfter(before + errors) < 0 && Pause(BackoffAfter(before + errors)) == 0
  {
    BackoffDoubles(before, errors[..51]);
    DoubledIs(5000, 50);
    Thresholds();
    assert (before + errors)[..|before + errors| - 1] == before + errors[..51];
    Overflows(BackoffAfter(before + errors[..51]), errors[51]);
  }

  /** Without network errors the backoff is 0 or 5000 doubled once per server error of the current run. */
  lemma {:induction false} CodesBackoff(answers: seq<Answer>)
    requires NetworkError !in answers && RunsWithin(answers, 51)
    ensures BackoffAfter(answers) == if Run(answers) == 0 then 0 else Doubled(5000, Run(answers) - 1)
  {
    if answers != [] {
      var rest, a := answers[..|answers| - 1], answers[|answers| - 1];
      assert a in answers && a.Code?;
      CodesBackoff(rest);
      if ServerError(a) && Run(rest) > 0 {
        DoubledMonotone(5000, Run(rest) - 1, 49);
        DoubledMonotone(5000, Run(rest), 50);
        Thresholds();
      }
    }
  }

  /** Server errors alone keep every failure delayed exactly while no run of them is longer than 51. */
  lemma CodesDelayIff(n: nat)
    ensures (forall answers :: NetworkError !in answers && RunsWithin(answers, n) ==> Delayed(answers)) <==> n <= 51
  {
    if n <= 51 {
      forall answers | NetworkError !in answers && RunsWithin(answers, n) ensures Delayed(answers) {
        WiderRuns(answers, n, 51);
        CodesBackoff(answers);
        if Run(answers) > 0 { DoubledMonotone(5000, 0, Run(answers) - 1); }
        if answers != [] { assert answers[|answers| - 1] in answers; }
      }
    } else {
      var errors := Errors(52);
      assert RunsWithin([], n);
      RunOfErrors([], errors, n);
      assert [] + errors == errors;
      PauseVanishes([], errors);
      assert NetworkError !in errors && RunsWithin(errors, n) && !Delayed(errors);
    }
  }

  lemma {:induction false} WiderRuns(answers: seq<Answer>, n: nat, m: nat)
    requires RunsWithin(answers, n) && n <= m
    ensures RunsWithin(answers, m)
  {
    if answers != [] { WiderRuns(answers[..|answers| - 1], n, m); }
  }

  // ---------- with network errors among them ----------

  predicate BackoffOk(answers: seq<Answer>) {
    var b := BackoffAfter(answers);
    (b == 0 && Delayed(answers)) || 5000 <= b <= Doubled(60000, Run(answers))
  }

  lemma {:induction false} BackoffInRange(answers: seq<Answer>)
    requires RunsWithin(answers, 46)
    ensures BackoffOk(answers)
  {
    if answers != [] {
      var rest, a := answers[..|answers| - 1], answers[|answers| - 1];
      BackoffInRange(rest);
      Thresholds();
      DoubledMonotone(60000, Run(rest), 46);
      DoubledMonotone(60000, Run(answers), 46);
    }
  }

  lemma {:induction false} NetworkErrors(n: nat, k: nat) returns (answers: seq<Answer>)
    requires k <= 5
    ensures RunsWithin(answers, n) && Run(answers) == 0
    ensures BackoffAfter(answers) == if k == 0 then 0 else if k == 5 then 60000 else 5000 * Pow2(k - 1)
  {
    if k == 0 {
      answers := [];
    } else {
      answers := NetworkErrors(n, k - 1);
      NextAnswer(answers, NetworkError, n);
      answers := answers + [NetworkError];
      assert Pow2(1) == 2 && Pow2(2) == 4 && Pow2(3) == 8;
    }
  }

  /** After a reset the pause of n network errors in a row is 5 s doubling to a ceiling of one minute, for ever. */
  lemma {:induction false} NetworkPauses(before: seq<Answer>, n: nat)
    requires BackoffAfter(before) == 0 && n >= 1
    ensures BackoffAfter(before + seq(n, i => NetworkError)) == if n <= 4 then 5000 * Pow2(n - 1) else 60000
  {
    var errors := before + seq(n, i => NetworkError);
    assert errors[..|errors| - 1] == before + seq(n - 1, i => NetworkError);
    assert Pow2(1) == 2 && Pow2(2) == 4 && Pow2(3) == 8;
    if n == 1 { assert before + seq(0, i => NetworkError) == before; } else { NetworkPauses(before, n - 1); }
  }

  /** A network error after a run of 47 server errors from the one-minute ceiling turns the backoff negative. */
  lemma NetworkErrorOverflows(n: nat) returns (answers: seq<Answer>)
    requires n >= 47
    ensures RunsWithin(answers, n) && !Delayed(answers)
  {
    var before := NetworkErrors(n, 5);
    var errors := Errors(47);
    Thresholds();
    ServerErrorsDouble(before, errors);
    RunOfErrors(before, errors, n);
    NextAnswer(before + errors, NetworkError, n);
    Overflows(BackoffAfter(before + errors), NetworkError);
    answers := before + errors + [NetworkError];
    assert answers[|answers| - 1] == NetworkError;
  }

  /** Over arbitrary histories a failed upload always delays the next exactly while no run of server errors exceeds 46. */
  lemma FailuresDelayIff(n: nat)
    ensures (forall answers :: RunsWithin(answers, n) ==> Delayed(answers)) <==> n <= 46
  {
    if n <= 46 {
      forall answers | RunsWithin(answers, n) ensures Delayed(answers) {
        WiderRuns(answers, n, 46);
        BackoffInRange(answers);
      }
    } else {
      var answers := NetworkErrorOverflows(n);
    }
  }
}
