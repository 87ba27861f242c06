/**
 Terminal sizes as another window receives them: output numbers are decimal texts without leading
 zeros. Texts can be compared instead of numbers, and the check accepts exactly what is acceptable
 when the texts are read.
 */
module GeometryHandoff {
  import opened Basics
  import opened OutputGeometry

  // ---------------------------------------------------------------- numerals

  predicate IsDigit(c: char) {
    '0' <= c <= '9'
  }

  predicate AllDigits(s: string) {
    forall i | 0 <= i < |s| :: IsDigit(s[i])
  }

  predicate IsNumeral(s: string) {
    s == "0" || (s != "" && s[0] != '0' && AllDigits(s))
  }

  function Value(s: string): nat
    requires AllDigits(s)
  {
    if s == "" then 0 else 10 * Value(s[..|s| - 1]) + (s[|s| - 1] as int - '0' as int)
  }

  function Pow10(n: nat): nat {
    if n == 0 then 1 else 10 * Pow10(n - 1)
  }

  lemma {:induction false} ValueBelow(s: string)
    requires AllDigits(s)
    ensures Value(s) < Pow10(|s|)
  {
    if s != "" {
      ValueBelow(s[..|s| - 1]);
    }
  }

  lemma {:induction false} ValueAbove(s: string)
    requires AllDigits(s) && s != "" && s[0] != '0'
    ensures Value(s) >= Pow10(|s| - 1)
  {
    if |s| == 1 {
      assert s[..0] == "";
    } else {
      ValueAbove(s[..|s| - 1]);
    }
  }

  lemma {:induction false} PowersGrow(m: nat, n: nat)
    requires m <= n
    ensures Pow10(m) <= Pow10(n)
  {
    if m < n {
      PowersGrow(m, n - 1);
    }
  }

  lemma {:induction false} SameDigits(s: string, t: string)
    requires AllDigits(s) && AllDigits(t) && |s| == |t| && Value(s) == Value(t)
    ensures s == t
  {
    if s != "" {
      var n := |s| - 1;
      SameDigits(s[..n], t[..n]);
      assert s == s[..n] + [s[n]] && t == t[..n] + [t[n]];
    }
  }

  lemma ShorterIsSmaller(s: string, t: string)
    requires IsNumeral(s) && IsNumeral(t) && |s| < |t|
    ensures Value(s) < Value(t)
  {
    ValueBelow(s);
    ValueAbove(t);
    PowersGrow(|s|, |t| - 1);
  }

  /** Two texts are the same exactly when they are the same number. */
  lemma SameTextExactly(s: string, t: string)
    requires IsNumeral(s) && IsNumeral(t)
    ensures s == t <==> Value(s) == Value(t)
  {
    if |s| < |t| {
      ShorterIsSmaller(s, t);
    } else if |t| < |s| {
      ShorterIsSmaller(t, s);
    } else if Value(s) == Value(t) {
      SameDigits(s, t);
    }
  }

  lemma TwentyDigits()
    ensures Pow10(20) > MAX_SEQ
  {
    assert Pow10(2) == 100;
    assert Pow10(4) == 10000;
    assert Pow10(6) == 1000000;
    assert Pow10(8) == 100000000;
    assert Pow10(10) == 10000000000;
    assert Pow10(12) == 1000000000000;
    assert Pow10(14) == 100000000000000;
    assert Pow10(16) == 10000000000000000;
    assert Pow10(18) == 1000000000000000000;
  }

  /** The length check refuses nothing that the range of numbers allows. */
  lemma LongTextIsOutOfRange(s: string)
    requires IsNumeral(s) && |s| > 20
    ensures Value(s) > MAX_SEQ
  {
    ValueAbove(s);
    PowersGrow(20, |s| - 1);
    TwentyDigits();
  }

  // ---------------------------------------------------------------- received markers

  datatype RawMarker = RawMarker(afterOutputSeq: string, rows: int, cols: int)

  predicate Readable(raw: RawMarker) {
    IsNumeral(raw.afterOutputSeq) && 0 <= raw.rows && 0 <= raw.cols
  }

  function Read(raw: RawMarker): Marker
    requires Readable(raw)
  {
    Marker(Value(raw.afterOutputSeq), raw.rows, raw.cols)
  }

  predicate AllReadable(raw: seq<RawMarker>) {
    forall i | 0 <= i < |raw| :: Readable(raw[i])
  }

  function ReadAll(raw: seq<RawMarker>): seq<Marker>
    requires AllReadable(raw)
  {
    seq(|raw|, i requires 0 <= i < |raw| => Read(raw[i]))
  }

  /** Recording with texts is recording with numbers. */
  function RecordText(markers: seq<RawMarker>, r: RawMarker): seq<RawMarker> {
    if markers == [] then [r]
    else
      var n := |markers| - 1;
      if markers[n].afterOutputSeq == r.afterOutputSeq then markers[n := r]
      else if markers[n].rows != r.rows || markers[n].cols != r.cols then markers + [r]
      else markers
  }

  lemma RecordingReads(markers: seq<RawMarker>, r: RawMarker)
    requires AllReadable(markers) && Readable(r)
    ensures AllReadable(RecordText(markers, r)) && ReadAll(RecordText(markers, r)) == Record(ReadAll(markers), Read(r))
  {
    if markers != [] {
      SameTextExactly(markers[|markers| - 1].afterOutputSeq, r.afterOutputSeq);
    }
  }

  /** One marker passes: its text, its size and its place after the one before. */
  predicate Passes(raw: RawMarker, previous: int) {
    Readable(raw) && SizeInRange(Read(raw)) && previous < Read(raw).afterOutputSeq <= MAX_SEQ
  }

  method CheckMarker(raw: RawMarker, previous: int) returns (ok: bool)
    ensures ok == Passes(raw, previous)
  {
    if |raw.afterOutputSeq| > 20 {
      if IsNumeral(raw.afterOutputSeq) {
        LongTextIsOutOfRange(raw.afterOutputSeq);
      }
      return false;
    }
    if !IsNumeral(raw.afterOutputSeq) || raw.rows < 1 || raw.rows > 1000 || raw.cols < 1 || raw.cols > 1000 {
      return false;
    }
    var sequence := Value(raw.afterOutputSeq);
    return !(sequence <= previous || sequence > MAX_SEQ);
  }

  /** Everything that is asked of markers but their number and the first one. */
  predicate Fits(markers: seq<Marker>) {
    && StrictlyIncreasing(markers)
    && forall i | 0 <= i < |markers| :: SizeInRange(markers[i]) && markers[i].afterOutputSeq <= MAX_SEQ
  }

  function Last(markers: seq<Marker>): int {
    if markers == [] then -1 else markers[|markers| - 1].afterOutputSeq
  }

  lemma FitsMore(markers: seq<Marker>, m: Marker)
    requires Fits(markers)
    ensures Fits(markers + [m]) <==> SizeInRange(m) && Last(markers) < m.afterOutputSeq <= MAX_SEQ
  {
    var more := markers + [m];
    if Fits(more) {
      assert more[|markers|] == m;
      assert markers != [] ==> more[|markers| - 1] == markers[|markers| - 1];
    }
  }

  lemma FitsBefore(markers: seq<Marker>, n: nat)
    requires Fits(markers) && n <= |markers|
    ensures Fits(markers[..n])
  {
  }

  lemma ReadThen(raw: seq<RawMarker>, i: nat)
    requires i < |raw| && AllReadable(raw[..i + 1])
    ensures AllReadable(raw[..i]) && Readable(raw[i]) && ReadAll(raw[..i + 1]) == ReadAll(raw[..i]) + [Read(raw[i])]
  {
    assert raw[..i + 1][i] == raw[i];
    assert forall k | 0 <= k < i :: raw[..i][k] == raw[..i + 1][k];
  }

  ghost predicate FitsUpTo(raw: seq<RawMarker>, n: nat)
    requires n <= |raw|
  {
    AllReadable(raw[..n]) && Fits(ReadAll(raw[..n]))
  }

  lemma PassesExactly(raw: seq<RawMarker>, i: nat)
    requires i < |raw| && FitsUpTo(raw, i)
    ensures Passes(raw[i], Last(ReadAll(raw[..i]))) <==> FitsUpTo(raw, i + 1)
  {
    assert forall k | 0 <= k < i :: raw[..i + 1][k] == raw[..i][k];
    assert raw[..i + 1][i] == raw[i];
    if Readable(raw[i]) {
      ReadThen(raw, i);
      FitsMore(ReadAll(raw[..i]), Read(raw[i]));
    }
  }

  lemma FitsNeedsAll(raw: seq<RawMarker>, n: nat)
    requires n <= |raw| && FitsUpTo(raw, |raw|)
    ensures FitsUpTo(raw, n)
  {
    assert raw[..|raw|] == raw;
    FitsBefore(ReadAll(raw), n);
    assert AllReadable(raw[..n]) && ReadAll(raw[..n]) == ReadAll(raw)[..n];
  }

  lemma AcceptableExactly(raw: seq<RawMarker>)
    requires 0 < |raw| <= 4096
    ensures AllReadable(raw) && Acceptable(ReadAll(raw)) <==> FitsUpTo(raw, |raw|) && raw[0].afterOutputSeq == "0"
  {
    assert raw[..|raw|] == raw;
    if AllReadable(raw) {
      SameTextExactly(raw[0].afterOutputSeq, "0");
      assert ReadAll(raw)[0] == Read(raw[0]);
    }
  }

  /** The check another window makes before it takes the markers. */
  method ParseOutputGeometry(raw: seq<RawMarker>) returns (r: Option<seq<RawMarker>>)
    ensures r == if AllReadable(raw) && Acceptable(ReadAll(raw)) then Some(raw) else None
  {
    if raw == [] || |raw| > 4096 {
      return None;
    }
    AcceptableExactly(raw);
    var markers: seq<RawMarker> := [];
    var previous: int := -1;
    for i := 0 to |raw|
      invariant markers == raw[..i] && FitsUpTo(raw, i) && previous == Last(ReadAll(raw[..i]))
    {
      var ok := CheckMarker(raw[i], previous);
      PassesExactly(raw, i);
      if !ok {
        if FitsUpTo(raw, |raw|) {
          FitsNeedsAll(raw, i + 1);
        }
        return None;
      }
      ReadThen(raw, i);
      previous := Value(raw[i].afterOutputSeq);
      markers := markers + [raw[i]];
    }
    assert raw[..|raw|] == raw;
    r := if markers[0].afterOutputSeq == "0" then Some(markers) else None;
  }
}
