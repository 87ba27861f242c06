/**
 Terminal output is replayed with the size the terminal had when it was produced. The sizes are kept
 as markers, one per change; each marker says after which output number it holds.
 */
module OutputGeometry {
  import opened Basics

  datatype Marker = Marker(afterOutputSeq: nat, rows: nat, cols: nat)

  predicate SameSize(a: Option<Marker>, b: Option<Marker>) {
    if a.None? || b.None? then a.None? && b.None? else a.value.rows == b.value.rows && a.value.cols == b.value.cols
  }

  // ---------------------------------------------------------------- recording

  function Record(markers: seq<Marker>, r: Marker): seq<Marker> {
    if markers == [] then [r]
    else
      var n := |markers| - 1;
      if markers[n].afterOutputSeq == r.afterOutputSeq then markers[n := r]
      else if markers[n].rows != r.rows || markers[n].cols != r.cols then markers + [r]
      else markers
  }

  /** The markers after any number of records. */
  function Compress(log: seq<Marker>): seq<Marker> {
    if log == [] then [] else Record(Compress(log[..|log| - 1]), log[|log| - 1])
  }

  predicate NonDecreasing(log: seq<Marker>) {
    forall i, j | 0 <= i < j < |log| :: log[i].afterOutputSeq <= log[j].afterOutputSeq
  }

  predicate StrictlyIncreasing(markers: seq<Marker>) {
    forall i, j | 0 <= i < j < |markers| :: markers[i].afterOutputSeq < markers[j].afterOutputSeq
  }

  // ---------------------------------------------------------------- looking up

  /** The lookup of the source stops at the first marker that is not before the output. */
  function Lookup(markers: seq<Marker>, output: nat): Option<Marker> {
    if markers == [] || markers[0].afterOutputSeq >= output then None
    else
      var later := Lookup(markers[1..], output);
      if later.Some? then later else Some(markers[0])
  }

  /** The reference: the last of all records before the output. */
  function LastBefore(log: seq<Marker>, output: nat): Option<Marker> {
    if log == [] then None
    else if log[|log| - 1].afterOutputSeq < output then Some(log[|log| - 1])
    else LastBefore(log[..|log| - 1], output)
  }

  method GeometryForOutput(markers: seq<Marker>, output: nat) returns (result: Option<Marker>)
    ensures result == Lookup(markers, output)
  {
    result := None;
    var i := 0;
    while i < |markers| && markers[i].afterOutputSeq < output
      invariant 0 <= i <= |markers|
      invariant var later := Lookup(markers[i..], output);
                Lookup(markers, output) == if later.Some? then later else result
    {
      assert markers[i..][0] == markers[i] && markers[i..][1..] == markers[i + 1..];
      result := Some(markers[i]);
      i := i + 1;
    }
  }

  lemma {:induction false} LookupIsLast(markers: seq<Marker>, output: nat)
    requires StrictlyIncreasing(markers)
    ensures Lookup(markers, output) == LastBefore(markers, output)
  {
    if markers != [] {
      var n := |markers| - 1;
      var init := markers[..n];
      LookupIsLast(init, output);
      LookupThen(init, markers[n], output);
      assert init + [markers[n]] == markers;
      if markers[n].afterOutputSeq < output {
        AllBefore(init, output);
      }
    }
  }

  predicate Before(markers: seq<Marker>, output: nat) {
    forall i | 0 <= i < |markers| :: markers[i].afterOutputSeq < output
  }

  lemma {:induction false} LookupThen(markers: seq<Marker>, last: Marker, output: nat)
    ensures Lookup(markers + [last], output)
            == if Before(markers, output) && last.afterOutputSeq < output then Some(last) else Lookup(markers, output)
  {
    if markers != [] {
      assert (markers + [last])[1..] == markers[1..] + [last];
      LookupThen(markers[1..], last, output);
      assert Before(markers, output) <==> markers[0].afterOutputSeq < output && Before(markers[1..], output) by {
        if markers[0].afterOutputSeq < output && Before(markers[1..], output) {
          forall i | 0 <= i < |markers|
            ensures markers[i].afterOutputSeq < output
          {
            assert i > 0 ==> markers[i] == markers[1..][i - 1];
          }
        }
      }
    } else {
      assert markers + [last] == [last];
      assert Lookup([last][1..], output).None?;
    }
  }

  lemma AllBefore(init: seq<Marker>, output: nat)
    requires init == [] || init[|init| - 1].afterOutputSeq < output
    requires StrictlyIncreasing(init)
    ensures Before(init, output)
  {
  }

  // ---------------------------------------------------------------- compression loses nothing

  /** What the markers keep of the last record. */
  ghost predicate Tracks(log: seq<Marker>, markers: seq<Marker>) {
    && StrictlyIncreasing(markers)
    && (log == [] <==> markers == [])
    && (log != [] ==>
          var last, marker := log[|log| - 1], markers[|markers| - 1];
          last.rows == marker.rows && last.cols == marker.cols && marker.afterOutputSeq <= last.afterOutputSeq)
  }

  lemma RecordTracks(log: seq<Marker>, markers: seq<Marker>, r: Marker)
    requires Tracks(log, markers) && NonDecreasing(log + [r])
    ensures Tracks(log + [r], Record(markers, r))
  {
    if log != [] {
      assert (log + [r])[|log| - 1].afterOutputSeq <= (log + [r])[|log|].afterOutputSeq;
    }
  }

  lemma {:induction false} CompressTracks(log: seq<Marker>)
    requires NonDecreasing(log)
    ensures Tracks(log, Compress(log))
  {
    if log != [] {
      var init := log[..|log| - 1];
      CompressTracks(init);
      assert init + [log[|log| - 1]] == log;
      RecordTracks(init, Compress(init), log[|log| - 1]);
    }
  }

  /** The markers stay strictly increasing. */
  lemma MarkersIncrease(log: seq<Marker>)
    requires NonDecreasing(log)
    ensures StrictlyIncreasing(Compress(log))
  {
    CompressTracks(log);
  }

  /** A record not before the output changes no lookup. */
  lemma LaterRecordIsUnseen(markers: seq<Marker>, r: Marker, output: nat)
    requires StrictlyIncreasing(markers) && StrictlyIncreasing(Record(markers, r)) && output <= r.afterOutputSeq
    ensures LastBefore(Record(markers, r), output) == LastBefore(markers, output)
  {
    var after := Record(markers, r);
    if markers != [] && markers[|markers| - 1].afterOutputSeq == r.afterOutputSeq {
      assert after[..|after| - 1] == markers[..|markers| - 1];
    } else if after != markers {
      assert after[..|after| - 1] == markers;
    }
  }

  /** Looking up a size in the markers gives what a scan of the full record would give. */
  lemma {:induction false} LookupAgreesWithFullLog(log: seq<Marker>, output: nat)
    requires NonDecreasing(log)
    ensures SameSize(Lookup(Compress(log), output), LastBefore(log, output))
  {
    CompressTracks(log);
    var markers := Compress(log);
    LookupIsLast(markers, output);
    if log != [] {
      var r := log[|log| - 1];
      if r.afterOutputSeq >= output {
        var init := log[..|log| - 1];
        LookupAgreesWithFullLog(init, output);
        CompressTracks(init);
        LookupIsLast(Compress(init), output);
        LaterRecordIsUnseen(Compress(init), r, output);
      }
    }
  }

  // ---------------------------------------------------------------- in place

  class GeometryMarkers {
    var markers: seq<Marker>

    constructor ()
      ensures markers == Compress([])
    {
      markers := [];
    }

    method RecordOutputGeometry(afterOutputSeq: nat, rows: nat, cols: nat)
      modifies this
      ensures markers == Record(old(markers), Marker(afterOutputSeq, rows, cols))
    {
      var n := |markers|;
      if n > 0 && markers[n - 1].afterOutputSeq == afterOutputSeq {
        markers := markers[n - 1 := markers[n - 1].(rows := rows, cols := cols)];
      } else if n == 0 || markers[n - 1].rows != rows || markers[n - 1].cols != cols {
        markers := markers + [Marker(afterOutputSeq, rows, cols)];
      }
    }
  }

  // ---------------------------------------------------------------- handing markers over

  const MAX_SEQ := 18446744073709551615

  predicate SizeInRange(m: Marker) {
    1 <= m.rows <= 1000 && 1 <= m.cols <= 1000
  }

  predicate Acceptable(markers: seq<Marker>) {
    && 0 < |markers| <= 4096
    && markers[0].afterOutputSeq == 0
    && StrictlyIncreasing(markers)
    && forall i | 0 <= i < |markers| :: SizeInRange(markers[i]) && markers[i].afterOutputSeq <= MAX_SEQ
  }

  lemma {:induction false} MarkersComeFromLog(log: seq<Marker>)
    ensures forall m | m in Compress(log) :: m in log
    ensures |Compress(log)| <= |log|
    ensures log != [] ==> Compress(log) != [] && Compress(log)[0].afterOutputSeq == log[0].afterOutputSeq
  {
    if log != [] {
      var init := log[..|log| - 1];
      MarkersComeFromLog(init);
      assert log == init + [log[|log| - 1]];
    }
  }

  /**
   What was recorded from output zero on, in proper sizes, is accepted when handed over exactly when
   there are at most 4096 markers. Recording itself has no such limit.
   */
  lemma RecordedIsAcceptedExactly(log: seq<Marker>)
    requires log != [] && log[0].afterOutputSeq == 0 && NonDecreasing(log)
    requires forall i | 0 <= i < |log| :: SizeInRange(log[i]) && log[i].afterOutputSeq <= MAX_SEQ
    ensures Acceptable(Compress(log)) <==> |Compress(log)| <= 4096
  {
    CompressTracks(log);
    MarkersComeFromLog(log);
    forall i | 0 <= i < |Compress(log)|
      ensures SizeInRange(Compress(log)[i]) && Compress(log)[i].afterOutputSeq <= MAX_SEQ
    {
      assert Compress(log)[i] in log;
    }
  }

  /** A terminal whose height changes with every output. */
  function Alternating(n: nat): seq<Marker> {
    seq(n, i requires 0 <= i < n => Marker(i, 24 + i % 2, 80))
  }

  lemma {:induction false} AlternatingStays(n: nat)
    ensures Compress(Alternating(n)) == Alternating(n)
  {
    if n > 0 {
      AlternatingStays(n - 1);
      assert Alternating(n)[..n - 1] == Alternating(n - 1);
      assert Alternating(n) == Alternating(n - 1) + [Marker(n - 1, 24 + (n - 1) % 2, 80)];
    }
  }

  /** With enough changes of size the markers are refused, and the tab cannot be handed over. */
  lemma ManyChangesAreRefused(n: nat)
    requires 4096 < n <= MAX_SEQ
    ensures var log := Alternating(n);
            && log[0].afterOutputSeq == 0 && NonDecreasing(log)
            && (forall i | 0 <= i < |log| :: SizeInRange(log[i]) && log[i].afterOutputSeq <= MAX_SEQ)
            && !Acceptable(Compress(log))
  {
    AlternatingStays(n);
  }
}
