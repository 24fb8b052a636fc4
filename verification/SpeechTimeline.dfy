/** Separately spoken segments joined into one recording, with the times that each one occupies. */
module SpeechTimeline {
  import opened Sequences

  /** One channel of 16-bit samples at 16 kHz. */
  const BYTES_PER_SECOND := 32000

  datatype Segment = Segment(text: string, start: real, end: real)

  /** Where segment k begins, in bytes. */
  function Offset(recordings: seq<seq<bv8>>, k: nat): nat
    requires k <= |recordings|
  {
    if k == 0 then 0 else Offset(recordings, k - 1) + |recordings[k - 1]|
  }

  function Seconds(bytes: nat): real { bytes as real / BYTES_PER_SECOND as real }

  lemma SecondsAdd(a: nat, b: nat)
    ensures Seconds(a) + Seconds(b) == Seconds(a + b)
  {
  }

  /** The byte a time points at: the whole part of its product with the byte rate. */
  function ByteAt(time: real): int { (time * BYTES_PER_SECOND as real).Floor }

  lemma ByteAtSeconds(bytes: nat)
    ensures ByteAt(Seconds(bytes)) == bytes
  {
  }

  function SegmentAt(texts: seq<string>, recordings: seq<seq<bv8>>, k: nat): Segment
    requires k < |texts| == |recordings|
  {
    Segment(texts[k], Seconds(Offset(recordings, k)), Seconds(Offset(recordings, k + 1)))
  }

  /** The loop: each segment starts where the last one ended. */
  method Join(texts: seq<string>, recordings: seq<seq<bv8>>) returns (segments: seq<Segment>, frames: seq<seq<bv8>>)
    requires |texts| == |recordings|
    ensures frames == recordings && |segments| == |texts|
    ensures forall k :: 0 <= k < |texts| ==> segments[k] == SegmentAt(texts, recordings, k)
  {
    segments, frames := [], [];
    var cursor: real := 0.0;
    for i := 0 to |texts|
      invariant frames == recordings[..i] && |segments| == i
      invariant cursor == Seconds(Offset(recordings, i))
      invariant forall k :: 0 <= k < i ==> segments[k] == SegmentAt(texts, recordings, k)
    {
      var duration := Seconds(|recordings[i]|);
      SecondsAdd(Offset(recordings, i), |recordings[i]|);
      segments := segments + [Segment(texts[i], cursor, cursor + duration)];
      frames := frames + [recordings[i]];
      cursor := cursor + duration;
    }
  }

  lemma {:induction false} OffsetCutsFrames(recordings: seq<seq<bv8>>, k: nat)
    requires k <= |recordings|
    ensures Offset(recordings, k) == |Flatten(recordings[..k])|
    ensures Flatten(recordings) == Flatten(recordings[..k]) + Flatten(recordings[k..])
  {
    FlattenAppend(recordings[..k], recordings[k..]);
    assert recordings == recordings[..k] + recordings[k..];
    if k > 0 {
      OffsetCutsFrames(recordings, k - 1);
      assert recordings[..k] == recordings[..k - 1] + [recordings[k - 1]];
      FlattenAppend(recordings[..k - 1], [recordings[k - 1]]);
      assert Flatten([recordings[k - 1]]) == recordings[k - 1];
    }
  }

  /** Cutting the joined recording at a segment's own times gives back exactly that segment's frames. */
  lemma SegmentOwnsItsFrames(recordings: seq<seq<bv8>>, k: nat)
    requires k < |recordings|
    ensures var all, from, to := Flatten(recordings), ByteAt(Seconds(Offset(recordings, k))), ByteAt(Seconds(Offset(recordings, k + 1)));
            0 <= from <= to <= |all| && all[from..to] == recordings[k]
  {
    ByteAtSeconds(Offset(recordings, k));
    ByteAtSeconds(Offset(recordings, k + 1));
    OffsetCutsFrames(recordings, k);
    OffsetCutsFrames(recordings, k + 1);
    assert recordings[k..] == [recordings[k]] + recordings[k + 1..];
  }

  /**
    The segments tile the recording: from zero to its end, each one starting where the last ended and
    lasting a second for every 32,000 bytes of its own.
   */
  lemma SegmentsTile(texts: seq<string>, recordings: seq<seq<bv8>>, segments: seq<Segment>)
    requires |texts| == |recordings| == |segments| > 0
    requires forall k :: 0 <= k < |texts| ==> segments[k] == SegmentAt(texts, recordings, k)
    ensures segments[0].start == 0.0
    ensures segments[|segments| - 1].end == Seconds(|Flatten(recordings)|)
    ensures forall k :: 0 <= k < |segments| ==> segments[k].start <= segments[k].end
    ensures forall k :: 0 < k < |segments| ==> segments[k].start == segments[k - 1].end
    ensures forall k :: 0 <= k < |segments| ==>
              segments[k].text == texts[k] && (segments[k].end - segments[k].start) * 32000.0 == |recordings[k]| as real
  {
    OffsetCutsFrames(recordings, |recordings|);
    assert recordings[..|recordings|] == recordings;
    assert segments[0] == SegmentAt(texts, recordings, 0);
    forall k | 0 <= k < |segments|
      ensures segments[k].start <= segments[k].end && (k > 0 ==> segments[k].start == segments[k - 1].end)
      ensures segments[k].text == texts[k] && (segments[k].end - segments[k].start) * 32000.0 == |recordings[k]| as real
    {
      assert segments[k] == SegmentAt(texts, recordings, k);
      SecondsAdd(Offset(recordings, k), |recordings[k]|);
      if k > 0 {
        assert segments[k - 1] == SegmentAt(texts, recordings, k - 1);
      }
    }
  }
}
