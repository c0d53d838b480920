/**
 * The text the speech-recognition result listener derives from a result
 * event: the most confident alternative of every recognised segment, in
 * segment order, joined with single spaces.
 */
module Recognition {
  import opened Options

  /** The alternatives' transcripts of one recognised segment, most confident first. */
  type SpeechResult = seq<string>

  /** `parts.join(" ")` as JavaScript arrays define it. */
  function Join(parts: seq<string>): (r: string)
    ensures |parts| == 0 ==> r == ""
    ensures |parts| > 0 ==> parts[0] <= r && |r| >= |parts| - 1
  {
    if |parts| == 0 then ""
    else if |parts| == 1 then parts[0]
    else parts[0] + " " + Join(parts[1..])
  }

  /**
   * The segments a text is made of when cut at every space; the inverse of
   * `Join` on segments that hold no space.
   */
  function Split(s: string): (r: seq<string>)
    ensures |r| >= 1
  {
    if s == [] then [""]
    else if s[0] == ' ' then [""] + Split(s[1..])
    else
      var rest := Split(s[1..]);
      [[s[0]] + rest[0]] + rest[1..]
  }

  /**
   * `result[0].transcript` for every result of the event, in order; `None`
   * when a result has no alternative, where `result[0]` is undefined and
   * reading its transcript throws.
   */
  function TopAlternatives(results: seq<SpeechResult>): (r: Option<seq<string>>)
    ensures r.Some? <==> forall i :: 0 <= i < |results| ==> |results[i]| > 0
    ensures r.Some? ==> |r.value| == |results| &&
                        forall i :: 0 <= i < |results| ==> r.value[i] == results[i][0]
  {
    if |results| == 0 then Some([])
    else if |results[0]| == 0 then None
    else
      match TopAlternatives(results[1..])
      case None => None
      case Some(rest) => Some([results[0][0]] + rest)
  }

  /** The buffer a result event produces, or `None` when the listener throws. */
  function ListenedBuffer(results: seq<SpeechResult>): (r: Option<string>)
    ensures r.Some? <==> forall i :: 0 <= i < |results| ==> |results[i]| > 0
    ensures r.Some? && |results| == 1 ==> r.value == results[0][0]
    ensures |results| == 0 ==> r == Some("")
  {
    match TopAlternatives(results)
    case None => None
    case Some(tops) => Some(Join(tops))
  }

  /** A new last segment extends the joined text by a space and that segment. */
  lemma {:induction false} JoinAppend(parts: seq<string>, last: string)
    requires |parts| > 0
    ensures Join(parts + [last]) == Join(parts) + " " + last
  {
    if |parts| > 1 {
      assert (parts + [last])[1..] == parts[1..] + [last];
      JoinAppend(parts[1..], last);
    }
  }

  /** Joining the segments of a text gives the text back. */
  lemma {:induction false} JoinSplit(s: string)
    ensures Join(Split(s)) == s
  {
    if s != [] {
      JoinSplit(s[1..]);
      var rest := Split(s[1..]);
      if s[0] == ' ' {
        assert ([""] + rest)[1..] == rest;
      } else {
        var r := [[s[0]] + rest[0]] + rest[1..];
        assert r[1..] == rest[1..];
        if |rest| > 1 {
          assert Join(rest) == rest[0] + " " + Join(rest[1..]);
        }
      }
    }
  }

  /** Splitting `p + rest` when `p` has no space glues `p` to the first segment of `rest`. */
  lemma {:induction false} SplitSpaceless(p: string, rest: string)
    requires forall k :: 0 <= k < |p| ==> p[k] != ' '
    ensures Split(p + rest) == [p + Split(rest)[0]] + Split(rest)[1..]
  {
    if p != [] {
      assert (p + rest)[1..] == p[1..] + rest;
      SplitSpaceless(p[1..], rest);
      assert [p[0]] + (p[1..] + Split(rest)[0]) == p + Split(rest)[0];
    } else {
      assert p + rest == rest && p + Split(rest)[0] == Split(rest)[0];
      assert Split(rest) == [Split(rest)[0]] + Split(rest)[1..];
    }
  }

  /** Segments without spaces are recovered from their joined text, in order. */
  lemma {:induction false} SplitJoin(parts: seq<string>)
    requires |parts| > 0
    requires forall i, k :: 0 <= i < |parts| && 0 <= k < |parts[i]| ==> parts[i][k] != ' '
    ensures Split(Join(parts)) == parts
  {
    if |parts| == 1 {
      SplitSpaceless(parts[0], "");
      assert parts[0] + "" == parts[0];
    } else {
      SplitJoin(parts[1..]);
      var tail := Join(parts[1..]);
      assert parts[0] + " " + tail == parts[0] + (" " + tail);
      SplitSpaceless(parts[0], " " + tail);
      assert (" " + tail)[1..] == tail;
      assert Split(" " + tail) == [""] + parts[1..];
      assert parts[0] + "" == parts[0];
    }
  }

  /**
   * The space-free case only: when no top transcript holds a space, the
   * buffer determines each of them, in order. Multi-word transcripts are
   * covered by `ListenedBufferGrows`, which describes the buffer of any event.
   */
  lemma ListenedBufferSegments(results: seq<SpeechResult>)
    requires |results| > 0
    requires forall i :: 0 <= i < |results| ==> |results[i]| > 0
    requires forall i, k :: 0 <= i < |results| && 0 <= k < |results[i][0]| ==> results[i][0][k] != ' '
    ensures ListenedBuffer(results).Some?
    ensures var segments := Split(ListenedBuffer(results).value);
            |segments| == |results| &&
            forall i :: 0 <= i < |results| ==> segments[i] == results[i][0]
  {
    var tops := TopAlternatives(results).value;
    SplitJoin(tops);
  }

  /** A further segment in the next event extends the buffer by a space and its top alternative. */
  lemma ListenedBufferGrows(results: seq<SpeechResult>, next: SpeechResult)
    requires |results| > 0 && |next| > 0
    requires ListenedBuffer(results).Some?
    ensures ListenedBuffer(results + [next]) == Some(ListenedBuffer(results).value + " " + next[0])
  {
    var tops := TopAlternatives(results).value;
    var all := TopAlternatives(results + [next]).value;
    assert all == tops + [next[0]];
    JoinAppend(tops, next[0]);
  }
}
