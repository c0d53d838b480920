/**
 * The synthesis voices offered to the user: those of a Spanish language,
 * the default selection, and the lookup of the selected voice by name.
 */
module Voices {
  import opened Options

  /** A synthesis voice as the speech library lists it. */
  datatype Voice = Voice(name: string, lang: string)

  /** `voice.lang.startsWith("es")`. */
  predicate IsSpanish(v: Voice)
  {
    "es" <= v.lang
  }

  /** `allVoices.filter(voice => voice.lang.startsWith("es"))`. */
  function SpanishVoices(all: seq<Voice>): (r: seq<Voice>)
    ensures |r| <= |all|
    ensures forall v :: v in r <==> v in all && IsSpanish(v)
  {
    if |all| == 0 then []
    else if IsSpanish(all[0]) then [all[0]] + SpanishVoices(all[1..])
    else SpanishVoices(all[1..])
  }

  /** The filter keeps the original order: filtering a concatenation concatenates the filtered parts. */
  lemma {:induction false} SpanishVoicesConcat(a: seq<Voice>, b: seq<Voice>)
    ensures SpanishVoices(a + b) == SpanishVoices(a) + SpanishVoices(b)
  {
    if |a| > 0 {
      assert (a + b)[1..] == a[1..] + b;
      SpanishVoicesConcat(a[1..], b);
    } else {
      assert a + b == b;
    }
  }

  /** A list that is already all Spanish passes through the filter unchanged. */
  lemma {:induction false} SpanishVoicesKeepsSpanish(all: seq<Voice>)
    requires forall i :: 0 <= i < |all| ==> IsSpanish(all[i])
    ensures SpanishVoices(all) == all
  {
    if |all| > 0 {
      SpanishVoicesKeepsSpanish(all[1..]);
    }
  }

  /** Filtering twice is filtering once. */
  lemma SpanishVoicesIdempotent(all: seq<Voice>)
    ensures SpanishVoices(SpanishVoices(all)) == SpanishVoices(all)
  {
  }

  /**
   * The selection after the voices are listed: the first offered voice's
   * name when there is one, otherwise the selection stays as it was.
   */
  function DefaultSelection(offered: seq<Voice>, current: Option<string>): (r: Option<string>)
    ensures |offered| > 0 ==> r.Some? && exists v :: v in offered && v.name == r.value
    ensures |offered| == 0 ==> r == current
  {
    if |offered| > 0 then Some(offered[0].name) else current
  }

  /** `voices.find(voice => voice.name === selectedVoice)`; an unset selection matches nothing. */
  function FindVoice(voices: seq<Voice>, selected: Option<string>): (r: Option<Voice>)
    ensures r.None? <==> forall i :: 0 <= i < |voices| ==> Some(voices[i].name) != selected
    ensures r.Some? ==> exists i :: 0 <= i < |voices| && voices[i] == r.value &&
                          Some(voices[i].name) == selected &&
                          forall j :: 0 <= j < i ==> Some(voices[j].name) != selected
  {
    if |voices| == 0 then None
    else if Some(voices[0].name) == selected then Some(voices[0])
    else
      var r := FindVoice(voices[1..], selected);
      assert r.Some? ==> exists i :: 1 <= i < |voices| && voices[i] == r.value &&
                          Some(voices[i].name) == selected &&
                          forall j :: 0 <= j < i ==> Some(voices[j].name) != selected by {
        if r.Some? {
          var k :| 0 <= k < |voices[1..]| && voices[1..][k] == r.value &&
                   Some(voices[1..][k].name) == selected &&
                   forall j :: 0 <= j < k ==> Some(voices[1..][j].name) != selected;
          assert voices[k + 1] == r.value;
          forall j | 0 <= j < k + 1 ensures Some(voices[j].name) != selected {
            if j > 0 { assert voices[j] == voices[1..][j - 1]; }
          }
        }
      }
      r
  }

  /** The default selection always names a voice the lookup finds: the first one offered. */
  lemma DefaultVoiceFound(all: seq<Voice>, current: Option<string>)
    requires |SpanishVoices(all)| > 0
    ensures FindVoice(SpanishVoices(all), DefaultSelection(SpanishVoices(all), current)) ==
            Some(SpanishVoices(all)[0])
  {
  }
}
