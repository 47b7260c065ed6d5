/**
 * Classification of a file's probe streams into audio tracks to keep and to
 * remove. Audio tracks are numbered by a counter that only the classified
 * audio streams advance; `Classify` is the specification the imperative loop
 * of `processStreams` is proved against.
 */
module Streams {
  import opened Wrappers
  import opened Strings

  datatype Tags = Tags(language: Option<string>)

  /** One entry of `ffProbeData.streams`; `tags` is absent on some streams. */
  datatype Stream = Stream(codecType: string, tags: Option<Tags>)

  /** Audio positions to keep and to remove, and the removed languages' names. */
  datatype Tracks = Tracks(keep: seq<nat>, remove: seq<nat>, remLangs: seq<string>)

  predicate IsAudio(st: Stream)
  {
    st.codecType == "audio"
  }

  /** The stream has tags whose `language` is truthy. */
  predicate HasLanguage(st: Stream)
  {
    st.tags.Some? && Truthy(st.tags.value.language)
  }

  function Language(st: Stream): string
    requires HasLanguage(st)
  {
    st.tags.value.language.value
  }

  /**
   * An audio stream the loop gives a position to: one without tags or one with
   * a language tag. An audio stream with tags but no language gets none.
   */
  predicate Counted(st: Stream)
  {
    IsAudio(st) && (st.tags.None? || HasLanguage(st))
  }

  /** An audio stream whose language tag is not in the retain list. */
  predicate Removable(st: Stream, langs: seq<Option<string>>)
  {
    IsAudio(st) && HasLanguage(st) && Some(Language(st)) !in langs
  }

  /** The effect of one stream; the next audio position is |keep| + |remove|. */
  function Step(t: Tracks, st: Stream, langs: seq<Option<string>>, getName: string -> string): Tracks
  {
    var index := |t.keep| + |t.remove|;
    if !IsAudio(st) then t
    else if st.tags.None? then t.(keep := t.keep + [index])
    else if HasLanguage(st) then
      if Some(Language(st)) in langs then t.(keep := t.keep + [index])
      else t.(remove := t.remove + [index], remLangs := t.remLangs + [getName(Language(st))])
    else t
  }

  /** The tracks after the streams are processed in order. */
  function Classify(streams: seq<Stream>, langs: seq<Option<string>>, getName: string -> string): Tracks
    decreases |streams|
  {
    if streams == [] then Tracks([], [], [])
    else Step(Classify(streams[..|streams| - 1], langs, getName), streams[|streams| - 1], langs, getName)
  }

  /** How many streams are given an audio position. */
  function CountCounted(streams: seq<Stream>): nat
    decreases |streams|
  {
    if streams == [] then 0
    else CountCounted(streams[..|streams| - 1]) + (if Counted(streams[|streams| - 1]) then 1 else 0)
  }

  predicate Increasing(s: seq<nat>)
  {
    forall j, k :: 0 <= j < k < |s| ==> s[j] < s[k]
  }

  /** `keep` and `remove` are increasing, disjoint and together exactly 0..n-1. */
  predicate PartitionOf(keep: seq<nat>, remove: seq<nat>, n: nat)
  {
    Increasing(keep) && Increasing(remove) &&
    |keep| + |remove| == n &&
    (forall i :: i in keep ==> i < n && i !in remove) &&
    (forall i :: i in remove ==> i < n) &&
    (forall i :: 0 <= i < n ==> i in keep || i in remove)
  }

  lemma ClassifyLast(streams: seq<Stream>, st: Stream, langs: seq<Option<string>>, getName: string -> string)
    ensures Classify(streams + [st], langs, getName) == Step(Classify(streams, langs, getName), st, langs, getName)
    ensures CountCounted(streams + [st]) == CountCounted(streams) + (if Counted(st) then 1 else 0)
  {
    CountLast(streams, st);
  }

  lemma CountLast(streams: seq<Stream>, st: Stream)
    ensures CountCounted(streams + [st]) == CountCounted(streams) + (if Counted(st) then 1 else 0)
  {
    assert (streams + [st])[..|streams|] == streams;
  }

  /** Handing out the next position n, to either list, extends a partition of 0..n-1. */
  lemma PartitionExtend(keep: seq<nat>, remove: seq<nat>, n: nat)
    requires PartitionOf(keep, remove, n)
    ensures PartitionOf(keep + [n], remove, n + 1)
    ensures PartitionOf(keep, remove + [n], n + 1)
  {
    assert forall j :: 0 <= j < |keep| ==> keep[j] in keep;
    assert forall j :: 0 <= j < |remove| ==> remove[j] in remove;
  }

  /** One stream keeps the partition, advancing n exactly when it is counted. */
  lemma StepPartition(t: Tracks, st: Stream, langs: seq<Option<string>>, getName: string -> string, n: nat)
    requires PartitionOf(t.keep, t.remove, n) && |t.remLangs| == |t.remove|
    ensures var u := Step(t, st, langs, getName);
      PartitionOf(u.keep, u.remove, n + (if Counted(st) then 1 else 0)) && |u.remLangs| == |u.remove|
  {
    PartitionExtend(t.keep, t.remove, n);
  }

  /**
   * The audio positions handed out are 0..n-1, n the number of counted
   * streams, each once, in increasing order, to keep or to remove; one name
   * is recorded per removed track.
   */
  lemma {:induction false} ClassifyPartition(streams: seq<Stream>, langs: seq<Option<string>>, getName: string -> string)
    ensures var t := Classify(streams, langs, getName);
      PartitionOf(t.keep, t.remove, CountCounted(streams)) && |t.remLangs| == |t.remove|
    decreases |streams|
  {
    if streams != [] {
      var prefix := streams[..|streams| - 1];
      ClassifyPartition(prefix, langs, getName);
      StepPartition(Classify(prefix, langs, getName), streams[|streams| - 1], langs, getName, CountCounted(prefix));
    }
  }

  /** A stream that is not counted leaves the classification unchanged. */
  lemma UncountedStreamIgnored(streams: seq<Stream>, st: Stream, langs: seq<Option<string>>, getName: string -> string)
    requires !Counted(st)
    ensures Classify(streams + [st], langs, getName) == Classify(streams, langs, getName)
    ensures CountCounted(streams + [st]) == CountCounted(streams)
  {
    ClassifyLast(streams, st, langs, getName);
  }

  /**
   * A counted stream takes the next position n, the number of counted streams
   * before it, and puts it at the end of `remove` when its language is not
   * retained and at the end of `keep` otherwise.
   */
  lemma CountedStreamAdvances(streams: seq<Stream>, st: Stream, langs: seq<Option<string>>, getName: string -> string)
    requires Counted(st)
    ensures var before := Classify(streams, langs, getName);
      var after := Classify(streams + [st], langs, getName);
      var n := CountCounted(streams);
      CountCounted(streams + [st]) == n + 1 &&
      (Removable(st, langs) ==>
        after.keep == before.keep && after.remove == before.remove + [n] &&
        after.remLangs == before.remLangs + [getName(Language(st))]) &&
      (!Removable(st, langs) ==>
        after.keep == before.keep + [n] && after.remove == before.remove && after.remLangs == before.remLangs)
  {
    ClassifyLast(streams, st, langs, getName);
    ClassifyPartition(streams, langs, getName);
  }

  /**
   * An audio stream with tags but no language takes no position, so the
   * French track after it gets audio position 0, which is the untagged
   * stream's position in FFmpeg's count of audio streams.
   */
  lemma UntaggedLanguageShiftsPositions(getName: string -> string)
    ensures var untagged := Stream("audio", Some(Tags(None)));
      var french := Stream("audio", Some(Tags(Some("fra"))));
      var t := Classify([untagged, french], [Some("eng"), Some("und")], getName);
      t.keep == [] && t.remove == [0]
  {
    var untagged := Stream("audio", Some(Tags(None)));
    var french := Stream("audio", Some(Tags(Some("fra"))));
    var langs := [Some("eng"), Some("und")];
    assert [] + [untagged] == [untagged];
    ClassifyLast([], untagged, langs, getName);
    ClassifyLast([untagged], french, langs, getName);
    assert [untagged] + [french] == [untagged, french];
  }

  /** Membership of a position handed out before stream m - 1 is unchanged by it. */
  lemma {:induction false} EarlierPositionStable(streams: seq<Stream>, langs: seq<Option<string>>,
                                               getName: string -> string, m: nat, i: nat)
    requires 0 < m <= |streams| && i < CountCounted(streams[..m - 1])
    ensures var before := Classify(streams[..m - 1], langs, getName);
      var after := Classify(streams[..m], langs, getName);
      (i in after.keep <==> i in before.keep) && (i in after.remove <==> i in before.remove)
  {
    assert streams[..m - 1] + [streams[m - 1]] == streams[..m];
    ClassifyLast(streams[..m - 1], streams[m - 1], langs, getName);
    ClassifyPartition(streams[..m - 1], langs, getName);
  }

  /** The position of the counted stream at p, right after it is processed. */
  lemma PositionAtStream(streams: seq<Stream>, langs: seq<Option<string>>, getName: string -> string, p: nat)
    requires p < |streams| && Counted(streams[p])
    ensures var t := Classify(streams[..p + 1], langs, getName);
      var i := CountCounted(streams[..p]);
      (i in t.remove <==> Removable(streams[p], langs)) &&
      (i in t.keep <==> !Removable(streams[p], langs)) &&
      i < CountCounted(streams[..p + 1])
  {
    assert streams[..p] + [streams[p]] == streams[..p + 1];
    CountedStreamAdvances(streams[..p], streams[p], langs, getName);
    ClassifyPartition(streams[..p], langs, getName);
  }

  lemma {:induction false} PositionInPrefix(streams: seq<Stream>, langs: seq<Option<string>>,
                                          getName: string -> string, p: nat, m: nat)
    requires p < m <= |streams| && Counted(streams[p])
    ensures var t := Classify(streams[..m], langs, getName);
      var i := CountCounted(streams[..p]);
      (i in t.remove <==> Removable(streams[p], langs)) &&
      (i in t.keep <==> !Removable(streams[p], langs))
    decreases m
  {
    PositionAtStream(streams, langs, getName, p);
    if m > p + 1 {
      PositionInPrefix(streams, langs, getName, p, m - 1);
      CountMonotone(streams, p + 1, m - 1);
      EarlierPositionStable(streams, langs, getName, m, CountCounted(streams[..p]));
    }
  }

  lemma {:induction false} CountMonotone(streams: seq<Stream>, a: nat, b: nat)
    requires a <= b <= |streams|
    ensures CountCounted(streams[..a]) <= CountCounted(streams[..b])
    decreases b
  {
    if a < b {
      CountMonotone(streams, a, b - 1);
      assert streams[..b - 1] + [streams[b - 1]] == streams[..b];
      CountLast(streams[..b - 1], streams[b - 1]);
    }
  }

  /**
   * The counted stream at position p of the probe gets audio position
   * CountCounted(streams[..p]); that position is removed exactly when the
   * stream's language is not retained, and kept otherwise.
   */
  lemma ClassifyPosition(streams: seq<Stream>, langs: seq<Option<string>>, getName: string -> string, p: nat)
    requires p < |streams| && Counted(streams[p])
    ensures var t := Classify(streams, langs, getName);
      var i := CountCounted(streams[..p]);
      (i in t.remove <==> Removable(streams[p], langs)) &&
      (i in t.keep <==> !Removable(streams[p], langs))
  {
    PositionInPrefix(streams, langs, getName, p, |streams|);
    assert streams[..|streams|] == streams;
  }

  /** Nothing is removed exactly when no stream is removable. */
  lemma {:induction false} RemoveEmptyIff(streams: seq<Stream>, langs: seq<Option<string>>, getName: string -> string)
    ensures Classify(streams, langs, getName).remove == [] <==>
      forall p :: 0 <= p < |streams| ==> !Removable(streams[p], langs)
    decreases |streams|
  {
    if streams != [] {
      var prefix := streams[..|streams| - 1];
      RemoveEmptyIff(prefix, langs, getName);
      assert forall p :: 0 <= p < |prefix| ==> prefix[p] == streams[p];
    }
  }

  /** Nothing is kept exactly when every counted stream is removable. */
  lemma {:induction false} KeepEmptyIff(streams: seq<Stream>, langs: seq<Option<string>>, getName: string -> string)
    ensures Classify(streams, langs, getName).keep == [] <==>
      forall p :: 0 <= p < |streams| && Counted(streams[p]) ==> Removable(streams[p], langs)
    decreases |streams|
  {
    if streams != [] {
      var prefix := streams[..|streams| - 1];
      KeepEmptyIff(prefix, langs, getName);
      assert forall p :: 0 <= p < |prefix| ==> prefix[p] == streams[p];
    }
  }
}
