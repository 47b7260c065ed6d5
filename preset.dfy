/**
 * The FFmpeg argument text processStreams appends to the response: one
 * `-map -0:a:N ` per removed audio position, then the stream-copy arguments.
 */
module Preset {
  import opened Wrappers
  import opened Strings

  /** The preset the module-level response starts with. */
  const InitialPreset: string := ", -map 0 "
  const MapPrefix: string := "-map -0:a:"
  const CopyArgs: string := " -c copy -max_muxing_queue_size 9999"

  /** The negative map that drops audio stream `index`. */
  function MapArg(index: nat): string
  {
    MapPrefix + NatToString(index) + " "
  }

  /** The negative maps for `remove`, in order. */
  function MapArgs(remove: seq<nat>): string
    decreases |remove|
  {
    if remove == [] then "" else MapArg(remove[0]) + MapArgs(remove[1..])
  }

  /** Appending one map to the text is the text of the longer list. */
  lemma {:induction false} MapArgsAppend(remove: seq<nat>, index: nat)
    ensures MapArgs(remove + [index]) == MapArgs(remove) + MapArg(index)
    decreases |remove|
  {
    if remove != [] {
      assert (remove + [index])[1..] == remove[1..] + [index];
      MapArgsAppend(remove[1..], index);
    }
  }

  /**
   * Reads a sequence of `-map -0:a:N ` arguments back into the positions
   * they drop; None when the text is not of that form.
   */
  function ParseMapArgs(s: string): Option<seq<nat>>
    decreases |s|
  {
    if s == [] then Some([])
    else if |s| < |MapPrefix| || s[..|MapPrefix|] != MapPrefix then None
    else
      var rest := s[|MapPrefix|..];
      var n := DigitRun(rest);
      if n == 0 || n == |rest| || rest[n] != ' ' then None
      else match ParseMapArgs(rest[n + 1..])
        case None => None
        case Some(tail) => Some([DigitsValue(rest[..n])] + tail)
  }

  /** One map argument in front of a text is read back as its position. */
  lemma ParseMapArg(index: nat, tail: string)
    ensures ParseMapArgs(MapArg(index) + tail) ==
      match ParseMapArgs(tail)
      case None => None
      case Some(rest) => Some([index] + rest)
  {
    var digits := NatToString(index);
    var s := MapArg(index) + tail;
    var rest := digits + (" " + tail);
    assert s != [] && s[..|MapPrefix|] == MapPrefix && s[|MapPrefix|..] == rest by {
      assert s == MapPrefix + rest;
    }
    assert DigitRun(rest) == |digits| by {
      DigitRunOfDigits(digits, " " + tail);
    }
    assert rest[..|digits|] == digits && rest[|digits|] == ' ' && rest[|digits| + 1..] == tail;
    assert DigitsValue(digits) == index by {
      NatToStringValue(index);
    }
  }

  /** The map arguments drop exactly the removed positions, in order. */
  lemma {:induction false} MapArgsRoundTrip(remove: seq<nat>)
    ensures ParseMapArgs(MapArgs(remove)) == Some(remove)
    decreases |remove|
  {
    if remove != [] {
      var tail := MapArgs(remove[1..]);
      assert MapArgs(remove) == MapArg(remove[0]) + tail;
      MapArgsRoundTrip(remove[1..]);
      assert ParseMapArgs(tail) == Some(remove[1..]);
      ParseMapArg(remove[0], tail);
      assert [remove[0]] + remove[1..] == remove;
    }
  }
}
