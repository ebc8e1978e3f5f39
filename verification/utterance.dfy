/**
  Abstract view of an audio utterance (the `SpeechData` objects that the audio
  module records into and plays from). Only what the module observes is kept:
  the bytes written so far and whether the utterance has been finalised.
 */
module Utterance {

  /** A value that may be absent, standing for a Java reference that may be null. */
  datatype Option<+T> = None | Some(value: T)

  /** One byte of raw audio. */
  newtype byte = x: int | 0 <= x < 256

  /** An utterance: the audio captured (or synthesised) so far, and its final flag. */
  datatype Speech = Speech(data: seq<byte>, final: bool)

  /** A fresh, empty and still open utterance. */
  function Empty(): (u: Speech)
    ensures |u.data| == 0 && !u.final
  {
    Speech([], false)
  }

  /** Appends a captured buffer to an open utterance. */
  function Write(u: Speech, buffer: seq<byte>): (r: Speech)
    requires !u.final
    ensures !r.final
    ensures |r.data| == |u.data| + |buffer|
    ensures r.data[..|u.data|] == u.data && r.data[|u.data|..] == buffer
  {
    Speech(u.data + buffer, false)
  }

  /** Marks an utterance as final; its content is kept as it is. */
  function SetAsFinal(u: Speech): (r: Speech)
    ensures r.final && r.data == u.data
  {
    u.(final := true)
  }

  /**
    Concatenation of a playing utterance with a newly arriving one: the reader
    sees all of `a` and then all of `b`, and the result is final exactly when
    `b` is.
   */
  function Concatenate(a: Speech, b: Speech): (r: Speech)
    ensures |r.data| == |a.data| + |b.data|
    ensures r.data[..|a.data|] == a.data && r.data[|a.data|..] == b.data
    ensures r.final <==> b.final
  {
    Speech(a.data + b.data, b.final)
  }
}
