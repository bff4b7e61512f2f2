/**
 What a sequence of frames says about the files it carries, read without either party's
 state: the finished files in order, the file being streamed, and whether the batch was
 declared complete.
 */
module Transcript {
  import opened Wrappers
  import opened Wire

  datatype Parsed = Parsed(done: seq<seq<byte>>, current: Option<seq<byte>>, complete: bool)

  function ParseFrame(s: Parsed, f: Frame): Parsed
  {
    if s.complete then s
    else match f
      case Control(FileStart(_, _)) => s.(current := Some([]))
      case Data(bytes) => if s.current.Some? then s.(current := Some(s.current.value + bytes)) else s
      case Control(FileEnd(_, _)) =>
        if s.current.Some? then s.(done := s.done + [s.current.value], current := None) else s
      case Control(Complete(_)) => s.(complete := true)
      case _ => s
  }

  function Parse(frames: seq<Frame>): Parsed
  {
    if frames == [] then Parsed([], None, false)
    else ParseFrame(Parse(frames[..|frames| - 1]), frames[|frames| - 1])
  }

  lemma ParseAppend(frames: seq<Frame>, f: Frame)
    ensures Parse(frames + [f]) == ParseFrame(Parse(frames), f)
  {
    assert (frames + [f])[..|frames|] == frames;
  }

  /** Nothing sent after the declaration changes what it declared. */
  lemma {:induction false} CompleteIsFinal(early: seq<Frame>, late: seq<Frame>)
    requires early <= late && Parse(early).complete
    ensures Parse(late) == Parse(early)
    decreases |late|
  {
    if |early| < |late| {
      var front := late[..|late| - 1];
      assert early <= front;
      CompleteIsFinal(early, front);
    } else {
      assert early == late;
    }
  }
}
