/** The playback queue of a call (TTSFrameBuffer in pawlia/interfaces/call_core.py):
    spoken sentences, hold music, and interruptions. */
module TtsBuffer {
  import opened Seqs
  import opened Errors
  import opened TtsFrames
  import opened HoldLoop
  import opened TtsCourse

  class TtsBuffer {
    var queue: seq<Item>
    var nextId: nat
    var current: Option<nat>
    var holdPcm: seq<int>
    var holdPos: nat
    var holdActive: bool
    ghost var course: Course
    ghost var holdStream: seq<int>

    ghost predicate Valid()
      reads this
    {
      Follows(course, queue, nextId, current) && Gapless(holdPcm, holdPos, holdStream)
    }

    constructor ()
      ensures Valid() && course == START && holdPcm == [] && !holdActive
    {
      queue, nextId, current := [], 1, None;
      holdPcm, holdPos, holdActive := [], 0, false;
      course, holdStream := START, [];
    }

    method SetHoldAudio(pcm: seq<int>)
      requires Valid()
      modifies this`holdPcm, this`holdPos, this`holdStream
      ensures Valid() && holdPcm == pcm && holdStream == []
    {
      holdPcm, holdPos, holdStream := pcm, 0, [];
    }

    method StartHold()
      requires Valid()
      modifies this`holdPos, this`holdActive, this`holdStream
      ensures Valid() && holdActive && holdStream == if old(holdActive) then old(holdStream) else []
    {
      if !holdActive {
        holdPos, holdStream := 0, [];
      }
      holdActive := true;
    }

    method StopHold()
      requires Valid()
      modifies this`holdActive
      ensures Valid() && !holdActive
    {
      holdActive := false;
    }

    method DrainQueue()
      modifies this`queue
      ensures queue == []
    {
      while queue != [] {
        queue := queue[1..];
      }
    }

    /** Drops everything that was not played, cutting the current sentence short. */
    method Interrupt()
      requires Valid()
      modifies this`queue, this`current, this`holdActive, this`course
      ensures Valid() && queue == [] && current == None && !holdActive
      ensures course == Interrupted(old(course))
    {
      ghost var c, waiting, playing := course, queue, current;
      DrainQueue();
      holdActive, current := false, None;
      course := Interrupted(c);
      FollowsInterrupted(c, waiting, nextId, playing);
    }

    /** The queued items of the current sentence; the queue is emptied. */
    method TakeCurrent(ghost mine: seq<Item>, ghost others: seq<Item>) returns (kept: seq<Item>)
      requires queue == mine + others && current.Some?
      requires forall i | 0 <= i < |mine| :: mine[i].sentence == current.value
      requires forall i | 0 <= i < |others| :: others[i].sentence != current.value
      modifies this`queue
      ensures queue == [] && kept == mine
    {
      kept := [];
      ghost var n := 0;
      while queue != []
        invariant n <= |mine| + |others| && queue == (mine + others)[n..]
        invariant kept == if n <= |mine| then mine[..n] else mine
      {
        var item := queue[0];
        assert item == (mine + others)[n];
        queue := queue[1..];
        if item.sentence == current.value {
          kept := kept + [item];
        }
        n := n + 1;
      }
    }

    /** Lets the current sentence finish and drops the ones not started. */
    method StopAfterCurrentSentence()
      requires Valid()
      modifies this`queue, this`current, this`holdActive, this`course
      ensures Valid() && !holdActive
      ensures course == if old(course).current.Some? then Stopped(old(course)) else Interrupted(old(course))
    {
      holdActive := false;
      if current.None? {
        Interrupt();
        return;
      }
      OthersDiffer(course);
      FollowsStopped(course, queue, nextId, current);
      queue := TakeCurrent(Items(course.current.value, course.played), Queued(course.pending));
      course := Stopped(course);
    }

    /** Cuts a sentence into frames and queues them. */
    method PushFrames(pcm: seq<int>, id: nat)
      requires |pcm| > 0
      modifies this`queue
      ensures queue == old(queue) + Items(Sentence(id, pcm), 0)
    {
      ghost var s := Sentence(id, pcm);
      var n := Count(pcm);
      for k := 0 to n
        invariant queue + Items(s, k) == old(queue) + Items(s, 0)
      {
        Seqs.Assoc(queue, [Item(Piece(pcm, k), id, k == n - 1)], Items(s, k + 1));
        queue := queue + [Item(Piece(pcm, k), id, k == n - 1)];
      }
    }

    /** Queues a sentence; empty audio is ignored. */
    method Enqueue(pcm: seq<int>)
      requires Valid()
      modifies this`queue, this`nextId, this`course
      ensures Valid()
      ensures course == if pcm == [] then old(course) else Enqueued(old(course), pcm)
    {
      if |pcm| == 0 {
        return;
      }
      FollowsEnqueued(course, queue, nextId, current, pcm);
      PushFrames(pcm, nextId);
      nextId := nextId + 1;
      course := Enqueued(course, pcm);
    }

    /** Puts out the head of the queue. */
    method NextSpeech() returns (samples: seq<int>)
      requires Valid() && Talking(course)
      modifies this`queue, this`current, this`course
      ensures Valid() && |samples| == FRAME
      ensures course == Continued(old(course))
      ensures course.log == old(course.log) + [Speech(Coming(old(course)).0.id, Coming(old(course)).1, samples)]
    {
      FollowsContinued(course, queue, nextId, current);
      var item := queue[0];
      queue := queue[1..];
      current := Some(item.sentence);
      if item.isLast {
        current := None;
      }
      samples := Padded(item.samples);
      course := Continued(course);
    }

    /** The next frame of the hold loop. */
    method NextHold() returns (samples: seq<int>)
      requires Valid() && !Talking(course) && |holdPcm| > 0
      modifies this`holdPos, this`course, this`holdStream
      ensures Valid()
      ensures old(holdPos) < |holdPcm| && samples == HoldFrame(holdPcm, old(holdPos))
      ensures course == Idled(old(course), Hold(samples)) && holdStream == old(holdStream) + samples
    {
      samples := HoldFrame(holdPcm, holdPos);
      FollowsIdled(course, queue, nextId, current, Hold(samples));
      GaplessContinues(holdPcm, holdPos, holdStream);
      course := Idled(course, Hold(samples));
      holdStream := holdStream + samples;
      holdPos := (holdPos + FRAME) % |holdPcm|;
    }

    /** Puts out hold music if it plays, else silence. */
    method NextIdle() returns (samples: seq<int>)
      requires Valid() && !Talking(course)
      modifies this`holdPos, this`course, this`holdStream
      ensures Valid()
      ensures if holdActive && |holdPcm| > 0 then
                && old(holdPos) < |holdPcm| && samples == HoldFrame(holdPcm, old(holdPos))
                && course == Idled(old(course), Hold(samples)) && holdStream == old(holdStream) + samples
              else
                && samples == Zeros(FRAME)
                && course == Idled(old(course), Silence(samples)) && holdStream == old(holdStream)
    {
      if holdActive && |holdPcm| > 0 {
        samples := NextHold();
      } else {
        samples := Zeros(FRAME);
        FollowsIdled(course, queue, nextId, current, Silence(samples));
        course := Idled(course, Silence(samples));
      }
    }

    /** The next frame: of the waiting speech if any, else of the hold music if it
        plays, else silence. Only a hold loop under 960 samples yields less. */
    method NextFrame() returns (samples: seq<int>)
      requires Valid()
      modifies this`queue, this`current, this`holdPos, this`course, this`holdStream
      ensures Valid()
      ensures |samples| == FRAME || (!Talking(old(course)) && holdActive && 0 < |holdPcm| < FRAME)
      ensures if Talking(old(course)) then
                && course == Continued(old(course)) && holdStream == old(holdStream)
                && course.log == old(course.log) + [Speech(Coming(old(course)).0.id, Coming(old(course)).1, samples)]
              else if holdActive && |holdPcm| > 0 then
                && course == Idled(old(course), Hold(samples)) && holdStream == old(holdStream) + samples
              else
                && course == Idled(old(course), Silence(samples)) && samples == Zeros(FRAME)
                && holdStream == old(holdStream)
    {
      HeadIsCurrent(course);
      if queue != [] {
        samples := NextSpeech();
      } else {
        samples := NextIdle();
      }
    }
  }
}
