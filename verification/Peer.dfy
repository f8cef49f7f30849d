/** The peer record of the signaling server as the mutable object it is. */
module PeerRecord {
  import opened Common
  import opened PeerLog

  const EVENT_REPLACED := "replaced"
  const EVENT_SHUTDOWN := "shutdown"

  /**
    The stream a peer is delivered on. Its wake channel has room for one token;
    ending it closes a channel, so it must happen at most once.
   */
  class Attachment {
    var wake: bool
    var ended: Option<string>

    constructor ()
      ensures !wake && ended.None?
    {
      wake, ended := false, None;
    }

    method Poke()
      modifies this`wake
      ensures wake
    {
      wake := true;
    }

    method End(reason: string)
      requires ended.None?
      modifies this`ended
      ensures ended == Some(reason)
    {
      ended := Some(reason);
    }
  }

  class Peer {
    const cfg: Config
    var seqNo: nat
    var sentUpTo: nat
    var log: seq<Entry>
    var stream: Attachment?
    var reaper: bool
    var down: bool

    ghost function State(): PeerState<Attachment>
      reads this
    {
      var current: Option<Attachment> := if stream == null then None else Some(stream);
      PeerState(seqNo, sentUpTo, log, current, reaper, down)
    }

    ghost predicate Valid()
      reads this, stream
    {
      Inv(cfg, State()) && (stream != null ==> stream.ended.None?)
    }

    constructor (cfg: Config)
      ensures Valid() && State() == NewPeer() && this.cfg == cfg
    {
      this.cfg := cfg;
      seqNo, sentUpTo, log, stream, reaper, down := 0, 0, [], null, true, false;
    }

    /** The recipient's queue: a full queue or a record that is down refuses the signal. */
    method Enqueue(data: string) returns (ok: bool)
      requires Valid()
      modifies this`seqNo, this`log, stream
      ensures Valid()
      ensures ok <==> old(!down && seqNo - sentUpTo < cfg.queueSize)
      ensures State() == PeerLog.Enqueue(cfg, old(State()), data)
      ensures ok ==> seqNo == old(seqNo) + 1 && log == old(log) + [Entry(seqNo, data)]
      ensures !ok ==> seqNo == old(seqNo) && log == old(log)
      ensures stream != null ==> stream.wake == (old(stream.wake) || ok)
    {
      if down { return false; }
      var lag: nat := seqNo - sentUpTo;
      if lag >= cfg.queueSize { return false; }
      seqNo := seqNo + 1;
      log := log + [Entry(seqNo, data)];
      if stream != null { stream.Poke(); }
      ok := true;
    }

    method Attach(att: Attachment, lastID: nat)
      requires Valid() && att != stream && att.ended.None?
      modifies this, stream, att
      ensures Valid()
      ensures State() == PeerLog.Attach(old(State()), att, lastID)
      ensures stream == att && !reaper && log == old(log) && seqNo == old(seqNo) && down == old(down)
      ensures sentUpTo == if lastID >= old(sentUpTo) then old(sentUpTo)
                          else Max(lastID, if log == [] then seqNo else log[0].id - 1)
      ensures old(stream) != null ==> old(stream).ended == Some(EVENT_REPLACED)
      ensures att.wake && att.ended.None?
    {
      AttachKeepsInv(cfg, State(), att, lastID);
      if stream != null { stream.End(EVENT_REPLACED); }
      stream := att;
      reaper := false;
      if lastID < sentUpTo {
        var floor: nat := seqNo;
        if |log| > 0 {
          floor := log[0].id - 1;
        }
        sentUpTo := if lastID < floor then floor else lastID;
      }
      att.Poke();
    }

    method Detach(att: Attachment)
      requires Valid()
      modifies this`stream, this`reaper
      ensures Valid()
      ensures State() == PeerLog.Detach(old(State()), att)
      ensures old(stream) != att ==> stream == old(stream) && reaper == old(reaper)
      ensures old(stream) == att ==> stream == null && reaper == (old(reaper) || !down)
    {
      if stream != att { return; }
      stream := null;
      if !down { reaper := true; }
    }

    /** The scan of TakeUnsent for the first entry above the cursor. */
    method FirstUnsent() returns (start: nat)
      requires Valid()
      ensures start <= |log| && log[start..] == Unsent(log, sentUpTo)
    {
      start := |log|;
      for i := 0 to |log|
        invariant start == |log|
        invariant forall e <- log[..i] :: e.id <= sentUpTo
      {
        if log[i].id > sentUpTo {
          start := i;
          break;
        }
      }
      ScanFindsUnsent(log, sentUpTo, start);
    }

    method TakeUnsent(att: Attachment) returns (out: seq<Entry>)
      requires Valid()
      modifies this`sentUpTo, this`log
      ensures Valid()
      ensures out == Taken(old(State()), att)
      ensures State() == PeerLog.TakeUnsent(cfg, old(State()), att)
      ensures stream != att ==> out == [] && sentUpTo == old(sentUpTo) && log == old(log)
    {
      if stream != att { return []; }
      TakeKeepsInv(cfg, State(), att);
      var start := FirstUnsent();
      out := log[start..];
      MarkSent(out);
      Trim();
    }

    method MarkSent(out: seq<Entry>)
      modifies this`sentUpTo
      ensures sentUpTo == if out == [] then old(sentUpTo) else Last(out).id
    {
      if |out| > 0 {
        sentUpTo := out[|out| - 1].id;
      }
    }

    /** Keep only the replay window. */
    method Trim()
      modifies this`log
      ensures log == Newest(old(log), cfg.replayDepth)
    {
      if |log| > cfg.replayDepth {
        log := log[|log| - cfg.replayDepth..];
      }
    }

    /** The grace timer fires. */
    method Expire() returns (forget: bool)
      requires Valid()
      modifies this`log, this`reaper, this`down
      ensures Valid()
      ensures State() == PeerLog.Expire(old(State()))
      ensures forget <==> old(!down && stream == null)
      ensures forget ==> down && log == [] && !reaper
      ensures !forget ==> down == old(down) && log == old(log) && reaper == old(reaper)
    {
      if stream != null || down { return false; }
      down, log, reaper := true, [], false;
      forget := true;
    }

    method Shutdown()
      requires Valid()
      modifies this, stream
      ensures Valid()
      ensures State() == PeerLog.Shutdown(old(State()))
      ensures down && log == [] && !reaper && stream == null
      ensures old(stream) != null ==> old(stream).ended == Some(EVENT_SHUTDOWN)
    {
      down, log, reaper := true, [], false;
      if stream != null {
        stream.End(EVENT_SHUTDOWN);
        stream := null;
      }
    }
  }
}
