/** The state of the player as the session sees it (MusicPlayer::Play, Pause, Open and Close): what
    each call does, given which operations of PortAudio and FFmpeg succeed, and the player itself,
    changed in place. Every call yields the calls of the status callback, by their `playing`
    argument. */
module MusicPlayer {

  datatype StreamStatus = OPEN | EMPTY | PLAYING | PAUSED

  datatype Call = OpenCall | PlayCall | PauseCall | CloseCall

  /** `calls` is what the session asked for. */
  datatype Player = Player(status: StreamStatus, hasCallbacks: bool, volume: nat, calls: seq<Call>)

  const NEW := Player(EMPTY, false, 100, [])

  /** Which operations succeed: starting, stopping and opening a stream. */
  datatype Device = Device(starts: bool, stops: bool, opens: bool)

  datatype Played = Played(player: Player, reports: seq<bool>)

  function Called(p: Player, call: Call): Player {
    p.(calls := p.calls + [call])
  }

  function Report(p: Player, playing: bool): Played {
    Played(p, if p.hasCallbacks then [playing] else [])
  }

  function Started(p: Player, d: Device): Played {
    if p.status in {OPEN, PAUSED} && d.starts then Report(p.(status := PLAYING), true) else Played(p, [])
  }

  function Stopped(p: Player, d: Device): Played {
    if p.status == PLAYING && d.stops then Report(p.(status := PAUSED), false) else Played(p, [])
  }

  /** A stream that cannot be stopped stays open. */
  function Closed(p: Player, d: Device): Played {
    var r := Stopped(p, d);
    if r.player.status in {PAUSED, OPEN} then r.(player := r.player.(status := EMPTY)) else r
  }

  /** Opening closes what is open first; it may end early at any of its checks. */
  function Opened(p: Player, d: Device): Played {
    var r := Closed(p, d);
    if d.opens then r.(player := r.player.(status := OPEN)) else r
  }

  /** The two players differ in their status only. */
  predicate SameBut(p: Player, q: Player) {
    q.hasCallbacks == p.hasCallbacks && q.volume == p.volume && q.calls == p.calls
  }

  /** Starting: a stream that is open or paused plays if the device starts it, with one report if there
      is anyone to report to; in any other case nothing happens. */
  lemma Starting(p: Player, d: Device)
    ensures var r := Started(p, d);
            if (p.status == OPEN || p.status == PAUSED) && d.starts then
              r.player.status == PLAYING && SameBut(p, r.player) && r.reports == if p.hasCallbacks then [true] else []
            else r.player == p && r.reports == []
  {
  }

  /** Stopping: a stream that plays is paused if the device stops it; nothing else changes. */
  lemma Stopping(p: Player, d: Device)
    ensures var r := Stopped(p, d);
            if p.status == PLAYING && d.stops then
              r.player.status == PAUSED && SameBut(p, r.player) && r.reports == if p.hasCallbacks then [false] else []
            else r.player == p && r.reports == []
  {
  }

  /** Closing: a stream that plays and cannot be stopped stays as it is; otherwise none is left, open or
      paused, and what played was reported to have stopped. */
  lemma Closing(p: Player, d: Device)
    ensures var r := Closed(p, d);
            if p.status == PLAYING && !d.stops then r.player == p && r.reports == []
            else
              && r.player.status == EMPTY && SameBut(p, r.player)
              && r.reports == if p.status == PLAYING && p.hasCallbacks then [false] else []
  {
  }

  /** Opening: what was open before is closed first, and then the new stream is open if it can be. */
  lemma Opening(p: Player, d: Device)
    ensures var r := Opened(p, d);
            && SameBut(p, r.player)
            && r.player.status == (if d.opens then OPEN else if p.status == PLAYING && !d.stops then PLAYING else EMPTY)
            && r.reports == if p.status == PLAYING && d.stops && p.hasCallbacks then [false] else []
  {
  }

  class MusicPlayer {
    var status: StreamStatus
    var hasCallbacks: bool
    var volume: nat
    ghost var calls: seq<Call>

    ghost function View(): Player
      reads this
    {
      Player(status, hasCallbacks, volume, calls)
    }

    constructor ()
      ensures View() == NEW
    {
      status, hasCallbacks, volume, calls := EMPTY, false, 100, [];
    }

    method SetCallbacks()
      modifies this`hasCallbacks
      ensures View() == old(View()).(hasCallbacks := true)
    {
      hasCallbacks := true;
    }

    method SetVolume(v: int)
      modifies this`volume
      ensures View() == if 0 <= v <= 100 then old(View()).(volume := v) else old(View())
    {
      if v >= 0 && v <= 100 {
        volume := v;
      }
    }

    method Play(d: Device) returns (reports: seq<bool>)
      modifies this`status, this`calls
      ensures Played(View(), reports) == Started(Called(old(View()), PlayCall), d)
    {
      calls := calls + [PlayCall];
      reports := [];
      if status == OPEN || status == PAUSED {
        if !d.starts {
          return;
        }
        status := PLAYING;
        if hasCallbacks {
          reports := [true];
        }
      }
    }

    method Pause(d: Device) returns (reports: seq<bool>)
      modifies this`status, this`calls
      ensures Played(View(), reports) == Stopped(Called(old(View()), PauseCall), d)
    {
      calls := calls + [PauseCall];
      reports := StopStream(d);
    }

    method StopStream(d: Device) returns (reports: seq<bool>)
      modifies this`status
      ensures Played(View(), reports) == Stopped(old(View()), d)
    {
      reports := [];
      if status == PLAYING {
        if !d.stops {
          return;
        }
        status := PAUSED;
        if hasCallbacks {
          reports := [false];
        }
      }
    }

    method Close(d: Device) returns (reports: seq<bool>)
      modifies this`status, this`calls
      ensures Played(View(), reports) == Closed(Called(old(View()), CloseCall), d)
    {
      calls := calls + [CloseCall];
      reports := CloseStream(d);
    }

    method CloseStream(d: Device) returns (reports: seq<bool>)
      modifies this`status
      ensures Played(View(), reports) == Closed(old(View()), d)
    {
      reports := [];
      if status == PLAYING {
        reports := StopStream(d);
      }
      if status == PAUSED || status == OPEN {
        status := EMPTY;
      }
    }

    method Open(d: Device) returns (reports: seq<bool>)
      modifies this`status, this`calls
      ensures Played(View(), reports) == Opened(Called(old(View()), OpenCall), d)
    {
      calls := calls + [OpenCall];
      reports := [];
      if status != EMPTY {
        reports := CloseStream(d);
      }
      if d.opens {
        status := OPEN;
      }
    }
  }
}
