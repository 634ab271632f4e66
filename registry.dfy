/**
 * The "waiting for avatar" registry as a state machine over the set of armed
 * sessions. Each event is one atomic step of the plugin's event loop: the
 * upload command, the firing of an expiry timer, the synchronous part of the
 * message handler (gate, scan, disarm), and plugin teardown.
 */
module Registry {
  import opened Session

  /** What the synchronous part of the message handler decides. */
  datatype Decision =
    | Ignore                 // the session is not armed: no reply, no change
    | Remind                 // armed, but no usable image URL: reminder, stay armed
    | Capture(url: string)   // armed with an image URL: disarm, then fetch `url`

  datatype Event =
    | Command(sid: SessionId)                           // the upload command
    | Expiry(sid: SessionId)                            // the session's timer fires
    | Message(sid: SessionId, chain: seq<Segment>)      // any inbound message
    | Teardown                                          // plugin unload

  /** The decision the message handler takes for `sid` while `armed` are the armed sessions. */
  function Decide(armed: set<SessionId>, sid: SessionId, chain: seq<Segment>): (d: Decision)
    ensures d == Ignore <==> sid !in armed
    ensures d == Remind <==> sid in armed && !Usable(FirstImageUrl(chain))
    ensures d.Capture? <==> sid in armed && Usable(FirstImageUrl(chain))
    ensures d.Capture? ==> FirstImageUrl(chain) == Some(d.url)
  {
    if sid !in armed then Ignore
    else match FirstImageUrl(chain)
      case Some(u) => if u != "" then Capture(u) else Remind
      case None => Remind
  }

  /** The armed sessions after one event. */
  function Next(armed: set<SessionId>, e: Event): (r: set<SessionId>)
    ensures e.Teardown? ==> r == {}
    ensures !e.Teardown? ==> r - {e.sid} == armed - {e.sid}
    ensures e.Command? ==> e.sid in r
    ensures !e.Command? ==> r <= armed
  {
    match e
    case Command(s) => armed + {s}
    case Expiry(s) => if s in armed then armed - {s} else armed
    case Message(s, chain) => if Decide(armed, s, chain).Capture? then armed - {s} else armed
    case Teardown => {}
  }

  /** The armed sessions after a whole trace of events. */
  function Run(armed: set<SessionId>, trace: seq<Event>): set<SessionId>
    decreases |trace|
  {
    if trace == [] then armed else Run(Next(armed, trace[0]), trace[1..])
  }

  /** Whether event `e`, taken while `armed` are armed, starts a fetch-and-set flow for `sid`. */
  predicate StartsFlow(armed: set<SessionId>, e: Event, sid: SessionId)
  {
    e.Message? && e.sid == sid && Decide(armed, sid, e.chain).Capture?
  }

  /** How many fetch-and-set flows a trace starts for `sid`. */
  function Flows(armed: set<SessionId>, trace: seq<Event>, sid: SessionId): nat
    decreases |trace|
  {
    if trace == [] then 0
    else (if StartsFlow(armed, trace[0], sid) then 1 else 0)
         + Flows(Next(armed, trace[0]), trace[1..], sid)
  }

  /** No upload command for `sid` occurs in `trace`. */
  ghost predicate NoCommandFor(trace: seq<Event>, sid: SessionId)
  {
    forall i :: 0 <= i < |trace| ==> trace[i] != Command(sid)
  }

  /**
   * Arming: the session is armed afterwards, arming twice is the same as
   * arming once (a set, not a counter), and no other session changes.
   */
  lemma CommandArms(armed: set<SessionId>, s: SessionId, t: SessionId)
    ensures s in Next(armed, Command(s))
    ensures Next(Next(armed, Command(s)), Command(s)) == Next(armed, Command(s))
    ensures t != s ==> (t in Next(armed, Command(s)) <==> t in armed)
  {
  }

  /**
   * Expiry: removes the session if present, is a no-op when it was already
   * disarmed, firing twice equals firing once, and no other session changes.
   */
  lemma ExpiryDisarms(armed: set<SessionId>, s: SessionId, t: SessionId)
    ensures Next(armed, Expiry(s)) == armed - {s}
    ensures s !in armed ==> Next(armed, Expiry(s)) == armed
    ensures Next(Next(armed, Expiry(s)), Expiry(s)) == Next(armed, Expiry(s))
    ensures t != s ==> (t in Next(armed, Expiry(s)) <==> t in armed)
  {
  }

  /**
   * Messages: an unarmed session's message changes nothing; an armed
   * session without a usable image stays armed; one with a usable image is
   * disarmed; no other session is ever affected.
   */
  lemma MessageStep(armed: set<SessionId>, s: SessionId, chain: seq<Segment>, t: SessionId)
    ensures s !in armed ==> Next(armed, Message(s, chain)) == armed
    ensures s in armed && !Usable(FirstImageUrl(chain)) ==> Next(armed, Message(s, chain)) == armed
    ensures s in armed && Usable(FirstImageUrl(chain)) ==> Next(armed, Message(s, chain)) == armed - {s}
    ensures t != s ==> (t in Next(armed, Message(s, chain)) <==> t in armed)
  {
  }

  /** Teardown leaves no session armed. */
  lemma TeardownClears(armed: set<SessionId>)
    ensures Next(armed, Teardown) == {}
  {
  }

  /**
   * A disarmed session stays disarmed, and starts no flow, until the next
   * upload command for it.
   */
  lemma {:induction false} DisarmedStaysDisarmed(armed: set<SessionId>, trace: seq<Event>, sid: SessionId)
    requires sid !in armed
    requires NoCommandFor(trace, sid)
    ensures sid !in Run(armed, trace)
    ensures Flows(armed, trace, sid) == 0
    decreases |trace|
  {
    if trace != [] {
      assert trace[0] != Command(sid);
      assert NoCommandFor(trace[1..], sid) by {
        forall i | 0 <= i < |trace[1..]| ensures trace[1..][i] != Command(sid) {
          assert trace[1..][i] == trace[i + 1];
        }
      }
      DisarmedStaysDisarmed(Next(armed, trace[0]), trace[1..], sid);
    }
  }

  /**
   * Between two upload commands for a session, at most one fetch-and-set
   * flow starts for it, and once one has started the session is disarmed
   * for the rest of the trace: disarming happens in the same atomic step as
   * the decision to fetch, so a second message sees the session unarmed.
   */
  lemma {:induction false} AtMostOneFlow(armed: set<SessionId>, trace: seq<Event>, sid: SessionId)
    requires NoCommandFor(trace, sid)
    ensures Flows(armed, trace, sid) <= 1
    ensures Flows(armed, trace, sid) == 1 ==> sid !in Run(armed, trace)
    decreases |trace|
  {
    if trace != [] {
      var next := Next(armed, trace[0]);
      assert trace[0] != Command(sid);
      assert NoCommandFor(trace[1..], sid) by {
        forall i | 0 <= i < |trace[1..]| ensures trace[1..][i] != Command(sid) {
          assert trace[1..][i] == trace[i + 1];
        }
      }
      if StartsFlow(armed, trace[0], sid) {
        assert sid !in next;
        DisarmedStaysDisarmed(next, trace[1..], sid);
      } else {
        AtMostOneFlow(next, trace[1..], sid);
      }
    }
  }

  /**
   * A capture and an expiry for the same session, in either order: the
   * session ends disarmed and at most one flow runs (exactly one only when
   * the capture comes first on an armed session).
   */
  lemma CaptureExpiryRace(armed: set<SessionId>, s: SessionId, chain: seq<Segment>)
    requires Usable(FirstImageUrl(chain))
    ensures s !in Run(armed, [Message(s, chain), Expiry(s)])
    ensures s !in Run(armed, [Expiry(s), Message(s, chain)])
    ensures Flows(armed, [Message(s, chain), Expiry(s)], s) == (if s in armed then 1 else 0)
    ensures Flows(armed, [Expiry(s), Message(s, chain)], s) == 0
  {
    var mFirst := [Message(s, chain), Expiry(s)];
    var eFirst := [Expiry(s), Message(s, chain)];
    assert mFirst[1..] == [Expiry(s)] && [Expiry(s)][1..] == [];
    assert eFirst[1..] == [Message(s, chain)] && [Message(s, chain)][1..] == [];
    var afterCapture := Next(armed, Message(s, chain));
    assert s !in afterCapture;
    assert Run(armed, mFirst) == Run(afterCapture, [Expiry(s)]) == Next(afterCapture, Expiry(s));
    assert Flows(armed, mFirst, s)
        == (if s in armed then 1 else 0) + Flows(afterCapture, [Expiry(s)], s);
  }

  /**
   * The scan stops at the first image even when its URL is empty: the
   * armed session is reminded, whatever images come later.
   */
  lemma EmptyFirstImageReminds(armed: set<SessionId>, sid: SessionId, before: seq<Segment>, rest: seq<Segment>)
    requires sid in armed
    requires NoImage(before)
    ensures Decide(armed, sid, before + [Image(Some(""))] + rest) == Remind
  {
    var chain := before + [Image(Some(""))] + rest;
    assert chain[|before|] == Image(Some(""));
    FirstImageUrlIsFirst(chain, |before|);
  }

  /**
   * A second flow for a session can happen: an upload command while the
   * first flow is still in progress re-arms it, and the next image starts
   * another flow on the same temporary path. By AtMostOneFlow, such a
   * re-arming command is the only way to a second flow.
   */
  lemma RearmAllowsSecondFlow(armed: set<SessionId>, s: SessionId, chain: seq<Segment>)
    requires Usable(FirstImageUrl(chain))
    ensures Flows(armed, [Command(s), Message(s, chain), Command(s), Message(s, chain)], s) == 2
  {
    var trace := [Command(s), Message(s, chain), Command(s), Message(s, chain)];
    var w1 := Next(armed, Command(s));
    var w2 := Next(w1, Message(s, chain));
    var w3 := Next(w2, Command(s));
    assert trace[1..] == [Message(s, chain), Command(s), Message(s, chain)];
    assert trace[1..][1..] == [Command(s), Message(s, chain)];
    assert trace[1..][1..][1..] == [Message(s, chain)];
    assert Flows(w3, [Message(s, chain)], s) == 1 by {
      assert [Message(s, chain)][1..] == [];
    }
    assert Flows(w1, trace[1..], s) == 1 + Flows(w2, trace[1..][1..], s);
  }
}
