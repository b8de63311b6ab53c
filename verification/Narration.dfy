/**
 What a changefeed tells its subscribers about the connection: the reader that announces each edge, the
 subscriber that joins and is told the state it joined in, and the teardown that silences both.
 */
module Narration {
  import opened Types

  datatype Marker = Resync | Disconnect

  datatype Heard = Mark(m: Marker) | Key(nk: NSKey)

  /** The fields of a feed that f.mu guards. */
  datatype Feed = Feed(connected: bool, disconnected: bool, closing: bool, subs: set<nat>)

  /** What the feed has announced last. */
  function Announced(f: Feed): Option<Marker> {
    if f.connected then Some(Resync) else if f.disconnected then Some(Disconnect) else None
  }

  /** An edge is announced to everybody subscribed at that moment. */
  function Tell(f: Feed, m: Marker): Feed {
    f.(connected := m.Resync?, disconnected := m.Disconnect?)
  }

  predicate TellsDisconnect(f: Feed) { !f.closing && !f.disconnected }

  predicate TellsResync(f: Feed) { !f.closing }

  predicate TellsRecovery(f: Feed) { !f.closing && f.disconnected }

  class FeedState {
    var connected: bool
    var disconnected: bool
    var closing: bool
    var subs: set<nat>
    var nextID: nat

    ghost function View(): Feed
      reads this
    {
      Feed(connected, disconnected, closing, subs)
    }

    constructor ()
      ensures View() == Feed(false, false, false, {}) && nextID == 0
    {
      connected, disconnected, closing, subs, nextID := false, false, false, {}, 0;
    }

    method BeginDisconnect() returns (told: set<nat>, ok: bool)
      modifies this`connected, this`disconnected
      ensures ok == TellsDisconnect(old(View()))
      ensures View() == if ok then Tell(old(View()), Disconnect) else old(View())
      ensures told == if ok then subs else {}
    {
      if closing || disconnected { return {}, false; }
      connected, disconnected := false, true;
      return subs, true;
    }

    method BeginResync() returns (told: set<nat>, ok: bool)
      modifies this`connected, this`disconnected
      ensures ok == TellsResync(old(View()))
      ensures View() == if ok then Tell(old(View()), Resync) else old(View())
      ensures told == if ok then subs else {}
    {
      if closing { return {}, false; }
      connected, disconnected := true, false;
      return subs, true;
    }

    method BeginResyncAfterOutage() returns (told: set<nat>, ok: bool)
      modifies this`connected, this`disconnected
      ensures ok == TellsRecovery(old(View()))
      ensures View() == if ok then Tell(old(View()), Resync) else old(View())
      ensures told == if ok then subs else {}
    {
      if closing || !disconnected { return {}, false; }
      connected, disconnected := true, false;
      return subs, true;
    }

    /** One hold adds the subscriber and reads what it must be told. */
    method Join() returns (id: nat, joining: Option<Marker>)
      modifies this`subs, this`nextID
      ensures id == old(nextID) + 1 == nextID
      ensures View() == old(View()).(subs := old(subs) + {id}) && joining == Announced(old(View()))
    {
      nextID := nextID + 1;
      id := nextID;
      subs := subs + {id};
      joining := if connected then Some(Resync) else if disconnected then Some(Disconnect) else None;
    }

    method Leave(id: nat)
      modifies this`subs
      ensures View() == old(View()).(subs := old(subs) - {id})
    {
      subs := subs - {id};
    }
  }

  // ----- The reader, the joiners and the teardown -----

  /** Where the one reader goroutine is. Telling and Dispatching carry the subscribers still to be called. */
  datatype Reader =
    | Opened                                  // a connection just opened, not announced
    | Recovered                               // a poll that succeeded
    | Telling(m: Marker, remaining: set<nat>)
    | Reading
    | Dispatching(nk: NSKey, remaining: set<nat>)
    | Lost
    | Down

  datatype Sys = Sys(
    polling: bool,
    feed: Feed,
    reader: Reader,
    joining: map<nat, Option<Marker>>,   // subscribers whose Subscribe still holds their own mutex
    heard: map<nat, seq<Heard>>)

  function Start(polling: bool): Sys {
    Sys(polling, Feed(false, false, false, {}), Opened, map[], map[])
  }

  datatype Action =
    | Join(id: nat)
    | Greet(id: nat)
    | Leave(id: nat)
    | Close
    | Announce
    | Recover
    | Deliver(id: nat)
    | ToldAll
    | Notified(nk: NSKey)
    | DispatchedAll
    | Poll
    | Fail
    | Drop
    | Reopen

  predicate Enabled(s: Sys, a: Action) {
    match a
    case Join(id) => id !in s.heard
    case Greet(id) => id in s.joining && id in s.heard
    case Leave(_) => true
    case Close => true
    case Announce => s.reader.Opened?
    case Recover => s.reader.Recovered?
    case Deliver(id) =>
      // the subscriber's own mutex: a delivery waits for its joining announcement
      id !in s.joining && id in s.heard
      && ((s.reader.Telling? && id in s.reader.remaining) || (s.reader.Dispatching? && id in s.reader.remaining))
    case ToldAll => s.reader.Telling? && s.reader.remaining == {}
    case Notified(_) => s.reader.Reading?
    case DispatchedAll => s.reader.Dispatching? && s.reader.remaining == {}
    case Poll => s.polling && s.reader.Reading?
    case Fail => s.reader.Reading? || s.reader.Down?
    case Drop => s.reader.Lost?
    case Reopen => s.reader.Down?
  }

  function Hear(s: Sys, id: nat, h: Heard): Sys
    requires id in s.heard
  {
    s.(heard := s.heard[id := s.heard[id] + [h]])
  }

  /** Where the reader goes once an announcement has been made, or was not to be. */
  function Past(m: Marker): Reader { if m.Resync? then Reading else Down }

  function TellAll(s: Sys, m: Marker, tells: bool): Sys {
    if tells then s.(feed := Tell(s.feed, m), reader := Telling(m, s.feed.subs)) else s.(reader := Past(m))
  }

  function DeliverStep(s: Sys, id: nat): Sys
    requires Enabled(s, Deliver(id))
  {
    match s.reader
    case Telling(m, remaining) => Hear(s, id, Mark(m)).(reader := Telling(m, remaining - {id}))
    case Dispatching(nk, remaining) => Hear(s, id, Key(nk)).(reader := Dispatching(nk, remaining - {id}))
  }

  function Next(s: Sys, a: Action): Sys
    requires Enabled(s, a)
  {
    match a
    case Join(id) =>
      s.(feed := s.feed.(subs := s.feed.subs + {id}), joining := s.joining[id := Announced(s.feed)],
        heard := s.heard[id := []])
    case Greet(id) =>
      var told := if s.joining[id].Some? then Hear(s, id, Mark(s.joining[id].value)) else s;
      told.(joining := s.joining - {id})
    case Leave(id) => s.(feed := s.feed.(subs := s.feed.subs - {id}))
    case Close => s.(feed := s.feed.(closing := true))
    case Announce => TellAll(s, Resync, TellsResync(s.feed))
    case Recover => TellAll(s, Resync, TellsRecovery(s.feed))
    case Deliver(id) => DeliverStep(s, id)
    case ToldAll => s.(reader := Past(s.reader.m))
    case Notified(nk) => s.(reader := Dispatching(nk, s.feed.subs))
    case DispatchedAll => s.(reader := Reading)
    case Poll => s.(reader := Recovered)
    case Fail => s.(reader := Lost)
    case Drop => TellAll(s, Disconnect, TellsDisconnect(s.feed))
    case Reopen => s.(reader := if s.polling then Recovered else Opened)
  }

  ghost predicate Possible(s: Sys, run: seq<Action>)
    decreases |run|
  {
    |run| > 0 ==> Enabled(s, run[0]) && Possible(Next(s, run[0]), run[1..])
  }

  ghost function After(s: Sys, run: seq<Action>): Sys
    requires Possible(s, run)
    decreases |run|
  {
    if |run| == 0 then s else After(Next(s, run[0]), run[1..])
  }

  // ----- What a subscriber hears -----

  /** The last marker of a history. */
  function LastMark(log: seq<Heard>): Option<Marker> {
    if |log| == 0 then None
    else if log[|log| - 1].Mark? then Some(log[|log| - 1].m)
    else LastMark(log[..|log| - 1])
  }

  /** No edge doubled: every marker differs from the one before it. */
  predicate Alternates(log: seq<Heard>) {
    |log| > 0 ==>
      && Alternates(log[..|log| - 1])
      && (log[|log| - 1].Mark? ==> LastMark(log[..|log| - 1]) != Some(log[|log| - 1].m))
  }

  /** Every key event came while the last marker was a resync. */
  predicate KeysFollowResync(log: seq<Heard>) {
    |log| > 0 ==>
      && KeysFollowResync(log[..|log| - 1])
      && (log[|log| - 1].Key? ==> LastMark(log[..|log| - 1]) == Some(Resync))
  }

  /** What a subscriber will have heard last once its joining announcement is out. */
  function Greeted(s: Sys, id: nat): Option<Marker>
    requires id in s.heard
  {
    if id in s.joining && s.joining[id].Some? then s.joining[id] else LastMark(s.heard[id])
  }

  predicate ToBeTold(s: Sys, id: nat) { s.reader.Telling? && id in s.reader.remaining }

  /** The announcement was cut off by the teardown: it landed before any resync, or during an outage. */
  predicate CutOff(f: Feed) { f.closing && !f.connected }

  /** The reader never announces an edge the feed is already on. */
  predicate OnEdge(s: Sys) {
    && !(s.feed.connected && s.feed.disconnected)
    && (match s.reader
        case Opened => !s.feed.connected || s.feed.closing
        case Recovered => s.feed.connected || s.feed.disconnected || s.feed.closing
        case Telling(m, _) => Announced(s.feed) == Some(m)
        case Reading => s.feed.connected || s.feed.closing
        case Dispatching(_, _) => s.feed.connected || s.feed.closing
        case Lost => s.feed.connected || s.feed.disconnected || s.feed.closing
        case Down => s.feed.disconnected || s.feed.closing)
  }

  /** Where one subscriber stands. */
  predicate Told(s: Sys, id: nat)
    requires id in s.heard
  {
    && Alternates(s.heard[id])
    && (!CutOff(s.feed) ==> KeysFollowResync(s.heard[id]))
    && (id in s.joining ==> s.heard[id] == [])
    && (id in s.feed.subs && !ToBeTold(s, id) ==> Greeted(s, id) == Announced(s.feed))
    && (ToBeTold(s, id) ==> Greeted(s, id) != Some(s.reader.m))
    && (s.reader.Dispatching? && id in s.reader.remaining ==> Greeted(s, id) == Announced(s.feed))
  }

  predicate Inv(s: Sys) {
    && OnEdge(s) && s.joining.Keys <= s.heard.Keys && s.feed.subs <= s.heard.Keys
    && (s.reader.Telling? || s.reader.Dispatching? ==> s.reader.remaining <= s.heard.Keys)
    && forall id :: id in s.heard ==> Told(s, id)
  }

  lemma FrameKept(s: Sys, a: Action)
    requires Inv(s) && Enabled(s, a)
    ensures var s' := Next(s, a);
      && OnEdge(s') && s'.joining.Keys <= s'.heard.Keys && s'.feed.subs <= s'.heard.Keys
      && (s'.reader.Telling? || s'.reader.Dispatching? ==> s'.reader.remaining <= s'.heard.Keys)
  {
    hide Told;
  }

  lemma {:induction false} Hears(log: seq<Heard>, h: Heard)
    ensures LastMark(log + [h]) == if h.Mark? then Some(h.m) else LastMark(log)
    ensures Alternates(log + [h]) <==> Alternates(log) && (h.Mark? ==> LastMark(log) != Some(h.m))
    ensures KeysFollowResync(log + [h]) <==> KeysFollowResync(log) && (h.Key? ==> LastMark(log) == Some(Resync))
  {
    assert (log + [h])[..|log|] == log;
  }

  predicate IsTelling(a: Action) { a.Announce? || a.Recover? || a.Drop? }

  predicate IsSubscriber(a: Action) { a.Join? || a.Greet? || a.Leave? || a.Close? }

  lemma ToldKept(s: Sys, a: Action, id: nat)
    requires Inv(s) && Enabled(s, a) && id in Next(s, a).heard
    ensures Told(Next(s, a), id)
  {
    hide Inv, Next, Told;
    if IsTelling(a) { TellingKeeps(s, a, id); }
    else if IsSubscriber(a) { SubscriberKeeps(s, a, id); }
    else { ReaderKeeps(s, a, id); }
  }

  lemma TellingKeeps(s: Sys, a: Action, id: nat)
    requires Inv(s) && Enabled(s, a) && IsTelling(a) && id in Next(s, a).heard
    ensures Told(Next(s, a), id)
  {
    hide LastMark, Alternates, KeysFollowResync;
    assert Told(s, id);
  }

  lemma SubscriberKeeps(s: Sys, a: Action, id: nat)
    requires Inv(s) && Enabled(s, a) && IsSubscriber(a) && id in Next(s, a).heard
    ensures Told(Next(s, a), id)
  {
    hide LastMark, Alternates, KeysFollowResync;
    NothingHeard();
    if id in s.heard {
      assert Told(s, id);
      if a == Greet(id) && s.joining[id].Some? { GreetHears(s, id); }
    }
  }

  lemma ReaderKeeps(s: Sys, a: Action, id: nat)
    requires Inv(s) && Enabled(s, a) && !IsTelling(a) && !IsSubscriber(a) && id in Next(s, a).heard
    ensures Told(Next(s, a), id)
  {
    hide LastMark, Alternates, KeysFollowResync;
    assert Told(s, id);
    if a == Deliver(id) { DeliverHears(s, id); }
  }

  lemma NothingHeard()
    ensures LastMark([]) == None && Alternates([]) && KeysFollowResync([])
  {
  }

  lemma GreetHears(s: Sys, id: nat)
    requires id in s.heard && id in s.joining && s.joining[id].Some? && Told(s, id)
    ensures var log := Next(s, Greet(id)).heard[id];
      Alternates(log) && KeysFollowResync(log) && LastMark(log) == s.joining[id]
  {
    NothingHeard();
    Hears(s.heard[id], Mark(s.joining[id].value));
  }

  lemma DeliverHears(s: Sys, id: nat)
    requires Enabled(s, Deliver(id)) && Told(s, id) && OnEdge(s)
    ensures var log := DeliverStep(s, id).heard[id];
      && Alternates(log) && (!CutOff(s.feed) ==> KeysFollowResync(log))
      && LastMark(log) == if s.reader.Telling? then Some(s.reader.m) else LastMark(s.heard[id])
  {
    hide LastMark, Alternates, KeysFollowResync;
    Hears(s.heard[id], if s.reader.Telling? then Mark(s.reader.m) else Key(s.reader.nk));
  }

  lemma {:induction false} RunKeepsInv(s: Sys, run: seq<Action>)
    requires Inv(s) && Possible(s, run)
    ensures Inv(After(s, run))
    decreases |run|
  {
    hide Next, Enabled, Told, OnEdge;
    if |run| > 0 {
      FrameKept(s, run[0]);
      forall id | id in Next(s, run[0]).heard ensures Told(Next(s, run[0]), id) { ToldKept(s, run[0], id); }
      RunKeepsInv(Next(s, run[0]), run[1..]);
    }
  }

  ghost predicate Reachable(s: Sys) {
    exists run :: Possible(Start(s.polling), run) && After(Start(s.polling), run) == s
  }

  lemma ReachableInv(s: Sys)
    requires Reachable(s)
    ensures Inv(s)
  {
    hide Next, Enabled;
    var run :| Possible(Start(s.polling), run) && After(Start(s.polling), run) == s;
    RunKeepsInv(Start(s.polling), run);
  }

  /** In every interleaving a subscriber's markers strictly alternate: no edge is told twice. */
  lemma MarkersAlternate(s: Sys, id: nat)
    requires Reachable(s) && id in s.heard
    ensures Alternates(s.heard[id])
  {
    hide Alternates, KeysFollowResync, LastMark;
    ReachableInv(s);
    assert Told(s, id);
  }

  /** And none is missed: with no announcement on its way, the subscriber's last marker is the feed's state. */
  lemma NoEdgeIsMissed(s: Sys, id: nat)
    requires Reachable(s) && id in s.feed.subs && id !in s.joining && !ToBeTold(s, id)
    ensures id in s.heard && LastMark(s.heard[id]) == Announced(s.feed)
  {
    hide Alternates, KeysFollowResync, LastMark;
    ReachableInv(s);
    assert Told(s, id);
  }

  /** While it is open, what a feed has announced is what its reader knows of the connection. */
  lemma FeedTellsTheConnection(s: Sys)
    requires Reachable(s) && !s.feed.closing
    ensures s.reader.Reading? || s.reader.Dispatching? || (s.reader.Telling? && s.reader.m.Resync?) ==>
      s.feed.connected && !s.feed.disconnected
    ensures s.reader.Down? || (s.reader.Telling? && s.reader.m.Disconnect?) ==>
      s.feed.disconnected && !s.feed.connected
  {
    hide Told;
    ReachableInv(s);
  }

  function Marks(log: seq<Heard>): nat {
    if |log| == 0 then 0 else Marks(log[..|log| - 1]) + if log[|log| - 1].Mark? then 1 else 0
  }

  /** Closed, its joining announcement out, and not among those still to be told. */
  predicate Silenced(s: Sys, id: nat) { s.feed.closing && id in s.heard && id !in s.joining && !ToBeTold(s, id) }

  lemma SilenceKept(s: Sys, a: Action, id: nat)
    requires Silenced(s, id) && Enabled(s, a)
    ensures Silenced(Next(s, a), id) && Marks(Next(s, a).heard[id]) == Marks(s.heard[id])
    ensures Next(s, a).feed.connected == s.feed.connected && Next(s, a).feed.disconnected == s.feed.disconnected
  {
    if a == Deliver(id) {
      var log, h := s.heard[id], Key(s.reader.nk);
      assert Next(s, a).heard[id] == log + [h] && (log + [h])[..|log|] == log;
    }
  }

  /** A shutdown is never announced: once a feed is closed no run tells a subscriber of any edge. */
  lemma {:induction false} ClosedFeedAnnouncesNothing(s: Sys, run: seq<Action>, id: nat)
    requires Silenced(s, id) && Possible(s, run)
    ensures Silenced(After(s, run), id) && Marks(After(s, run).heard[id]) == Marks(s.heard[id])
    ensures After(s, run).feed.connected == s.feed.connected && After(s, run).feed.disconnected == s.feed.disconnected
    decreases |run|
  {
    hide Silenced, Next, Enabled, Marks;
    if |run| > 0 {
      SilenceKept(s, run[0], id);
      ClosedFeedAnnouncesNothing(Next(s, run[0]), run[1..], id);
    }
  }

  /** A key event reaches a subscriber only between a resync and the disconnect that follows it. */
  lemma KeysArriveConnected(s: Sys, id: nat)
    requires Reachable(s) && id in s.heard && !CutOff(s.feed)
    ensures KeysFollowResync(s.heard[id])
  {
    hide Alternates, KeysFollowResync, LastMark;
    ReachableInv(s);
    assert Told(s, id);
  }

  /**
   Exactly when a key may be handed on: delivering it leaves the subscriber with every key behind a resync if and
   only if the feed was not cut off. Until the teardown nothing breaks the promise; once it has silenced the
   announcement, every key delivered does. It is the same for streams and for polling.
   */
  lemma KeyKeepsPromise(s: Sys, id: nat)
    requires Reachable(s) && Enabled(s, Deliver(id)) && s.reader.Dispatching?
    ensures KeysFollowResync(Next(s, Deliver(id)).heard[id]) <==> !CutOff(s.feed)
  {
    hide Alternates, KeysFollowResync, LastMark;
    ReachableInv(s);
    assert Told(s, id);
    Hears(s.heard[id], Key(s.reader.nk));
  }

  lemma {:induction false} Prepend(s: Sys, a: Action, rest: seq<Action>)
    requires Enabled(s, a) && Possible(Next(s, a), rest)
    ensures Possible(s, [a] + rest) && After(s, [a] + rest) == After(Next(s, a), rest)
  {
    assert ([a] + rest)[1..] == rest;
  }

  /** Why a cut-off feed is excepted: the teardown silences the announcement, not the events read behind it. */
  lemma CutOffFeedTellsKeysUnannounced(polling: bool, nk: NSKey) returns (run: seq<Action>, s: Sys)
    ensures Possible(Start(polling), run) && After(Start(polling), run) == s
    ensures 0 in s.heard && s.heard[0] == [Key(nk)] && CutOff(s.feed)
    ensures !KeysFollowResync(s.heard[0])
  {
    var s0 := Start(polling);
    var s1 := Next(s0, Join(0));
    var s2 := Next(s1, Greet(0));
    var s3 := Next(s2, Close);
    var s4 := Next(s3, Announce);
    var s5 := Next(s4, Notified(nk));
    s := Next(s5, Deliver(0));
    assert s.heard[0] == [Key(nk)];
    assert [Key(nk)][..0] == [];
    Prepend(s5, Deliver(0), []);
    Prepend(s4, Notified(nk), [Deliver(0)]);
    Prepend(s3, Announce, [Notified(nk)] + [Deliver(0)]);
    Prepend(s2, Close, [Announce] + ([Notified(nk)] + [Deliver(0)]));
    Prepend(s1, Greet(0), [Close] + ([Announce] + ([Notified(nk)] + [Deliver(0)])));
    Prepend(s0, Join(0), [Greet(0)] + ([Close] + ([Announce] + ([Notified(nk)] + [Deliver(0)]))));
    run := [Join(0)] + ([Greet(0)] + ([Close] + ([Announce] + ([Notified(nk)] + [Deliver(0)]))));
  }
}
