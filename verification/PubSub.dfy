/** src/pubsub.rs: subscribers, their backlogs, and the workers that drain them, as a machine of atomic steps. One lock
    guards everything but the running flags: while a notification holds it, workers can neither poll nor be joined by
    another notification, yet may start, finish a callback, or clear their flag. */
module PubSub {
  import opened Common

  /** A subscriber. `active` once it has a callback. An unregistered one is only still known to its worker. */
  datatype Sub<+M> = Sub(channel: string, registered: bool, active: bool, running: bool, backlog: seq<M>)

  /** Where a worker is: waiting for a thread, about to poll, in the callback, or past its last poll. */
  datatype Phase<+M> = Queued | Polling | Calling(m: M) | Stopping

  datatype Worker<+M> = Worker(sub: nat, phase: Phase<M>)

  /** The lock: free, or held by a notification with subscribers still to serve, one of them perhaps half done. */
  datatype Lock<+M> = Free | Notifying(m: M, todo: set<nat>, pushed: Option<nat>)

  datatype State<+M> = State(subs: seq<Sub<M>>, workers: map<nat, Worker<M>>, nextWorker: nat, lock: Lock<M>)

  datatype Event<+M> =
    | Subscribe(channel: string, active: bool)
    | Activate(id: nat)
    | Unregister(id: nat)
    | Notify(channel: string, m: M, except: Option<nat>)
    | Push(id: nat)
    | Schedule
    | Release
    | Start(w: nat)
    | Poll(w: nat)
    | Finish(w: nat)
    | Clear(w: nat)

  /** The subscribers a notification reaches. */
  predicate Reached<M>(s: State<M>, channel: string, except: Option<nat>, id: nat) {
    id < |s.subs| && s.subs[id].registered && s.subs[id].channel == channel && Some(id) != except
  }

  function Receivers<M>(s: State<M>, channel: string, except: Option<nat>): set<nat> {
    set id | 0 <= id < |s.subs| && Reached(s, channel, except, id)
  }

  /** `schedule_worker`: if no worker runs, mark one as running and queue it; without a callback take the mark back. */
  function Scheduled<M>(s: State<M>, id: nat): State<M>
    requires id < |s.subs|
  {
    if s.subs[id].running || !s.subs[id].active then s
    else s.(subs := s.subs[id := s.subs[id].(running := true)],
            workers := s.workers[s.nextWorker := Worker(id, Queued)],
            nextWorker := s.nextWorker + 1)
  }

  /** Whether a step can be taken. */
  predicate Enabled<M>(s: State<M>, ev: Event<M>) {
    match ev
    case Subscribe(_, _) => s.lock.Free?
    case Activate(id) => s.lock.Free? && id < |s.subs| && s.subs[id].registered && !s.subs[id].active
    case Unregister(id) => s.lock.Free? && id < |s.subs| && s.subs[id].registered
    case Notify(_, _, _) => s.lock.Free?
    case Push(id) => s.lock.Notifying? && s.lock.pushed.None? && id in s.lock.todo && id < |s.subs|
    case Schedule => s.lock.Notifying? && s.lock.pushed.Some? && s.lock.pushed.value < |s.subs|
    case Release => s.lock.Notifying? && s.lock.pushed.None? && s.lock.todo == {}
    case Start(w) => w in s.workers && s.workers[w].phase.Queued?
    case Poll(w) => s.lock.Free? && w in s.workers && s.workers[w].phase.Polling? && s.workers[w].sub < |s.subs|
    case Finish(w) => w in s.workers && s.workers[w].phase.Calling?
    case Clear(w) => w in s.workers && s.workers[w].phase.Stopping? && s.workers[w].sub < |s.subs|
  }

  function Moved<M>(s: State<M>, w: nat, phase: Phase<M>): State<M>
    requires w in s.workers
  {
    s.(workers := s.workers[w := s.workers[w].(phase := phase)])
  }

  /** One turn of the draining loop: take the oldest message, or stop for good. */
  function Polled<M>(s: State<M>, w: nat): State<M>
    requires w in s.workers && s.workers[w].sub < |s.subs|
  {
    var id := s.workers[w].sub;
    var sub := s.subs[id];
    if sub.registered && sub.backlog != [] then
      Moved(s.(subs := s.subs[id := sub.(backlog := sub.backlog[1..])]), w, Calling(sub.backlog[0]))
    else Moved(s, w, Stopping)
  }

  function Next<M>(s: State<M>, ev: Event<M>): State<M>
    requires Enabled(s, ev)
  {
    match ev
    case Subscribe(channel, active) => s.(subs := s.subs + [Sub(channel, true, active, false, [])])
    case Activate(id) => Scheduled(s.(subs := s.subs[id := s.subs[id].(active := true)]), id)
    case Unregister(id) => s.(subs := s.subs[id := s.subs[id].(registered := false, backlog := [])])
    case Notify(channel, m, except) => s.(lock := Notifying(m, Receivers(s, channel, except), None))
    case Push(id) =>
      s.(subs := s.subs[id := s.subs[id].(backlog := s.subs[id].backlog + [s.lock.m])],
         lock := Notifying(s.lock.m, s.lock.todo - {id}, Some(id)))
    case Schedule => Scheduled(s.(lock := Notifying(s.lock.m, s.lock.todo, None)), s.lock.pushed.value)
    case Release => s.(lock := Free)
    case Start(w) => Moved(s, w, Polling)
    case Poll(w) => Polled(s, w)
    case Finish(w) => Moved(s, w, Polling)
    case Clear(w) =>
      var id := s.workers[w].sub;
      s.(subs := s.subs[id := s.subs[id].(running := false)], workers := s.workers - {w})
  }

  // Runs.

  function Empty<M>(): State<M> {
    State([], map[], 0, Free)
  }

  /** The state after a run, if every step of it could be taken. */
  function Run<M>(evs: seq<Event<M>>): Option<State<M>> {
    if evs == [] then Some(Empty())
    else
      var before := Run(evs[..|evs| - 1]);
      if before.Some? && Enabled(before.value, evs[|evs| - 1]) then Some(Next(before.value, evs[|evs| - 1])) else None
  }

  /** The channels subscribed to, by number of the subscriber. */
  function Channels<M>(evs: seq<Event<M>>): seq<string> {
    if evs == [] then []
    else
      var ev := evs[|evs| - 1];
      Channels(evs[..|evs| - 1]) + if ev.Subscribe? then [ev.channel] else []
  }

  /** After these calls the subscriber listens to the channel: it subscribed to it and was not unregistered. */
  predicate Listens<M(==)>(evs: seq<Event<M>>, id: nat, channel: string) {
    id < |Channels(evs)| && Channels(evs)[id] == channel && Unregister(id) !in evs
  }

  /** The messages notified to a subscriber while it listened, without those it was excluded from, told from the calls
      alone. */
  function Heard<M(==)>(evs: seq<Event<M>>, id: nat): seq<M> {
    if evs == [] then []
    else
      var n := |evs| - 1;
      Heard(evs[..n], id) +
      if evs[n].Notify? && Listens(evs[..n], id, evs[n].channel) && evs[n].except != Some(id) then [evs[n].m] else []
  }

  lemma SubsStep<M>(s: State<M>, ev: Event<M>)
    requires Enabled(s, ev)
    ensures var t := Next(s, ev);
            && |t.subs| == |s.subs| + (if ev.Subscribe? then 1 else 0)
            && (forall id :: 0 <= id < |s.subs| ==>
                  && t.subs[id].channel == s.subs[id].channel
                  && (t.subs[id].registered <==> s.subs[id].registered && ev != Unregister(id)))
            && (ev.Subscribe? ==> t.subs[|s.subs|].channel == ev.channel && t.subs[|s.subs|].registered)
            && (ev.Unregister? ==> ev.id < |s.subs|)
  {
    hide Receivers;
  }

  /** Subscribers keep the channel they subscribed to, and stay registered until they are unregistered. */
  lemma {:induction false} SubsAre<M>(evs: seq<Event<M>>)
    requires Run(evs).Some?
    ensures |Run(evs).value.subs| == |Channels(evs)|
    ensures forall id :: 0 <= id < |Channels(evs)| ==>
              && Run(evs).value.subs[id].channel == Channels(evs)[id]
              && (Run(evs).value.subs[id].registered <==> Unregister(id) !in evs)
    ensures forall id: nat :: Unregister(id) in evs ==> id < |Channels(evs)|
  {
    hide Enabled, Next;
    if evs != [] {
      var before, ev := evs[..|evs| - 1], evs[|evs| - 1];
      SubsAre(before);
      SubsStep(Run(before).value, ev);
      forall id: nat ensures Unregister(id) in evs <==> Unregister(id) in before || ev == Unregister(id) {
        assert evs == before + [ev];
      }
    }
  }

  /** The messages its callback has returned from. */
  function Delivered<M>(evs: seq<Event<M>>, id: nat): seq<M> {
    if evs == [] then []
    else
      var n := |evs| - 1;
      var before := Run(evs[..n]);
      Delivered(evs[..n], id) +
      if evs[n].Finish? && before.Some? && Enabled(before.value, evs[n]) && before.value.workers[evs[n].w].sub == id
      then [before.value.workers[evs[n].w].phase.m] else []
  }

  // One worker at a time.

  /** No subscriber has two workers. */
  ghost predicate Apart<M>(workers: map<nat, Worker<M>>) {
    forall v, w :: v in workers && w in workers && workers[v].sub == workers[w].sub ==> v == w
  }

  predicate Busy<M>(s: State<M>, id: nat) {
    exists w :: w in s.workers && s.workers[w].sub == id
  }

  /** Workers belong to subscribers, no subscriber has two, and the flag says whether there is one. */
  ghost predicate OneWorker<M>(s: State<M>) {
    && (forall w :: w in s.workers ==>
          w < s.nextWorker && s.workers[w].sub < |s.subs| && s.subs[s.workers[w].sub].running)
    && Apart(s.workers)
    && (forall id: nat :: id < |s.subs| && s.subs[id].running ==> Busy(s, id))
  }

  predicate LockSound<M>(s: State<M>) {
    s.lock.Notifying? ==>
      && (forall id :: id in s.lock.todo ==> id < |s.subs| && s.subs[id].registered)
      && (s.lock.pushed.Some? ==> s.lock.pushed.value < |s.subs| && s.lock.pushed.value !in s.lock.todo)
  }

  lemma ScheduleKeeps<M>(s: State<M>, id: nat)
    requires OneWorker(s) && id < |s.subs|
    ensures OneWorker(Scheduled(s, id))
  {
    var t := Scheduled(s, id);
    if !s.subs[id].running && s.subs[id].active {
      forall i: nat | i < |t.subs| && t.subs[i].running ensures Busy(t, i) {
        if i == id {
          assert t.workers[s.nextWorker].sub == id;
        } else {
          StillBusy(s, t, i, s.nextWorker);
        }
      }
    }
    hide Busy;
  }

  /** A worker other than the one that changed still keeps its subscriber busy. */
  lemma StillBusy<M>(s: State<M>, t: State<M>, id: nat, changed: nat)
    requires Busy(s, id)
    requires forall w :: w in s.workers && w != changed ==> w in t.workers && t.workers[w].sub == s.workers[w].sub
    requires changed in s.workers && s.workers[changed].sub == id ==>
             changed in t.workers && t.workers[changed].sub == id
    ensures Busy(t, id)
  {
    var w :| w in s.workers && s.workers[w].sub == id;
    assert w in t.workers && t.workers[w].sub == id;
  }

  lemma MoveKeeps<M>(s: State<M>, w: nat, phase: Phase<M>)
    requires OneWorker(s) && w in s.workers
    ensures OneWorker(Moved(s, w, phase))
  {
    var t := Moved(s, w, phase);
    forall i: nat | i < |t.subs| && t.subs[i].running ensures Busy(t, i) {
      StillBusy(s, t, i, w);
    }
    hide Busy;
  }

  /** Changes to subscribers that leave the flags alone. */
  lemma SubKeeps<M>(s: State<M>, id: nat, sub: Sub<M>)
    requires OneWorker(s) && id < |s.subs| && sub.running == s.subs[id].running
    ensures OneWorker(s.(subs := s.subs[id := sub]))
  {
    var t := s.(subs := s.subs[id := sub]);
    forall i: nat | i < |t.subs| && t.subs[i].running ensures Busy(t, i) {
      StillBusy(s, t, i, s.nextWorker);
    }
    hide Busy;
  }

  lemma ClearKeeps<M>(s: State<M>, w: nat)
    requires OneWorker(s) && Enabled(s, Clear(w))
    ensures OneWorker(Next(s, Clear(w)))
  {
    var t := Next(s, Clear(w));
    forall i: nat | i < |t.subs| && t.subs[i].running ensures Busy(t, i) {
      assert i != s.workers[w].sub && s.subs[i].running;
      StillBusy(s, t, i, w);
    }
    hide Busy;
  }

  lemma SubscribeKeeps<M>(s: State<M>, channel: string, active: bool)
    requires OneWorker(s)
    ensures OneWorker(s.(subs := s.subs + [Sub(channel, true, active, false, [])]))
  {
    var t := s.(subs := s.subs + [Sub(channel, true, active, false, [])]);
    forall i: nat | i < |t.subs| && t.subs[i].running ensures Busy(t, i) {
      assert s.subs[i].running;
      StillBusy(s, t, i, s.nextWorker);
    }
    hide Busy;
  }

  lemma LockKeeps<M>(s: State<M>, lock: Lock<M>)
    requires OneWorker(s)
    ensures OneWorker(s.(lock := lock))
  {
    var t := s.(lock := lock);
    forall i: nat | i < |t.subs| && t.subs[i].running ensures Busy(t, i) {
      StillBusy(s, t, i, s.nextWorker);
    }
    hide Busy;
  }

  lemma PollKeeps<M>(s: State<M>, w: nat)
    requires OneWorker(s) && w in s.workers && s.workers[w].sub < |s.subs|
    ensures OneWorker(Polled(s, w))
  {
    hide OneWorker, Moved;
    var id := s.workers[w].sub;
    var sub := s.subs[id];
    if sub.registered && sub.backlog != [] {
      var less := sub.(backlog := sub.backlog[1..]);
      SubKeeps(s, id, less);
      MoveKeeps(s.(subs := s.subs[id := less]), w, Calling(sub.backlog[0]));
    } else {
      MoveKeeps(s, w, Stopping);
    }
  }

  lemma StepKeepsLock<M>(s: State<M>, ev: Event<M>)
    requires LockSound(s) && Enabled(s, ev)
    ensures LockSound(Next(s, ev))
  {
  }

  lemma StepKeepsWorkers<M>(s: State<M>, ev: Event<M>)
    requires OneWorker(s) && Enabled(s, ev)
    ensures OneWorker(Next(s, ev))
  {
    hide OneWorker, Scheduled, Moved, Polled, Receivers;
    match ev
    case Subscribe(channel, active) => SubscribeKeeps(s, channel, active);
    case Activate(id) =>
      SubKeeps(s, id, s.subs[id].(active := true));
      ScheduleKeeps(s.(subs := s.subs[id := s.subs[id].(active := true)]), id);
    case Unregister(id) => SubKeeps(s, id, s.subs[id].(registered := false, backlog := []));
    case Notify(channel, m, except) => LockKeeps(s, Notifying(m, Receivers(s, channel, except), None));
    case Push(id) =>
      var more := s.subs[id].(backlog := s.subs[id].backlog + [s.lock.m]);
      SubKeeps(s, id, more);
      LockKeeps(s.(subs := s.subs[id := more]), Notifying(s.lock.m, s.lock.todo - {id}, Some(id)));
    case Schedule =>
      LockKeeps(s, Notifying(s.lock.m, s.lock.todo, None));
      ScheduleKeeps(s.(lock := Notifying(s.lock.m, s.lock.todo, None)), s.lock.pushed.value);
    case Release => LockKeeps(s, Free);
    case Start(w) => MoveKeeps(s, w, Polling);
    case Poll(w) => PollKeeps(s, w);
    case Finish(w) => MoveKeeps(s, w, Polling);
    case Clear(w) => ClearKeeps(s, w);
  }

  /** Over every interleaving at most one worker serves a subscriber, and its flag is set exactly while there is one. */
  lemma {:induction false} AtMostOneWorker<M>(evs: seq<Event<M>>)
    requires Run(evs).Some?
    ensures OneWorker(Run(evs).value) && LockSound(Run(evs).value)
  {
    hide OneWorker, LockSound, Enabled, Next;
    if evs == [] {
      NoWorkers<M>();
    } else {
      AtMostOneWorker(evs[..|evs| - 1]);
      StepKeepsWorkers(Run(evs[..|evs| - 1]).value, evs[|evs| - 1]);
      StepKeepsLock(Run(evs[..|evs| - 1]).value, evs[|evs| - 1]);
    }
  }

  lemma NoWorkers<M>()
    ensures OneWorker(Empty<M>()) && LockSound(Empty<M>())
  {
  }

  // First in, first out.

  /** The message a subscriber's callback is working on. */
  ghost function InFlight<M>(workers: map<nat, Worker<M>>, id: nat): seq<M> {
    if w :| w in workers && workers[w].sub == id && workers[w].phase.Calling? then [workers[w].phase.m] else []
  }

  /** The message a notification under way has yet to put into a subscriber's backlog. */
  function Pending<M>(s: State<M>, id: nat): seq<M> {
    if s.lock.Notifying? && id in s.lock.todo then [s.lock.m] else []
  }

  /** What was delivered, is in the callback, waits in the backlog or is about to be put there, is what was heard; once
      unregistered, what was delivered and is in the callback is a prefix of it. */
  ghost predicate Fifo<M>(s: State<M>, id: nat, heard: seq<M>, delivered: seq<M>) {
    if id >= |s.subs| then heard == [] && delivered == []
    else if s.subs[id].registered then
      delivered + (InFlight(s.workers, id) + (s.subs[id].backlog + Pending(s, id))) == heard
    else delivered + InFlight(s.workers, id) <= heard
  }

  lemma InFlightOf<M>(workers: map<nat, Worker<M>>, w: nat)
    requires Apart(workers) && w in workers
    ensures InFlight(workers, workers[w].sub) == if workers[w].phase.Calling? then [workers[w].phase.m] else []
  {
  }

  lemma InFlightNone<M>(workers: map<nat, Worker<M>>, id: nat)
    requires forall w :: w in workers && workers[w].sub == id ==> !workers[w].phase.Calling?
    ensures InFlight(workers, id) == []
  {
  }

  /** A step of one worker does not touch the callback of another subscriber. */
  lemma OtherFlight<M>(a: map<nat, Worker<M>>, b: map<nat, Worker<M>>, w: nat, id: nat)
    requires Apart(a) && Apart(b)
    requires forall v :: v != w ==> (v in a <==> v in b) && (v in a ==> b[v] == a[v])
    requires w in a ==> a[w].sub != id || !a[w].phase.Calling?
    requires w in b ==> b[w].sub != id || !b[w].phase.Calling?
    ensures InFlight(b, id) == InFlight(a, id)
  {
    hide InFlight, Apart;
    if v :| v in a && a[v].sub == id && a[v].phase.Calling? {
      InFlightOf(a, v);
      InFlightOf(b, v);
    } else {
      InFlightNone(a, id);
      InFlightNone(b, id);
    }
  }

  lemma Parts<M>(s: State<M>)
    requires OneWorker(s)
    ensures Apart(s.workers) && s.nextWorker !in s.workers
    ensures forall w :: w in s.workers ==> s.workers[w].sub < |s.subs| && s.subs[s.workers[w].sub].running
  {
    hide Apart, Busy;
  }

  lemma ScheduledFlight<M>(s: State<M>, x: nat, id: nat)
    requires OneWorker(s) && x < |s.subs|
    ensures InFlight(Scheduled(s, x).workers, id) == InFlight(s.workers, id)
  {
    hide InFlight, OneWorker, Apart;
    Parts(s);
    ScheduleKeeps(s, x);
    Parts(Scheduled(s, x));
    OtherFlight(s.workers, Scheduled(s, x).workers, s.nextWorker, id);
  }

  function HeardNow<M>(s: State<M>, ev: Event<M>, id: nat): seq<M> {
    if ev.Notify? && Reached(s, ev.channel, ev.except, id) then [ev.m] else []
  }

  function DeliveredNow<M>(s: State<M>, ev: Event<M>, id: nat): seq<M> {
    if ev.Finish? && Enabled(s, ev) && s.workers[ev.w].sub == id then [s.workers[ev.w].phase.m] else []
  }

  /** Polling moves the oldest message of the backlog into the callback. */
  lemma PollFifo<M>(s: State<M>, w: nat, id: nat, heard: seq<M>, delivered: seq<M>)
    requires OneWorker(s) && Enabled(s, Poll(w)) && Fifo(s, id, heard, delivered)
    ensures Fifo(Polled(s, w), id, heard, delivered)
  {
    hide OneWorker, InFlight, Apart;
    var t := Polled(s, w);
    PollKeeps(s, w);
    Parts(s);
    Parts(t);
    InFlightOf(s.workers, w);
    InFlightOf(t.workers, w);
    if s.workers[w].sub == id {
      var b := s.subs[id].backlog;
      if s.subs[id].registered && b != [] {
        assert [] + (b + []) == [b[0]] + (b[1..] + []);
      }
    } else {
      OtherFlight(s.workers, t.workers, w, id);
    }
  }

  /** Finishing moves the message from the callback to what was delivered. */
  lemma FinishFifo<M>(s: State<M>, w: nat, id: nat, heard: seq<M>, delivered: seq<M>)
    requires OneWorker(s) && Enabled(s, Finish(w)) && Fifo(s, id, heard, delivered)
    ensures Fifo(Next(s, Finish(w)), id, heard, delivered + DeliveredNow(s, Finish(w), id))
  {
    hide OneWorker, InFlight, Apart;
    var t := Next(s, Finish(w));
    MoveKeeps(s, w, Polling);
    Parts(s);
    Parts(t);
    InFlightOf(s.workers, w);
    InFlightOf(t.workers, w);
    if s.workers[w].sub == id {
      var m, rest := s.workers[w].phase.m, s.subs[id].backlog + Pending(s, id);
      assert delivered + ([m] + rest) == delivered + [m] + ([] + rest);
      assert delivered + [m] == delivered + [m] + [];
    } else {
      assert delivered + [] == delivered;
      OtherFlight(s.workers, t.workers, w, id);
    }
  }

  lemma ClearFifo<M>(s: State<M>, w: nat, id: nat, heard: seq<M>, delivered: seq<M>)
    requires OneWorker(s) && Enabled(s, Clear(w)) && Fifo(s, id, heard, delivered)
    ensures Fifo(Next(s, Clear(w)), id, heard, delivered)
  {
    hide OneWorker, InFlight, Apart;
    var t := Next(s, Clear(w));
    ClearKeeps(s, w);
    Parts(s);
    Parts(t);
    InFlightOf(s.workers, w);
    if s.workers[w].sub == id {
      InFlightNone(t.workers, id);
    } else {
      OtherFlight(s.workers, t.workers, w, id);
    }
  }

  lemma SubscribeFifo<M>(s: State<M>, channel: string, active: bool, id: nat, heard: seq<M>, delivered: seq<M>)
    requires OneWorker(s) && s.lock.Free? && Fifo(s, id, heard, delivered)
    ensures Fifo(Next(s, Subscribe(channel, active)), id, heard, delivered)
  {
    hide OneWorker, InFlight, Apart;
    Parts(s);
    if id == |s.subs| {
      InFlightNone(s.workers, id);
    }
  }

  /** Every step keeps the order of each subscriber's messages. */
  lemma StepFifo<M>(s: State<M>, ev: Event<M>, id: nat, heard: seq<M>, delivered: seq<M>)
    requires OneWorker(s) && LockSound(s) && Enabled(s, ev) && Fifo(s, id, heard, delivered)
    ensures Fifo(Next(s, ev), id, heard + HeardNow(s, ev, id), delivered + DeliveredNow(s, ev, id))
  {
    hide OneWorker, InFlight, Apart, Scheduled, Polled;
    assert heard + [] == heard && delivered + [] == delivered;
    match ev
    case Subscribe(channel, active) => SubscribeFifo(s, channel, active, id, heard, delivered);
    case Activate(x) => ActivateFifo(s, x, id, heard, delivered);
    case Unregister(x) =>
    case Notify(_, m, _) =>
      if id < |s.subs| && s.subs[id].registered {
        var f, b := InFlight(s.workers, id), s.subs[id].backlog;
        assert delivered + (f + (b + [])) + [m] == delivered + (f + (b + [m]));
      }
    case Push(x) =>
      if id == x {
        assert s.subs[id].backlog + [s.lock.m] == s.subs[id].backlog + [s.lock.m] + [];
      }
    case Schedule => ScheduleFifo(s, id, heard, delivered);
    case Release =>
    case Start(w) => StartFifo(s, w, id, heard, delivered);
    case Poll(w) => PollFifo(s, w, id, heard, delivered);
    case Finish(w) => FinishFifo(s, w, id, heard, delivered);
    case Clear(w) => ClearFifo(s, w, id, heard, delivered);
  }

  lemma ActivateFifo<M>(s: State<M>, x: nat, id: nat, heard: seq<M>, delivered: seq<M>)
    requires OneWorker(s) && Enabled(s, Activate(x)) && Fifo(s, id, heard, delivered)
    ensures Fifo(Next(s, Activate(x)), id, heard, delivered)
  {
    hide OneWorker, InFlight;
    var t := s.(subs := s.subs[x := s.subs[x].(active := true)]);
    SubKeeps(s, x, s.subs[x].(active := true));
    ScheduledFlight(t, x, id);
  }

  lemma ScheduleFifo<M>(s: State<M>, id: nat, heard: seq<M>, delivered: seq<M>)
    requires OneWorker(s) && Enabled(s, Schedule) && Fifo(s, id, heard, delivered)
    ensures Fifo(Next(s, Schedule), id, heard, delivered)
  {
    hide OneWorker, InFlight;
    var t := s.(lock := Notifying(s.lock.m, s.lock.todo, None));
    LockKeeps(s, t.lock);
    ScheduledFlight(t, s.lock.pushed.value, id);
  }

  lemma StartFifo<M>(s: State<M>, w: nat, id: nat, heard: seq<M>, delivered: seq<M>)
    requires OneWorker(s) && Enabled(s, Start(w)) && Fifo(s, id, heard, delivered)
    ensures Fifo(Next(s, Start(w)), id, heard, delivered)
  {
    hide OneWorker, InFlight, Apart;
    var t := Next(s, Start(w));
    MoveKeeps(s, w, Polling);
    Parts(s);
    Parts(t);
    OtherFlight(s.workers, t.workers, w, id);
  }

  /** Over every interleaving each subscriber gets what was notified to it, in order and nothing else: while it is
      registered, the messages delivered, the one in its callback and those in its backlog make up exactly the messages
      it was notified of; afterwards what it still gets is a prefix of them. */
  lemma {:induction false} PerSubscriberFifo<M>(evs: seq<Event<M>>, id: nat)
    requires Run(evs).Some?
    ensures Fifo(Run(evs).value, id, Heard(evs, id), Delivered(evs, id))
  {
    hide OneWorker, LockSound, Enabled, Next, Fifo;
    if evs == [] {
      NothingHeard<M>(id);
    } else {
      var before, ev := evs[..|evs| - 1], evs[|evs| - 1];
      AtMostOneWorker(before);
      PerSubscriberFifo(before, id);
      StepFifo(Run(before).value, ev, id, Heard(before, id), Delivered(before, id));
      HeardStep(evs, id);
      assert Delivered(evs, id) == Delivered(before, id) + DeliveredNow(Run(before).value, ev, id);
    }
  }

  lemma HeardStep<M>(evs: seq<Event<M>>, id: nat)
    requires evs != [] && Run(evs[..|evs| - 1]).Some?
    ensures Heard(evs, id) == Heard(evs[..|evs| - 1], id) + HeardNow(Run(evs[..|evs| - 1]).value, evs[|evs| - 1], id)
  {
    hide Run, Channels;
    SubsAre(evs[..|evs| - 1]);
  }

  lemma NothingHeard<M>(id: nat)
    ensures Fifo<M>(Empty(), id, [], [])
  {
  }

  // What is not promised.

  /** A registered subscriber with a callback and a backlog, but no worker and no notification about to queue one. */
  predicate Stranded<M>(s: State<M>, id: nat) {
    && id < |s.subs| && s.subs[id].registered && s.subs[id].active && !s.subs[id].running && s.subs[id].backlog != []
    && (s.lock.Notifying? ==> id !in s.lock.todo && s.lock.pushed != Some(id))
  }

  /** Only subscribers with a callback have workers. */
  predicate ActiveWorkers<M>(s: State<M>) {
    forall w :: w in s.workers ==> s.workers[w].sub < |s.subs| && s.subs[s.workers[w].sub].active
  }

  lemma ScheduledActive<M>(s: State<M>, id: nat)
    requires ActiveWorkers(s) && id < |s.subs|
    ensures ActiveWorkers(Scheduled(s, id))
  {
  }

  lemma StepKeepsActive<M>(s: State<M>, ev: Event<M>)
    requires ActiveWorkers(s) && Enabled(s, ev)
    ensures ActiveWorkers(Next(s, ev))
  {
    hide Scheduled, Receivers;
    match ev
    case Activate(id) => ScheduledActive(s.(subs := s.subs[id := s.subs[id].(active := true)]), id);
    case Schedule => ScheduledActive(s.(lock := Notifying(s.lock.m, s.lock.todo, None)), s.lock.pushed.value);
    case _ =>
  }

  lemma {:induction false} WorkersActive<M>(evs: seq<Event<M>>)
    requires Run(evs).Some?
    ensures ActiveWorkers(Run(evs).value)
  {
    hide Enabled, Next;
    if evs != [] {
      WorkersActive(evs[..|evs| - 1]);
      StepKeepsActive(Run(evs[..|evs| - 1]).value, evs[|evs| - 1]);
    }
  }

  /** The step that strands a subscriber: its worker clears the flag, having stopped polling before the message now in
      the backlog was put there, and no notification under way is still to reach the subscriber. */
  predicate Strands<M>(s: State<M>, ev: Event<M>, id: nat) {
    && ev.Clear? && ev.w in s.workers && s.workers[ev.w].sub == id < |s.subs|
    && s.subs[id].registered && s.subs[id].backlog != []
    && (s.lock.Notifying? ==> id !in s.lock.todo && s.lock.pushed != Some(id))
  }

  /** The steps that end it: its cancellation, and a notification that reaches it. */
  predicate Frees<M>(s: State<M>, ev: Event<M>, id: nat) {
    ev == Unregister(id) || (ev.Notify? && Reached(s, ev.channel, ev.except, id))
  }

  /** What each step does to being stranded, exactly. */
  lemma StepStrands<M>(s: State<M>, ev: Event<M>, id: nat)
    requires OneWorker(s) && LockSound(s) && ActiveWorkers(s) && Enabled(s, ev)
    ensures Stranded(Next(s, ev), id) <==> Strands(s, ev, id) || (Stranded(s, id) && !Frees(s, ev, id))
  {
    hide OneWorker;
    Parts(s);
  }

  /** The n-th step of a run, from the state the steps before it lead to. */
  predicate StrandsAt<M>(evs: seq<Event<M>>, n: nat, id: nat) {
    n < |evs| && Run(evs[..n]).Some? && Strands(Run(evs[..n]).value, evs[n], id)
  }

  predicate FreesAt<M>(evs: seq<Event<M>>, n: nat, id: nat) {
    n < |evs| && Run(evs[..n]).Some? && Frees(Run(evs[..n]).value, evs[n], id)
  }

  /** Over every interleaving a subscriber is left with messages nobody will fetch exactly if some worker of its
      cleared the flag over a backlog, and neither a notification nor its cancellation came after. */
  lemma {:induction false} StrandedExactly<M>(evs: seq<Event<M>>, id: nat)
    requires Run(evs).Some?
    ensures Stranded(Run(evs).value, id) <==>
            exists n: nat :: StrandsAt(evs, n, id) && forall k: nat :: n < k ==> !FreesAt(evs, k, id)
  {
    hide OneWorker, LockSound, ActiveWorkers, Enabled, Next, Stranded, Strands, Frees;
    if evs == [] {
      NotStranded<M>(id);
    } else {
      var last, before := |evs| - 1, evs[..|evs| - 1];
      AtMostOneWorker(before);
      WorkersActive(before);
      StepStrands(Run(before).value, evs[last], id);
      StrandedExactly(before, id);
      forall k: nat | k < last
        ensures StrandsAt(before, k, id) == StrandsAt(evs, k, id) && FreesAt(before, k, id) == FreesAt(evs, k, id)
      {
        assert before[..k] == evs[..k];
      }
      if n: nat :| StrandsAt(evs, n, id) && forall k: nat :: n < k ==> !FreesAt(evs, k, id) {
        assert n < last ==> !FreesAt(evs, last, id);
        forall k: nat | n < k ensures !FreesAt(before, k, id) {
          assert !FreesAt(evs, k, id);
        }
        assert n < last ==> StrandsAt(before, n, id);
      }
      if n: nat :| StrandsAt(before, n, id) && forall k: nat :: n < k ==> !FreesAt(before, k, id) {
        assert StrandsAt(evs, n, id);
        forall k: nat | n < k && !FreesAt(evs, last, id) ensures !FreesAt(evs, k, id) {
          assert k < last ==> !FreesAt(before, k, id);
        }
      }
      if Strands(Run(before).value, evs[last], id) {
        assert StrandsAt(evs, last, id);
        assert forall k: nat :: last < k ==> !FreesAt(evs, k, id);
      }
    }
  }

  lemma NotStranded<M>(id: nat)
    ensures !Stranded(Empty<M>(), id)
  {
  }

  /** Nothing but another notification, or its own cancellation, gets a stranded subscriber out of that state. */
  lemma StrandedStays<M>(s: State<M>, ev: Event<M>, id: nat)
    requires OneWorker(s) && Enabled(s, ev) && Stranded(s, id)
    requires ev != Unregister(id) && !(ev.Notify? && Reached(s, ev.channel, ev.except, id))
    ensures Stranded(Next(s, ev), id)
  {
    hide OneWorker;
    Parts(s);
  }

  lemma Extend<M>(evs: seq<Event<M>>, s: State<M>, ev: Event<M>)
    requires Run(evs) == Some(s) && Enabled(s, ev)
    ensures Run(evs + [ev]) == Some(Next(s, ev))
  {
    assert (evs + [ev])[..|evs|] == evs;
    hide Enabled, Next;
  }

  /** One notification, from start to finish. */
  function Notified<M>(c: string, m: M): seq<Event<M>> {
    [Notify(c, m, None), Push(0), Schedule, Release]
  }

  /** A notification to the only subscriber puts the message in its backlog, and queues a worker unless the flag is
      set. */
  lemma NotifyOne<M>(evs: seq<Event<M>>, s: State<M>, c: string, m: M)
    requires Run(evs) == Some(s) && s.lock.Free? && |s.subs| == 1
    requires s.subs[0].registered && s.subs[0].channel == c
    ensures Run(evs + Notified(c, m)) ==
              Some(Scheduled(s.(subs := [s.subs[0].(backlog := s.subs[0].backlog + [m])]), 0))
  {
    var more := s.subs[0].(backlog := s.subs[0].backlog + [m]);
    var s1 := s.(lock := Notifying(m, {0}, None));
    var s2 := s.(subs := [more], lock := Notifying(m, {}, Some(0)));
    var s3 := s.(subs := [more], lock := Notifying(m, {}, None));
    assert Receivers(s, c, None) == {0} && {0} - {0} == {} && s.subs[0 := more] == [more];
    var e1 := evs + [Notify(c, m, None)];
    var e2 := e1 + [Push(0)];
    var e3 := e2 + [Schedule];
    Extend(evs, s, Notify(c, m, None));
    Extend(e1, s1, Push(0));
    Extend(e2, s2, Schedule);
    Extend(e3, Scheduled(s3, 0), Release);
    assert e3 + [Release] == evs + Notified(c, m);
  }

  /** A worker that has served one message and will poll no more, its flag still set. */
  function StoppingRun<M>(m: M): seq<Event<M>> {
    [Subscribe("c", true)] + Notified("c", m) + [Start(0)] + [Poll(0)] + [Finish(0)] + [Poll(0)]
  }

  lemma StopsPolling<M>(m: M)
    ensures Run(StoppingRun(m)) == Some(State([Sub("c", true, true, true, [])], map[0 := Worker(0, Stopping)], 1, Free))
  {
    hide Run;
    RunNone<M>();
    var one: seq<M> := [m];
    var idle, full := Sub("c", true, true, true, []), Sub("c", true, true, true, one);
    var e1: seq<Event<M>> := [] + [Subscribe("c", true)];
    Extend([], Empty<M>(), Subscribe("c", true));
    assert Empty<M>().subs + [Sub("c", true, true, false, [])] == [Sub("c", true, true, false, [])];
    NotifyOne(e1, State([Sub("c", true, true, false, [])], map[], 0, Free), "c", m);
    assert [] + [m] == one && one[1..] == [];
    var e2 := e1 + Notified("c", m);
    assert [Sub("c", true, true, false, one)][0 := full] == [full] && [full][0 := idle] == [idle];
    Only<M>(Worker(0, Queued), Worker(0, Polling));
    Extend(e2, State([full], map[0 := Worker(0, Queued)], 1, Free), Start(0));
    var e3 := e2 + [Start(0)];
    Only(Worker(0, Polling), Worker(0, Calling(m)));
    Extend(e3, State([full], map[0 := Worker(0, Polling)], 1, Free), Poll(0));
    var e4 := e3 + [Poll(0)];
    Only(Worker(0, Calling(m)), Worker(0, Polling));
    Extend(e4, State([idle], map[0 := Worker(0, Calling(m))], 1, Free), Finish(0));
    var e5 := e4 + [Finish(0)];
    Only<M>(Worker(0, Polling), Worker(0, Stopping));
    Extend(e5, State([idle], map[0 := Worker(0, Polling)], 1, Free), Poll(0));
    assert e5 + [Poll(0)] == StoppingRun(m);
  }

  /** A run that strands a message: it is put in the backlog after the worker's last poll and before its flag is
      cleared. */
  function StrandingRun<M>(m: M): seq<Event<M>> {
    StoppingRun(m) + Notified("c", m) + [Clear(0)]
  }

  lemma MessagesCanStrand<M>(m: M)
    ensures Run(StrandingRun(m)).Some? && Stranded(Run(StrandingRun(m)).value, 0)
  {
    hide Run, StoppingRun, Notified;
    StopsPolling(m);
    var idle, full := Sub("c", true, true, true, []), Sub("c", true, true, true, [m]);
    NotifyOne(StoppingRun(m), State([idle], map[0 := Worker(0, Stopping)], 1, Free), "c", m);
    assert [] + [m] == [m];
    Extend(StoppingRun(m) + Notified("c", m), State([full], map[0 := Worker(0, Stopping)], 1, Free), Clear(0));
  }

  lemma Only<M>(x: Worker<M>, y: Worker<M>)
    ensures map[0 := x][0 := y] == map[0 := y]
  {
  }

  lemma RunNone<M>()
    ensures Run<M>([]) == Some(Empty())
  {
  }
}
