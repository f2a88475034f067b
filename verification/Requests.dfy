/** Requests over the client connection: callers on any thread, answered by the one reader thread. */
module Requests {
  import opened Order

  datatype Outcome = Payload(payload: string) | Refusal(message: string)

  /** What a caller may find in its one-slot channel. */
  datatype Reply = FromDaemon(outcome: Outcome) | LostConnection

  datatype Ending = Refused | Closed | TimedOut | Replied(reply: Reply)

  /** Where a caller stands; its request id is fresh. */
  datatype Call = Checked | Registered | Waiting | GaveUp | Ended(ending: Ending)

  /** The reader thread: reading, cleaning up in three steps, ended. */
  datatype Phase = Reading | Flagged | Answering | Gone

  /** For the statements: `answers` are the responses read, `late` the calls registered after the table was taken. */
  datatype State = State(
    phase: Phase,
    pending: set<int>,
    taken: set<int>,
    slots: map<int, Reply>,
    calls: map<int, Call>,
    answers: set<(int, Outcome)>,
    late: set<int>)

  const CONNECTED := State(Reading, {}, {}, map[], map[], {}, {})

  datatype Action =
    | Check(id: int)                        // reads the disconnected flag
    | Register(id: int)                     // under the pending lock
    | Send(id: int)                         // to the reader's queue
    | Receive(id: int)                      // the slot holds a reply
    | TimeOut(id: int)
    | Withdraw(id: int)                     // under the pending lock, after a timeout
    | Respond(id: int, outcome: Outcome)    // the reader handles any response the daemon sends
    | StoreFlag
    | TakePending                           // under the pending lock: empties the table
    | LoseOne(id: int)                      // no lock held: tells one taken caller
    | ReaderEnds

  predicate Stands(s: State, id: int, c: Call) { id in s.calls && s.calls[id] == c }

  predicate Enabled(s: State, a: Action) {
    match a
    case Check(id) => id !in s.calls
    case Register(id) => Stands(s, id, Checked)
    case Send(id) => Stands(s, id, Registered)
    case Receive(id) => Stands(s, id, Waiting) && id in s.slots
    case TimeOut(id) => Stands(s, id, Waiting)
    case Withdraw(id) => Stands(s, id, GaveUp)
    case Respond(_, _) => s.phase.Reading?
    case StoreFlag => s.phase.Reading?
    case TakePending => s.phase.Flagged?
    case LoseOne(id) => s.phase.Answering? && id in s.taken
    case ReaderEnds => s.phase.Answering? && s.taken == {}
  }

  function At(s: State, id: int, c: Call): State { s.(calls := s.calls[id := c]) }

  /** Cleanup has taken the table: whoever registers from here on is late. */
  predicate Emptied(s: State) { s.phase.Answering? || s.phase.Gone? }

  function Next(s: State, a: Action): State
    requires Enabled(s, a)
  {
    match a
    case Check(id) => At(s, id, if s.phase.Reading? then Checked else Ended(Refused))
    case Register(id) =>
      At(s, id, Registered).(pending := s.pending + {id},
                             late := if Emptied(s) then s.late + {id} else s.late)
    case Send(id) =>
      if s.phase.Gone? then At(s, id, Ended(Closed)).(pending := s.pending - {id}) else At(s, id, Waiting)
    case Receive(id) => At(s, id, Ended(Replied(s.slots[id])))
    case TimeOut(id) => At(s, id, GaveUp)
    case Withdraw(id) => At(s, id, Ended(TimedOut)).(pending := s.pending - {id})
    case Respond(id, outcome) =>
      var heard := s.(answers := s.answers + {(id, outcome)});
      if id in s.pending then heard.(pending := s.pending - {id}, slots := s.slots[id := FromDaemon(outcome)])
      else heard
    case StoreFlag => s.(phase := Flagged)
    case TakePending => s.(phase := Answering, pending := {}, taken := s.pending)
    case LoseOne(id) => s.(taken := s.taken - {id}, slots := s.slots[id := LostConnection])
    case ReaderEnds => s.(phase := Gone)
  }

  /** The state after `k` attempted steps of an interleaving; a step that is not enabled waits. */
  function After(actions: seq<Action>, k: nat): State
    requires k <= |actions|
  {
    if k == 0 then CONNECTED
    else
      var s := After(actions, k - 1);
      if Enabled(s, actions[k - 1]) then Next(s, actions[k - 1]) else s
  }

  // ----- invariant -----

  /** Registered with the table and not yet withdrawn. */
  predicate Outstanding(s: State, id: int) {
    id in s.calls && (s.calls[id].Registered? || s.calls[id].Waiting? || s.calls[id].GaveUp?)
  }

  predicate CallInv(s: State, id: int) {
    && (id in s.pending ==> Outstanding(s, id) && id !in s.slots && id !in s.taken)
    && (id in s.taken ==>
          s.phase.Answering? && id in s.calls && !s.calls[id].Checked? && id !in s.slots && id !in s.late)
    && (Outstanding(s, id) ==> id in s.pending || id in s.taken || id in s.slots)
    && (id in s.slots ==> id in s.calls && !s.calls[id].Checked?)
    && (id in s.slots && s.slots[id].FromDaemon? ==> (id, s.slots[id].outcome) in s.answers)
    && (id in s.slots && s.slots[id].LostConnection? ==> Emptied(s))
    && (id in s.calls && s.calls[id].Ended? && s.calls[id].ending.Replied? ==>
          id in s.slots && s.calls[id].ending.reply == s.slots[id])
    && (id in s.pending && Emptied(s) ==> id in s.late)
    && (id in s.late ==> Emptied(s) && id in s.calls && !s.calls[id].Checked? && id !in s.slots)
  }

  ghost predicate Inv(s: State) { forall id :: CallInv(s, id) }

  lemma StepKeepsInv(s: State, a: Action)
    requires Inv(s) && Enabled(s, a)
    ensures Inv(Next(s, a))
  {
    forall id ensures CallInv(Next(s, a), id) { StepKeepsCallInv(s, a, id); }
  }

  lemma StepKeepsCallInv(s: State, a: Action, id: int)
    requires Inv(s) && Enabled(s, a)
    ensures CallInv(Next(s, a), id)
  {
    assert CallInv(s, id);
  }

  lemma {:induction false} Reachable(actions: seq<Action>, k: nat)
    requires k <= |actions|
    ensures Inv(After(actions, k))
  {
    if k > 0 {
      Reachable(actions, k - 1);
      var s := After(actions, k - 1);
      if Enabled(s, actions[k - 1]) { StepKeepsInv(s, actions[k - 1]); }
    }
  }

  // ----- what callers can rely on -----

  lemma NextKeepsReply(s: State, a: Action, id: int)
    requires CallInv(s, id) && Enabled(s, a) && id in s.slots
    ensures id in Next(s, a).slots && Next(s, a).slots[id] == s.slots[id]
  {}

  /** A reply, once there, is never replaced: every caller is answered at most once. */
  lemma {:induction false} AnsweredAtMostOnce(actions: seq<Action>, k: nat, m: nat, id: int)
    requires k <= m <= |actions| && id in After(actions, k).slots
    ensures id in After(actions, m).slots && After(actions, m).slots[id] == After(actions, k).slots[id]
  {
    if k < m {
      AnsweredAtMostOnce(actions, k, m - 1, id);
      Reachable(actions, m - 1);
      var s := After(actions, m - 1);
      if Enabled(s, actions[m - 1]) { NextKeepsReply(s, actions[m - 1], id); }
    }
  }

  /** A caller that ends with the daemon's outcome got one the daemon sent under that caller's own id. */
  lemma AnswerIsOwn(actions: seq<Action>, k: nat, id: int, outcome: Outcome)
    requires k <= |actions| && Stands(After(actions, k), id, Ended(Replied(FromDaemon(outcome))))
    ensures (id, outcome) in After(actions, k).answers
    ensures exists j :: 0 <= j < k && actions[j] == Respond(id, outcome)
  {
    Reachable(actions, k);
    assert CallInv(After(actions, k), id);
    AnswersWereSent(actions, k, id, outcome);
  }

  lemma {:induction false} AnswersWereSent(actions: seq<Action>, k: nat, id: int, outcome: Outcome)
    requires k <= |actions| && (id, outcome) in After(actions, k).answers
    ensures exists j :: 0 <= j < k && actions[j] == Respond(id, outcome)
  {
    if k > 0 {
      if (id, outcome) in After(actions, k - 1).answers {
        AnswersWereSent(actions, k - 1, id, outcome);
      } else {
        assert actions[k - 1] == Respond(id, outcome);
      }
    }
  }

  /**
   * The table holds only calls still under way, and a call under way is in it, among those cleanup has taken and
   * is about to tell, or has its reply.
   */
  lemma NothingLeaks(actions: seq<Action>, k: nat, id: int)
    requires k <= |actions|
    ensures id in After(actions, k).pending ==> Outstanding(After(actions, k), id)
    ensures
      var s := After(actions, k);
      Outstanding(s, id) ==> id in s.pending || id in s.taken || id in s.slots
  {
    Reachable(actions, k);
    assert CallInv(After(actions, k), id);
  }

  /**
   * Once cleanup has taken the table, a caller under way that neither has its reply nor is about to get it is one
   * that read the flag in time but registered afterwards: it alone has only the timeout left. When the reader has
   * ended nobody is about to get one.
   */
  lemma OnlyLateCallsWaitForTheTimeout(actions: seq<Action>, k: nat, id: int)
    requires k <= |actions| && Emptied(After(actions, k)) && Outstanding(After(actions, k), id)
    ensures
      var s := After(actions, k);
      && (id !in s.slots && id !in s.taken <==> id in s.late)
      && (s.phase.Gone? ==> (id !in s.slots <==> id in s.late))
  {
    Reachable(actions, k);
    assert CallInv(After(actions, k), id);
  }

  lemma {:induction false} LateCallsGetNoReply(actions: seq<Action>, k: nat, m: nat, id: int)
    requires k <= m <= |actions| && id in After(actions, k).late
    ensures id in After(actions, m).late && id !in After(actions, m).slots
  {
    if k < m { LateCallsGetNoReply(actions, k, m - 1, id); }
    Reachable(actions, m);
    assert CallInv(After(actions, m), id);
  }

  lemma EndedStep(s: State, a: Action, id: int)
    requires Enabled(s, a) && id in s.calls && s.calls[id].Ended?
    ensures id in Next(s, a).calls && Next(s, a).calls[id] == s.calls[id]
  {}

  /** A call ends once: its ending never changes, and it is out of the table for good. */
  lemma {:induction false} EndingsAreFinal(actions: seq<Action>, k: nat, m: nat, id: int, ending: Ending)
    requires k <= m <= |actions| && Stands(After(actions, k), id, Ended(ending))
    ensures Stands(After(actions, m), id, Ended(ending)) && id !in After(actions, m).pending
  {
    hide Next;
    if k < m {
      EndingsAreFinal(actions, k, m - 1, id, ending);
      var s := After(actions, m - 1);
      if Enabled(s, actions[m - 1]) { EndedStep(s, actions[m - 1], id); }
    }
    Reachable(actions, m);
    assert CallInv(After(actions, m), id);
  }

  /** A call goes ahead while the reader reads, and is refused at once and for good afterwards. */
  lemma CheckedOrRefused(actions: seq<Action>, k: nat, m: nat, id: int)
    requires k < m <= |actions| && actions[k] == Check(id) && id !in After(actions, k).calls
    ensures After(actions, k).phase.Reading? ==> Stands(After(actions, k + 1), id, Checked)
    ensures !After(actions, k).phase.Reading? ==> Stands(After(actions, m), id, Ended(Refused))
  {
    assert After(actions, k + 1) == Next(After(actions, k), Check(id));
    if !After(actions, k).phase.Reading? { EndingsAreFinal(actions, k + 1, m, id, Refused); }
  }

  /** A registered call waits for its reply unless the reader has ended: then it ends as closed, out of the table. */
  lemma SentOrClosed(actions: seq<Action>, k: nat, id: int)
    requires k < |actions| && actions[k] == Send(id) && Stands(After(actions, k), id, Registered)
    ensures
      var s := After(actions, k + 1);
      if After(actions, k).phase.Gone? then Stands(s, id, Ended(Closed)) && id !in s.pending else Stands(s, id, Waiting)
  {
    assert After(actions, k + 1) == Next(After(actions, k), Send(id));
  }

  /** A response to a registered call is that call's reply from then on; a response to any other id changes nothing. */
  lemma ResponseIsDelivered(actions: seq<Action>, k: nat, m: nat, id: int, outcome: Outcome)
    requires k < m <= |actions| && actions[k] == Respond(id, outcome) && After(actions, k).phase.Reading?
    ensures
      id in After(actions, k).pending ==>
        id in After(actions, m).slots && After(actions, m).slots[id] == FromDaemon(outcome)
    ensures
      id !in After(actions, k).pending ==>
        After(actions, k + 1) == After(actions, k).(answers := After(actions, k).answers + {(id, outcome)})
  {
    assert After(actions, k + 1) == Next(After(actions, k), Respond(id, outcome));
    if id in After(actions, k).pending { AnsweredAtMostOnce(actions, k + 1, m, id); }
  }

  /** A waiting caller whose reply is there ends with it. */
  lemma ReplyIsReceived(actions: seq<Action>, k: nat, m: nat, id: int)
    requires k < m <= |actions| && actions[k] == Receive(id)
    requires Stands(After(actions, k), id, Waiting) && id in After(actions, k).slots
    ensures Stands(After(actions, m), id, Ended(Replied(After(actions, k).slots[id])))
  {
    assert After(actions, k + 1) == Next(After(actions, k), Receive(id));
    EndingsAreFinal(actions, k + 1, m, id, Replied(After(actions, k).slots[id]));
  }

  /** A caller whose time is up gives up, and once it has withdrawn it ended as timed out, out of the table. */
  lemma TimeoutsEnd(actions: seq<Action>, k: nat, m: nat, id: int)
    requires k < m <= |actions|
    ensures
      actions[k] == TimeOut(id) && Stands(After(actions, k), id, Waiting) ==>
        Stands(After(actions, k + 1), id, GaveUp)
    ensures
      actions[k] == Withdraw(id) && Stands(After(actions, k), id, GaveUp) ==>
        Stands(After(actions, m), id, Ended(TimedOut)) && id !in After(actions, m).pending
  {
    var s := After(actions, k);
    assert Enabled(s, actions[k]) ==> After(actions, k + 1) == Next(s, actions[k]);
    if actions[k] == Withdraw(id) && Stands(s, id, GaveUp) { EndingsAreFinal(actions, k + 1, m, id, TimedOut); }
  }

  function CleanupSteps(s: State): nat {
    match s.phase
    case Reading => 0
    case Flagged => 1
    case Answering => 2
    case Gone => 3
  }

  /** Cleanup goes through its three steps in order, whatever the callers do, and never back. */
  lemma CleanupAdvances(actions: seq<Action>, k: nat)
    requires k < |actions|
    ensures
      var s, a := After(actions, k), actions[k];
      CleanupSteps(After(actions, k + 1))
      == CleanupSteps(s)
         + if (a.StoreFlag? && CleanupSteps(s) == 0) || (a.TakePending? && CleanupSteps(s) == 1)
              || (a.ReaderEnds? && CleanupSteps(s) == 2 && s.taken == {}) then 1 else 0
  {}

  /** Such a caller exists: check, lose the connection, register, send. */
  lemma LateCallExample(id: int)
    ensures
      var actions := [Check(id), StoreFlag, TakePending, Register(id), Send(id), ReaderEnds];
      Stands(After(actions, 6), id, Waiting) && id in After(actions, 6).late
  {
    var actions := [Check(id), StoreFlag, TakePending, Register(id), Send(id), ReaderEnds];
    assert After(actions, 1) == Next(CONNECTED, Check(id));
    assert After(actions, 2) == Next(After(actions, 1), StoreFlag);
    assert After(actions, 3) == Next(After(actions, 2), TakePending);
    assert After(actions, 4) == Next(After(actions, 3), Register(id));
    assert After(actions, 5) == Next(After(actions, 4), Send(id));
    assert After(actions, 6) == Next(After(actions, 5), ReaderEnds);
  }

  /** Between the take and its own send a caller is in neither the table nor possession of a reply. */
  lemma TakenCallExample(id: int)
    ensures
      var actions := [Check(id), Register(id), Send(id), StoreFlag, TakePending];
      var s := After(actions, 5);
      Outstanding(s, id) && id in s.taken && id !in s.pending && id !in s.slots
  {
    var actions := [Check(id), Register(id), Send(id), StoreFlag, TakePending];
    assert After(actions, 1) == Next(CONNECTED, Check(id));
    assert After(actions, 2) == Next(After(actions, 1), Register(id));
    assert After(actions, 3) == Next(After(actions, 2), Send(id));
    assert After(actions, 4) == Next(After(actions, 3), StoreFlag);
  }

  // ----- the table object: each method is one critical section -----

  class RequestTable {
    var disconnected: bool
    var pending: set<int>
    var taken: set<int>
    var slots: map<int, Reply>
    ghost var phase: Phase
    ghost var calls: map<int, Call>
    ghost var answers: set<(int, Outcome)>
    ghost var late: set<int>

    ghost function View(): State
      reads this
    {
      State(phase, pending, taken, slots, calls, answers, late)
    }

    ghost predicate Valid()
      reads this
    {
      disconnected <==> !phase.Reading?
    }

    constructor ()
      ensures Valid() && View() == CONNECTED
    {
      disconnected, pending, taken, slots := false, {}, {}, map[];
      phase, calls, answers, late := Reading, map[], {}, {};
    }

    method CheckConnected(id: int) returns (ok: bool)
      requires Valid() && Enabled(View(), Check(id))
      modifies this
      ensures Valid() && View() == Next(old(View()), Check(id))
      ensures ok <==> Stands(View(), id, Checked)
    {
      ok := !disconnected;
      calls := calls[id := if phase.Reading? then Checked else Ended(Refused)];
    }

    method RegisterRequest(id: int)
      requires Valid() && Enabled(View(), Register(id))
      modifies this
      ensures Valid() && View() == Next(old(View()), Register(id))
    {
      pending := pending + {id};
      calls := calls[id := Registered];
      late := if Emptied(View()) then late + {id} else late;
    }

    /** The reader's handling of one response. */
    method HandleResponse(id: int, outcome: Outcome)
      requires Valid() && Enabled(View(), Respond(id, outcome))
      modifies this
      ensures Valid() && View() == Next(old(View()), Respond(id, outcome))
    {
      if id in pending {
        pending := pending - {id};
        slots := slots[id := FromDaemon(outcome)];
      }
      answers := answers + {(id, outcome)};
    }

    method WithdrawRequest(id: int)
      requires Valid() && Enabled(View(), Withdraw(id))
      modifies this
      ensures Valid() && View() == Next(old(View()), Withdraw(id))
    {
      pending := pending - {id};
      calls := calls[id := Ended(TimedOut)];
    }

    method MarkDisconnected()
      requires Valid() && Enabled(View(), StoreFlag)
      modifies this
      ensures Valid() && View() == Next(old(View()), StoreFlag)
    {
      disconnected := true;
      phase := Flagged;
    }

    /** Takes the whole table under its lock. */
    method TakeAllPending()
      requires Valid() && Enabled(View(), TakePending)
      modifies this
      ensures Valid() && View() == Next(old(View()), TakePending)
    {
      taken := pending;
      pending := {};
      phase := Answering;
    }

    /** Tells one taken caller that the connection is lost; no lock is held. */
    method SendLost(id: int)
      requires Valid() && Enabled(View(), LoseOne(id))
      modifies this
      ensures Valid() && View() == Next(old(View()), LoseOne(id))
    {
      slots := slots[id := LostConnection];
      taken := taken - {id};
    }

    /** The reader's whole cleanup when no caller steps in between: everyone in the table is told. */
    method FailAllPending()
      requires Valid() && Enabled(View(), TakePending)
      modifies this
      ensures Valid() && Enabled(View(), ReaderEnds) && pending == {} && calls == old(calls)
      ensures slots == old(slots) + map id | id in old(pending) :: LostConnection
    {
      TakeAllPending();
      ghost var all := taken;
      while taken != {}
        invariant Valid() && phase.Answering? && pending == {} && calls == old(calls)
        invariant taken <= all == old(pending)
        invariant slots == old(slots) + map id | id in all - taken :: LostConnection
        decreases |taken|
      {
        var id := PickOne(taken);
        SendLost(id);
      }
    }

    static method PickOne(ids: set<int>) returns (id: int)
      requires ids != {}
      ensures id in ids
    {
      ghost var any := PickMember(ids);
      id :| id in ids;
    }
  }
}
