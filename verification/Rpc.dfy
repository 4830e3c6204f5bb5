/** rpc.ts: requests issued by the sidecar, settled by a reply, by their timer, or by drain. */
module Rpc {
  import opened Basics
  import opened Protocol
  import opened Framing

  const DEFAULT_TIMEOUT_MS := 30000

  datatype Outcome =
    | Resolved(value: Json)
    | Failed(error: Json)
    | TimedOut(methodName: string, ms: int)
    | Drained(reason: string)

  datatype Pending = Pending(methodName: string, timeoutMs: int, issuedAt: nat)

  /**
   The client and the part of its environment it steers. promises records, for each issued id, the
   resolve and reject invocations its promise has received, in order; timers holds the armed timers
   with the virtual time they are due.
   */
  datatype State = State(
    nextId: int,
    pending: map<int, Pending>,
    timers: map<int, nat>,
    promises: map<int, seq<Outcome>>,
    clock: nat)

  /** Stale runs the callback of a timer that is no longer armed. */
  datatype Action =
    | Call(methodName: string, timeoutMs: Option<int>)
    | Feed(frame: Frame)
    | Fire(id: int)
    | Stale(id: int)
    | Drain(reason: string)
    | Tick(ms: nat)

  const INIT := State(1, map[], map[], map[], 0)

  /** setTimeout replaces a delay outside 1 .. 2^31 - 1 by 1. */
  function NodeDelay(ms: int): (d: nat)
    ensures 1 <= d <= 0x7fff_ffff
  {
    if 1 <= ms <= 0x7fff_ffff then ms else 1
  }

  function EffectiveTimeout(timeoutMs: Option<int>): int {
    match timeoutMs
    case Some(ms) => ms
    case None => DEFAULT_TIMEOUT_MS
  }

  function Append(promises: map<int, seq<Outcome>>, id: int, o: seq<Outcome>): map<int, seq<Outcome>> {
    promises[id := (if id in promises then promises[id] else []) + o]
  }

  function CallStep(s: State, methodName: string, timeoutMs: Option<int>): State {
    var ms := EffectiveTimeout(timeoutMs);
    s.(nextId := s.nextId + 1,
       pending := s.pending[s.nextId := Pending(methodName, ms, s.clock)],
       timers := s.timers[s.nextId := s.clock + NodeDelay(ms)],
       promises := s.promises[s.nextId := []])
  }

  predicate IsReply(f: Frame) { f.id.Some? && (f.result.Some? || f.error.Some?) }

  /** The call a frame answers, if it is shaped like a reply and Number(id) is an integer. */
  function Target(lib: Lib, f: Frame): Option<int> {
    if IsReply(f) then lib.number(f.id.value) else None
  }

  /**
   What a reply gives its call: its error before its result. Constructing an RpcError from a null
   error throws, and then the call gets nothing.
   */
  function Gives(f: Frame): seq<Outcome>
    requires IsReply(f)
  {
    if f.error == Some(Null) then []
    else if f.error.Some? then [Failed(f.error.value)]
    else [Resolved(f.result.value)]
  }

  predicate Accepts(lib: Lib, s: State, f: Frame) {
    Target(lib, f).Some? && Target(lib, f).value in s.pending
  }

  /** feed throws, after it has taken the call off the table. */
  predicate Throws(lib: Lib, s: State, f: Frame) {
    Accepts(lib, s, f) && f.error == Some(Null)
  }

  function FeedStep(lib: Lib, s: State, f: Frame): State {
    if !Accepts(lib, s, f) then s else
    var id := Target(lib, f).value;
    s.(timers := s.timers - {id},
       pending := s.pending - {id},
       promises := Append(s.promises, id, Gives(f)))
  }

  /** The body of the setTimeout callback. */
  function Callback(s: State, id: int): State {
    if id !in s.pending then s else
    s.(pending := s.pending - {id},
       promises := Append(s.promises, id, [TimedOut(s.pending[id].methodName, s.pending[id].timeoutMs)]))
  }

  predicate Due(s: State, id: int) { id in s.timers && s.timers[id] <= s.clock }

  function FireStep(s: State, id: int): State {
    if Due(s, id) then Callback(s.(timers := s.timers - {id}), id) else s
  }

  function DrainStep(s: State, reason: string): State {
    s.(pending := map[],
       timers := s.timers - s.pending.Keys,
       promises := map id | id in s.promises ::
         if id in s.pending then s.promises[id] + [Drained(reason)] else s.promises[id])
  }

  function Step(lib: Lib, s: State, a: Action): State {
    match a
    case Call(methodName, timeoutMs) => CallStep(s, methodName, timeoutMs)
    case Feed(frame) => FeedStep(lib, s, frame)
    case Fire(id) => FireStep(s, id)
    case Stale(id) => if id in s.timers then s else Callback(s, id)
    case Drain(reason) => DrainStep(s, reason)
    case Tick(ms) => s.(clock := s.clock + ms)
  }

  /** Every interleaving is a list of actions; an action that is not enabled changes nothing. */
  function Run(lib: Lib, acts: seq<Action>): State {
    if acts == [] then INIT else Step(lib, Run(lib, acts[..|acts| - 1]), acts[|acts| - 1])
  }

  // ---------------------------------------------------------------------------------------------
  // Invariants
  // ---------------------------------------------------------------------------------------------

  /** No id is reused, and no call is settled twice or while it is pending. */
  ghost predicate Ledger(s: State) {
    && 1 <= s.nextId
    && (forall id :: id in s.promises <==> 1 <= id < s.nextId)
    && s.pending.Keys <= s.promises.Keys
    && (forall id :: id in s.promises ==> |s.promises[id]| <= if id in s.pending then 0 else 1)
  }

  /** A call that is neither pending nor settled. */
  predicate Lost(s: State, id: int) {
    id in s.promises && id !in s.pending && s.promises[id] == []
  }

  /** Issued ids are the disjoint union of the settled and the pending ones. */
  ghost predicate Conserved(s: State) {
    Ledger(s) && forall id :: !Lost(s, id)
  }

  /** Armed timers and pending entries are in bijection, and each timer has its own entry's deadline. */
  ghost predicate TimersMatch(s: State) {
    && s.timers.Keys == s.pending.Keys
    && (forall id :: id in s.pending ==>
          && s.pending[id].issuedAt <= s.clock
          && s.timers[id] == s.pending[id].issuedAt + NodeDelay(s.pending[id].timeoutMs))
  }

  lemma StepKeepsInvariants(lib: Lib, s: State, a: Action)
    requires Ledger(s) && TimersMatch(s)
    ensures Ledger(Step(lib, s, a)) && TimersMatch(Step(lib, s, a))
  {
  }

  predicate Loses(lib: Lib, s: State, a: Action, id: int) {
    a.Feed? && Throws(lib, s, a.frame) && Target(lib, a.frame) == Some(id)
  }

  lemma StepLoses(lib: Lib, s: State, a: Action, id: int)
    requires Ledger(s) && TimersMatch(s)
    ensures Lost(Step(lib, s, a), id) <==> Lost(s, id) || Loses(lib, s, a, id)
  {
  }

  lemma CallKeepsInvariants(s: State, methodName: string, timeoutMs: Option<int>)
    requires Ledger(s) && TimersMatch(s)
    ensures Ledger(CallStep(s, methodName, timeoutMs)) && TimersMatch(CallStep(s, methodName, timeoutMs))
    ensures s.nextId !in s.promises
  {
  }

  lemma FeedKeepsInvariants(lib: Lib, s: State, f: Frame)
    requires Ledger(s) && TimersMatch(s)
    ensures Ledger(FeedStep(lib, s, f)) && TimersMatch(FeedStep(lib, s, f))
  {
  }

  /** A reply with "error": null has reached the call while it was pending. */
  ghost predicate NullErrorReached(lib: Lib, acts: seq<Action>, id: int) {
    exists j :: 0 <= j < |acts| && Loses(lib, Run(lib, acts[..j]), acts[j], id)
  }

  lemma NullErrorSnoc(lib: Lib, acts: seq<Action>, id: int)
    requires acts != []
    ensures var pre := acts[..|acts| - 1];
      NullErrorReached(lib, acts, id) <==>
        NullErrorReached(lib, pre, id) || Loses(lib, Run(lib, pre), acts[|acts| - 1], id)
  {
    var pre := acts[..|acts| - 1];
    forall j | 0 <= j < |pre| ensures pre[..j] == acts[..j] && pre[j] == acts[j] {
    }
    if NullErrorReached(lib, pre, id) {
      var j :| 0 <= j < |pre| && Loses(lib, Run(lib, pre[..j]), pre[j], id);
      assert Loses(lib, Run(lib, acts[..j]), acts[j], id);
    }
  }

  /**
   In every run the timers match the pending table, no id is reused and no call is settled twice. A
   call is neither pending nor settled exactly when a reply with "error": null reached it; so the
   issued ids are the disjoint union of the settled and the pending ones exactly when none did.
   */
  lemma {:induction false} LedgerBalances(lib: Lib, acts: seq<Action>)
    ensures TimersMatch(Run(lib, acts)) && Ledger(Run(lib, acts))
    ensures forall id :: Lost(Run(lib, acts), id) <==> NullErrorReached(lib, acts, id)
    ensures Conserved(Run(lib, acts)) <==> forall id :: !NullErrorReached(lib, acts, id)
  {
    if acts != [] {
      var pre, a := acts[..|acts| - 1], acts[|acts| - 1];
      LedgerBalances(lib, pre);
      StepKeepsInvariants(lib, Run(lib, pre), a);
      forall id ensures Lost(Run(lib, acts), id) <==> NullErrorReached(lib, acts, id) {
        StepLoses(lib, Run(lib, pre), a, id);
        NullErrorSnoc(lib, acts, id);
      }
    }
  }

  /** The reply that loses a call: it is off the table, its timer is gone, and its promise hangs. */
  lemma NullErrorLosesCall(lib: Lib)
    requires lib.number(Num(1)) == Some(1)
    ensures var s := Run(lib, [Call("hook.fire", None), Feed(ErrorReply(Num(1), Null))]);
      && Lost(s, 1) && !Conserved(s)
      && s.pending == map[] && s.timers == map[] && s.promises == map[1 := []]
  {
    var a := [Call("hook.fire", None), Feed(ErrorReply(Num(1), Null))];
    var s := CallStep(INIT, "hook.fire", None);
    assert a[..1] == [a[0]] && [a[0]][..0] == [];
    assert Run(lib, [a[0]]) == Step(lib, Run(lib, []), a[0]) == s;
    var t := Run(lib, a);
    assert t == FeedStep(lib, s, ErrorReply(Num(1), Null));
    assert t.promises == map[1 := []];
    assert t.pending == map[] && t.timers == map[];
    assert Lost(t, 1);
  }

  // ---------------------------------------------------------------------------------------------
  // Correlation, stated on the list of actions alone
  // ---------------------------------------------------------------------------------------------

  function ClockAfter(acts: seq<Action>): nat {
    if acts == [] then 0 else
    ClockAfter(acts[..|acts| - 1]) + match acts[|acts| - 1] case Tick(ms) => ms case _ => 0
  }

  function CallsIn(acts: seq<Action>): nat {
    if acts == [] then 0 else CallsIn(acts[..|acts| - 1]) + if acts[|acts| - 1].Call? then 1 else 0
  }

  /** The action at i is the call that was given this id: the id-th call. */
  predicate Issues(acts: seq<Action>, i: nat, id: int) {
    i < |acts| && acts[i].Call? && CallsIn(acts[..i]) + 1 == id
  }

  /** When the timer of the call at i is due. */
  function Deadline(acts: seq<Action>, i: nat): nat
    requires i < |acts| && acts[i].Call?
  {
    ClockAfter(acts[..i]) + NodeDelay(EffectiveTimeout(acts[i].timeoutMs))
  }

  /** The action at j can end the call issued at i: its reply, its timer at or after the deadline, a drain. */
  predicate Closes(lib: Lib, acts: seq<Action>, i: nat, id: int, j: nat)
    requires Issues(acts, i, id)
  {
    && i < j < |acts|
    && match acts[j]
       case Feed(frame) => Target(lib, frame) == Some(id)
       case Fire(timer) => timer == id && Deadline(acts, i) <= ClockAfter(acts[..j])
       case Drain(_) => true
       case _ => false
  }

  /** What the call is given by the action that closes it: one outcome, or none for a null error. */
  function ClosingOutcome(lib: Lib, acts: seq<Action>, i: nat, id: int, j: nat): seq<Outcome>
    requires Issues(acts, i, id) && Closes(lib, acts, i, id, j)
  {
    match acts[j]
    case Feed(frame) => Gives(frame)
    case Fire(_) => [TimedOut(acts[i].methodName, EffectiveTimeout(acts[i].timeoutMs))]
    case Drain(reason) => [Drained(reason)]
  }

  ghost predicate FirstClose(lib: Lib, acts: seq<Action>, i: nat, id: int, j: nat)
    requires Issues(acts, i, id)
  {
    Closes(lib, acts, i, id, j) && forall k :: i < k < j ==> !Closes(lib, acts, i, id, k)
  }

  lemma {:induction false} Counters(lib: Lib, acts: seq<Action>)
    ensures Run(lib, acts).nextId == CallsIn(acts) + 1
    ensures Run(lib, acts).clock == ClockAfter(acts)
  {
    if acts != [] {
      Counters(lib, acts[..|acts| - 1]);
    }
  }

  /** The fate of a call after a run, told by the actions that follow it. */
  ghost predicate Told(lib: Lib, acts: seq<Action>, i: nat, id: int)
    requires Issues(acts, i, id)
  {
    var s := Run(lib, acts);
    && id in s.promises
    && (id in s.pending <==> forall j: nat :: !Closes(lib, acts, i, id, j))
    && (forall j: nat :: FirstClose(lib, acts, i, id, j) ==>
          s.promises[id] == ClosingOutcome(lib, acts, i, id, j))
    && (id in s.pending ==>
          s.pending[id] == Pending(acts[i].methodName, EffectiveTimeout(acts[i].timeoutMs), ClockAfter(acts[..i])))
  }

  lemma ClosesInPrefix(lib: Lib, acts: seq<Action>, i: nat, id: int, j: nat)
    requires Issues(acts, i, id) && i < |acts| - 1 && j < |acts| - 1
    ensures Issues(acts[..|acts| - 1], i, id)
    ensures Closes(lib, acts, i, id, j) == Closes(lib, acts[..|acts| - 1], i, id, j)
    ensures Closes(lib, acts, i, id, j) ==>
      ClosingOutcome(lib, acts, i, id, j) == ClosingOutcome(lib, acts[..|acts| - 1], i, id, j)
  {
    assert acts[..|acts| - 1][..i] == acts[..i];
    assert acts[..|acts| - 1][..j] == acts[..j];
  }

  /** One action and one pending call: it is closed with that action's outcome, or left as it was. */
  lemma StepOnPending(lib: Lib, s: State, a: Action, id: int)
    requires Ledger(s) && TimersMatch(s)
    requires id in s.pending
    ensures var t := Step(lib, s, a); var e := s.pending[id];
      && id in t.promises
      && match a
         case Feed(frame) =>
           if Target(lib, frame) == Some(id) then id !in t.pending && t.promises[id] == Gives(frame)
           else id in t.pending && t.pending[id] == e
         case Fire(timer) =>
           if timer == id && e.issuedAt + NodeDelay(e.timeoutMs) <= s.clock
           then id !in t.pending && t.promises[id] == [TimedOut(e.methodName, e.timeoutMs)]
           else id in t.pending && t.pending[id] == e
         case Drain(reason) => id !in t.pending && t.promises[id] == [Drained(reason)]
         case _ => id in t.pending && t.pending[id] == e
  {
    assert s.promises[id] == [];
  }

  lemma StepOnSettled(lib: Lib, s: State, a: Action, id: int)
    requires Ledger(s) && TimersMatch(s)
    requires id in s.promises && id !in s.pending
    ensures var t := Step(lib, s, a);
      id in t.promises && id !in t.pending && t.promises[id] == s.promises[id]
  {
  }

  ghost predicate SamePrefix(lib: Lib, acts: seq<Action>, i: nat, id: int)
    requires Issues(acts, i, id) && i < |acts| - 1 && Issues(acts[..|acts| - 1], i, id)
  {
    var pre := acts[..|acts| - 1];
    forall j: nat :: j < |pre| ==>
      && Closes(lib, acts, i, id, j) == Closes(lib, pre, i, id, j)
      && (Closes(lib, acts, i, id, j) ==>
            ClosingOutcome(lib, acts, i, id, j) == ClosingOutcome(lib, pre, i, id, j))
  }

  lemma OneMoreWhenPending(lib: Lib, acts: seq<Action>, i: nat, id: int)
    requires Issues(acts, i, id) && i < |acts| - 1 && Issues(acts[..|acts| - 1], i, id)
    requires SamePrefix(lib, acts, i, id) && Told(lib, acts[..|acts| - 1], i, id)
    requires id in Run(lib, acts[..|acts| - 1]).pending
    ensures Told(lib, acts, i, id)
  {
    var n := |acts| - 1;
    var pre := acts[..n];
    LedgerBalances(lib, pre);
    Counters(lib, pre);
    assert pre[..i] == acts[..i];
    StepOnPending(lib, Run(lib, pre), acts[n], id);
    ToldAtLast(lib, acts, pre, i, id);
  }

  /** What Told comes to when only the last action can have closed the call. */
  lemma ToldAtLast(lib: Lib, acts: seq<Action>, pre: seq<Action>, i: nat, id: int)
    requires Issues(acts, i, id) && i < |acts| - 1 && pre == acts[..|acts| - 1] && Issues(pre, i, id)
    requires SamePrefix(lib, acts, i, id)
    requires forall j: nat :: !Closes(lib, pre, i, id, j)
    requires id in Run(lib, acts).promises
    requires Closes(lib, acts, i, id, |acts| - 1) <==> id !in Run(lib, acts).pending
    requires Closes(lib, acts, i, id, |acts| - 1) ==>
      Run(lib, acts).promises[id] == ClosingOutcome(lib, acts, i, id, |acts| - 1)
    requires id in Run(lib, acts).pending ==>
      Run(lib, acts).pending[id]
        == Pending(acts[i].methodName, EffectiveTimeout(acts[i].timeoutMs), ClockAfter(acts[..i]))
    ensures Told(lib, acts, i, id)
  {
    assert forall j: nat :: Closes(lib, acts, i, id, j) ==> j == |acts| - 1;
  }

  lemma OneMoreWhenSettled(lib: Lib, acts: seq<Action>, i: nat, id: int)
    requires Issues(acts, i, id) && i < |acts| - 1 && Issues(acts[..|acts| - 1], i, id)
    requires SamePrefix(lib, acts, i, id) && Told(lib, acts[..|acts| - 1], i, id)
    requires id !in Run(lib, acts[..|acts| - 1]).pending
    ensures Told(lib, acts, i, id)
  {
    var pre := acts[..|acts| - 1];
    LedgerBalances(lib, pre);
    StepOnSettled(lib, Run(lib, pre), acts[|acts| - 1], id);
    assert id !in Run(lib, acts).pending;
    var c :| i < c < |pre| && Closes(lib, pre, i, id, c);
    assert Closes(lib, acts, i, id, c);
    forall j: nat | FirstClose(lib, acts, i, id, j)
      ensures Run(lib, acts).promises[id] == ClosingOutcome(lib, acts, i, id, j)
    {
      assert j <= c;
      assert FirstClose(lib, pre, i, id, j);
    }
  }

  /**
   In every interleaving, a call is settled by the first action that can close it after it was
   issued, with that action's outcome, once; and it is pending when there has been none.
   */
  lemma {:induction false} FirstCloseDecides(lib: Lib, acts: seq<Action>, i: nat, id: int)
    requires Issues(acts, i, id)
    ensures Told(lib, acts, i, id)
  {
    var n := |acts| - 1;
    var pre := acts[..n];
    if i == n {
      Counters(lib, pre);
    } else {
      assert pre[..i] == acts[..i];
      forall j: nat | j < n
        ensures Closes(lib, acts, i, id, j) == Closes(lib, pre, i, id, j)
        ensures Closes(lib, acts, i, id, j) ==>
          ClosingOutcome(lib, acts, i, id, j) == ClosingOutcome(lib, pre, i, id, j)
      {
        ClosesInPrefix(lib, acts, i, id, j);
      }
      FirstCloseDecides(lib, pre, i, id);
      if id in Run(lib, pre).pending {
        OneMoreWhenPending(lib, acts, i, id);
      } else {
        OneMoreWhenSettled(lib, acts, i, id);
      }
    }
  }

  lemma {:induction false} StaysSettled(lib: Lib, acts: seq<Action>, more: seq<Action>, id: int)
    requires id in Run(lib, acts).promises && id !in Run(lib, acts).pending
    ensures var t := Run(lib, acts + more);
      id in t.promises && id !in t.pending && t.promises[id] == Run(lib, acts).promises[id]
  {
    if more == [] {
      assert acts + more == acts;
    } else {
      var m := |more| - 1;
      StaysSettled(lib, acts, more[..m], id);
      assert (acts + more)[..|acts + more| - 1] == acts + more[..m];
      LedgerBalances(lib, acts + more[..m]);
      StepOnSettled(lib, Run(lib, acts + more[..m]), more[m], id);
    }
  }

  /**
   Once off the table, for good: the call keeps its one outcome, and later frames bearing its id are
   refused and change nothing.
   */
  lemma SettledForGood(lib: Lib, acts: seq<Action>, more: seq<Action>, id: int)
    requires id in Run(lib, acts).promises && id !in Run(lib, acts).pending
    ensures var t := Run(lib, acts + more);
      && id in t.promises && id !in t.pending
      && t.promises[id] == Run(lib, acts).promises[id]
      && |t.promises[id]| == (if NullErrorReached(lib, acts, id) then 0 else 1)
      && forall f: Frame :: Target(lib, f) == Some(id) ==> FeedStep(lib, t, f) == t
  {
    var s := Run(lib, acts);
    StaysSettled(lib, acts, more, id);
    LedgerBalances(lib, acts);
    assert Lost(s, id) <==> NullErrorReached(lib, acts, id);
  }

  // ---------------------------------------------------------------------------------------------
  // Replies may arrive in any order
  // ---------------------------------------------------------------------------------------------

  function FeedAll(lib: Lib, s: State, fs: seq<Frame>): State {
    if fs == [] then s else FeedStep(lib, FeedAll(lib, s, fs[..|fs| - 1]), fs[|fs| - 1])
  }

  /** What feed answers for the frame at k when the frames are fed in this order. */
  predicate AcceptFlag(lib: Lib, s: State, fs: seq<Frame>, k: nat)
    requires k < |fs|
  {
    Accepts(lib, FeedAll(lib, s, fs[..k]), fs[k])
  }

  /** Well-formed replies, no two of them to the same call. */
  ghost predicate DistinctReplies(lib: Lib, fs: seq<Frame>) {
    && (forall i :: 0 <= i < |fs| ==> Target(lib, fs[i]).Some? && fs[i].error != Some(Null))
    && (forall i, j :: 0 <= i < j < |fs| ==> Target(lib, fs[i]) != Target(lib, fs[j]))
  }

  /** The frame of fs that answers the call, if there is one. */
  function ReplyTo(lib: Lib, fs: seq<Frame>, id: int): Option<Frame> {
    if fs == [] then None
    else if Target(lib, fs[|fs| - 1]) == Some(id) then Some(fs[|fs| - 1])
    else ReplyTo(lib, fs[..|fs| - 1], id)
  }

  lemma {:induction false} ReplyToIsMember(lib: Lib, fs: seq<Frame>, id: int)
    ensures var r := ReplyTo(lib, fs, id); r.Some? ==> r.value in fs && Target(lib, r.value) == Some(id)
  {
    if fs != [] { ReplyToIsMember(lib, fs[..|fs| - 1], id); }
  }

  lemma {:induction false} MemberIsReplyTo(lib: Lib, fs: seq<Frame>, k: nat, id: int)
    requires DistinctReplies(lib, fs) && k < |fs| && Target(lib, fs[k]) == Some(id)
    ensures ReplyTo(lib, fs, id) == Some(fs[k])
  {
    var n := |fs| - 1;
    if k < n {
      assert Target(lib, fs[k]) != Target(lib, fs[n]);
      MemberIsReplyTo(lib, fs[..n], k, id);
    }
  }

  lemma SameReplyTo(lib: Lib, fs: seq<Frame>, gs: seq<Frame>, id: int)
    requires DistinctReplies(lib, fs) && DistinctReplies(lib, gs)
    requires forall f :: f in fs <==> f in gs
    ensures ReplyTo(lib, fs, id) == ReplyTo(lib, gs, id)
  {
    ReplyToIsMember(lib, fs, id);
    ReplyToIsMember(lib, gs, id);
    var r, q := ReplyTo(lib, fs, id), ReplyTo(lib, gs, id);
    if r.Some? {
      var k :| 0 <= k < |gs| && gs[k] == r.value;
      MemberIsReplyTo(lib, gs, k, id);
    } else if q.Some? {
      var k :| 0 <= k < |fs| && fs[k] == q.value;
      MemberIsReplyTo(lib, fs, k, id);
    }
  }

  /** One call after feeding fs, told by the reply to it; which, not when, is what counts. */
  ghost predicate FedCall(lib: Lib, s: State, fs: seq<Frame>, t: State, id: int) {
    var r := ReplyTo(lib, fs, id);
    && (id in t.pending <==> id in s.pending && r.None?)
    && (id in t.timers <==> id in s.timers && r.None?)
    && (id in t.promises <==> id in s.promises)
    && (id in t.pending ==> t.pending[id] == s.pending[id])
    && (id in t.timers ==> t.timers[id] == s.timers[id])
    && (id in t.promises ==>
          t.promises[id] == s.promises[id] +
            if id in s.pending && r.Some? && IsReply(r.value) then Gives(r.value) else [])
  }

  lemma FeedOnCall(lib: Lib, s: State, f: Frame, id: int)
    requires Ledger(s) && TimersMatch(s)
    ensures var t := FeedStep(lib, s, f);
      && t.nextId == s.nextId && t.clock == s.clock
      && FedCall(lib, s, [f], t, id)
  {
  }

  lemma {:induction false} FeedAllOnCall(lib: Lib, s: State, fs: seq<Frame>, id: int)
    requires Ledger(s) && TimersMatch(s) && DistinctReplies(lib, fs)
    ensures var t := FeedAll(lib, s, fs);
      && Ledger(t) && TimersMatch(t)
      && t.nextId == s.nextId && t.clock == s.clock
      && FedCall(lib, s, fs, t, id)
  {
    if fs != [] {
      var n := |fs| - 1;
      FeedAllOnCall(lib, s, fs[..n], id);
      var t := FeedAll(lib, s, fs[..n]);
      FeedKeepsInvariants(lib, t, fs[n]);
      FeedOnCall(lib, t, fs[n], id);
      assert [fs[n]][..0] == [];
      if Target(lib, fs[n]) == Some(id) {
        ReplyToIsMember(lib, fs[..n], id);
        FirstReplyTo(lib, fs, id);
      }
    }
  }

  lemma FirstReplyTo(lib: Lib, fs: seq<Frame>, id: int)
    requires DistinctReplies(lib, fs) && fs != []
    requires Target(lib, fs[|fs| - 1]) == Some(id)
    ensures ReplyTo(lib, fs[..|fs| - 1], id) == None
  {
    ReplyToIsMember(lib, fs[..|fs| - 1], id);
  }

  /** Whenever it comes, a reply is accepted exactly when its call was pending at the start. */
  lemma AcceptedAnywhere(lib: Lib, s: State, fs: seq<Frame>, k: nat)
    requires Ledger(s) && TimersMatch(s) && DistinctReplies(lib, fs) && k < |fs|
    ensures AcceptFlag(lib, s, fs, k) <==> Target(lib, fs[k]).value in s.pending
  {
    var id := Target(lib, fs[k]).value;
    var upTo := fs[..k + 1];
    assert upTo[..k] == fs[..k];
    FirstReplyTo(lib, upTo, id);
    FeedAllOnCall(lib, s, fs[..k], id);
  }

  /**
   Any permutation of well-formed replies with distinct ids leads to the same state, hence to the
   same outcome for every call; and each reply gets the same accept flag wherever it comes.
   */
  lemma ReplyOrderConfluence(lib: Lib, s: State, fs: seq<Frame>, gs: seq<Frame>)
    requires Ledger(s) && TimersMatch(s)
    requires DistinctReplies(lib, fs) && multiset(fs) == multiset(gs)
    ensures FeedAll(lib, s, fs) == FeedAll(lib, s, gs)
    ensures forall j, k :: 0 <= j < |fs| && 0 <= k < |gs| && fs[j] == gs[k] ==>
      AcceptFlag(lib, s, fs, j) == AcceptFlag(lib, s, gs, k)
  {
    SameMembers(fs, gs);
    PermutedReplies(lib, fs, gs);
    SameAfterFeeding(lib, s, fs, gs);
    forall j, k | 0 <= j < |fs| && 0 <= k < |gs| && fs[j] == gs[k]
      ensures AcceptFlag(lib, s, fs, j) == AcceptFlag(lib, s, gs, k)
    {
      AcceptedAnywhere(lib, s, fs, j);
      AcceptedAnywhere(lib, s, gs, k);
    }
  }

  lemma SameAfterFeeding(lib: Lib, s: State, fs: seq<Frame>, gs: seq<Frame>)
    requires Ledger(s) && TimersMatch(s)
    requires DistinctReplies(lib, fs) && DistinctReplies(lib, gs)
    requires forall f :: f in fs <==> f in gs
    ensures FeedAll(lib, s, fs) == FeedAll(lib, s, gs)
  {
    var t, u := FeedAll(lib, s, fs), FeedAll(lib, s, gs);
    forall id
      ensures id in t.pending <==> id in u.pending
      ensures id in t.timers <==> id in u.timers
      ensures id in t.promises <==> id in u.promises
      ensures id in t.pending ==> t.pending[id] == u.pending[id]
      ensures id in t.timers ==> t.timers[id] == u.timers[id]
      ensures id in t.promises ==> t.promises[id] == u.promises[id]
    {
      FeedAllOnCall(lib, s, fs, id);
      FeedAllOnCall(lib, s, gs, id);
      SameReplyTo(lib, fs, gs, id);
    }
    FeedAllOnCall(lib, s, fs, 0);
    FeedAllOnCall(lib, s, gs, 0);
    assert t.pending == u.pending;
    assert t.timers == u.timers;
    assert t.promises == u.promises;
  }

  lemma SameMembers<T>(a: seq<T>, b: seq<T>)
    requires multiset(a) == multiset(b)
    ensures forall x :: x in a <==> x in b
  {
    assert forall x :: x in a <==> x in multiset(a);
    assert forall x :: x in b <==> x in multiset(b);
  }

  /** A permutation of replies with distinct ids still has distinct ids. */
  lemma PermutedReplies(lib: Lib, fs: seq<Frame>, gs: seq<Frame>)
    requires DistinctReplies(lib, fs) && multiset(fs) == multiset(gs)
    ensures DistinctReplies(lib, gs)
  {
    SameMembers(fs, gs);
    assert forall k :: 0 <= k < |gs| ==> gs[k] in fs;
    forall i, j | 0 <= i < j < |gs| ensures Target(lib, gs[i]) != Target(lib, gs[j]) {
      if Target(lib, gs[i]) == Target(lib, gs[j]) {
        var x :| 0 <= x < |fs| && fs[x] == gs[i];
        var y :| 0 <= y < |fs| && fs[y] == gs[j];
        assert gs[i] == gs[j];
        Twice(gs, i, j);
        Once(fs, x);
      }
    }
  }

  lemma Twice<T>(s: seq<T>, i: nat, j: nat)
    requires i < j < |s| && s[i] == s[j]
    ensures multiset(s)[s[i]] >= 2
  {
    assert s == s[..i] + [s[i]] + s[i + 1..j] + [s[j]] + s[j + 1..];
  }

  lemma Once<T>(s: seq<T>, x: nat)
    requires x < |s|
    requires forall i :: 0 <= i < |s| && i != x ==> s[i] != s[x]
    ensures multiset(s)[s[x]] == 1
  {
    assert s == s[..x] + [s[x]] + s[x + 1..];
    assert s[x] !in s[..x] && s[x] !in s[x + 1..];
    assert s[x] !in multiset(s[..x]) && s[x] !in multiset(s[x + 1..]);
  }

  // ---------------------------------------------------------------------------------------------
  // Timers
  // ---------------------------------------------------------------------------------------------

  function FireAll(s: State, ids: seq<int>): State {
    if ids == [] then s else FireStep(FireAll(s, ids[..|ids| - 1]), ids[|ids| - 1])
  }

  lemma FireKeepsInvariants(s: State, id: int)
    requires Ledger(s) && TimersMatch(s)
    ensures var t := FireStep(s, id);
      && Ledger(t) && TimersMatch(t)
      && t.clock == s.clock
      && t.pending == (if Due(s, id) then s.pending - {id} else s.pending)
      && t.timers == (if Due(s, id) then s.timers - {id} else s.timers)
  {
  }

  lemma {:induction false} FireAllClosedForm(s: State, ids: seq<int>)
    requires Ledger(s) && TimersMatch(s)
    ensures var t := FireAll(s, ids); var due := set id | id in ids && Due(s, id);
      && Ledger(t) && TimersMatch(t) && t.clock == s.clock
      && t.pending == s.pending - due && t.timers == s.timers - due
  {
    if ids != [] {
      var n := |ids| - 1;
      FireAllClosedForm(s, ids[..n]);
      FireKeepsInvariants(FireAll(s, ids[..n]), ids[n]);
      assert forall id :: id in ids <==> id in ids[..n] || id == ids[n];
    }
  }

  /** Once every due timer has fired, in whatever order, no pending call has reached its timeout. */
  lemma NoCallIsOverdue(s: State, ids: seq<int>, id: int)
    requires Ledger(s) && TimersMatch(s)
    requires forall x :: Due(s, x) ==> x in ids
    ensures var t := FireAll(s, ids);
      id in t.pending ==> t.clock - t.pending[id].issuedAt < NodeDelay(t.pending[id].timeoutMs)
  {
    FireAllClosedForm(s, ids);
  }

  lemma DrainClosedForm(s: State, reason: string)
    requires Ledger(s) && TimersMatch(s)
    ensures var t := DrainStep(s, reason);
      && Ledger(t) && TimersMatch(t)
      && t.timers == map[]
      && (forall id :: Lost(t, id) <==> Lost(s, id))
      && (forall x :: x in s.pending ==> x in s.promises && 1 <= x < s.nextId)
      && (forall x :: x in s.timers ==> x in s.pending)
  {
  }

  /** The callback of a timer that feed, drain or its own firing has taken off settles nothing. */
  lemma CancelledTimerIsHarmless(lib: Lib, acts: seq<Action>, id: int)
    requires id !in Run(lib, acts).timers
    ensures Callback(Run(lib, acts), id) == Run(lib, acts)
  {
    LedgerBalances(lib, acts);
  }

  // ---------------------------------------------------------------------------------------------
  // The class
  // ---------------------------------------------------------------------------------------------

  class OutboundRpc {
    const out: Wire
    var nextId: int
    var pending: map<int, Pending>
    // The promises handed out, and the event loop as far as this object is concerned.
    var promises: map<int, seq<Outcome>>
    var timers: map<int, nat>
    var clock: nat

    ghost function View(): State
      reads this
    {
      State(nextId, pending, timers, promises, clock)
    }

    ghost predicate Valid()
      reads this
    {
      Ledger(View()) && TimersMatch(View())
    }

    constructor (out: Wire)
      ensures Valid() && View() == INIT && this.out == out
    {
      this.out := out;
      nextId, pending, promises, timers, clock := 1, map[], map[], map[], 0;
    }

    /** What constructing the promise does: its timer is armed and its entry made. */
    method Register(methodName: string, timeoutMs: Option<int>) returns (id: int)
      requires Valid()
      modifies this`nextId, this`pending, this`timers, this`promises
      ensures Valid() && View() == CallStep(old(View()), methodName, timeoutMs)
      ensures id == old(nextId) && id !in old(promises) && id in pending && promises[id] == []
    {
      CallKeepsInvariants(View(), methodName, timeoutMs);
      id := nextId;
      nextId := nextId + 1;
      var effectiveTimeout := EffectiveTimeout(timeoutMs);
      timers := timers[id := clock + NodeDelay(effectiveTimeout)];
      pending := pending[id := Pending(methodName, effectiveTimeout, clock)];
      promises := promises[id := []];
      assert View() == CallStep(old(View()), methodName, timeoutMs);
    }

    /** threw: the parameters could not be serialised; the entry and its timer stay behind. */
    method Call(methodName: string, params: Json, timeoutMs: Option<int>) returns (id: int, threw: bool)
      requires Valid()
      modifies this`nextId, this`pending, this`timers, this`promises, out
      ensures Valid()
      ensures View() == CallStep(old(View()), methodName, timeoutMs)
      ensures id == old(nextId) && id !in old(promises) && id in pending && promises[id] == []
      ensures var f := Frame(Some(Num(id)), Some(Str(methodName)), Some(params), None, None);
        && threw == out.lib.encode(f).None?
        && out.View() == Write(out.lib, old(out.View()), ByRpc(id), f)
    {
      id := Register(methodName, timeoutMs);
      var ok := out.Send(Request(id, methodName, params), ByRpc(id));
      threw := !ok;
    }

    method Settle(id: int, o: Outcome)
      requires id in promises
      modifies this`promises
      ensures promises == Append(old(promises), id, [o])
    {
      promises := promises[id := promises[id] + [o]];
    }

    /** threw: the reply had a null error, and its call is lost. */
    method Feed(frame: Frame) returns (absorbed: bool, threw: bool)
      requires Valid()
      modifies this`pending, this`timers, this`promises
      ensures Valid() && View() == FeedStep(out.lib, old(View()), frame)
      ensures threw == Throws(out.lib, old(View()), frame)
      ensures absorbed == (Accepts(out.lib, old(View()), frame) && !threw)
    {
      FeedKeepsInvariants(out.lib, View(), frame);
      absorbed, threw := false, false;
      if frame.id.None? || !(frame.result.Some? || frame.error.Some?) { return; }
      match out.lib.number(frame.id.value)
      case None =>
      case Some(id) =>
        if id !in pending { return; }
        timers := timers - {id};
        pending := pending - {id};
        match frame.error {
          case Some(error) =>
            if error == Null {
              assert promises == Append(promises, id, []);
              threw := true;
              return;
            }
            Settle(id, Failed(error));
          case None =>
            Settle(id, Resolved(frame.result.value));
        }
        absorbed := true;
    }

    method OnTimeout(id: int)
      requires Ledger(View())
      modifies this`pending, this`promises
      ensures View() == Callback(old(View()), id)
    {
      if id in pending {
        var entry := pending[id];
        pending := pending - {id};
        Settle(id, TimedOut(entry.methodName, entry.timeoutMs));
      }
    }

    /** The event loop fires one timer, if it is due. */
    method Fire(id: int)
      requires Valid()
      modifies this`timers, this`pending, this`promises
      ensures Valid() && View() == FireStep(old(View()), id)
    {
      FireKeepsInvariants(View(), id);
      if id in timers && timers[id] <= clock {
        timers := timers - {id};
        OnTimeout(id);
      }
    }

    method Tick(ms: nat)
      requires Valid()
      modifies this`clock
      ensures Valid() && View() == old(View()).(clock := old(clock) + ms)
    {
      clock := clock + ms;
    }

    /** The event loop fires every timer that is due. */
    method RunDueTimers()
      requires Valid()
      modifies this`timers, this`pending, this`promises
      ensures Valid()
      ensures exists order :: View() == FireAll(old(View()), order)
      ensures forall id :: id in pending ==> clock - pending[id].issuedAt < NodeDelay(pending[id].timeoutMs)
    {
      ghost var start := View();
      ghost var order: seq<int> := [];
      for id := 1 to nextId
        invariant Valid()
        invariant View() == FireAll(start, order)
        invariant forall x :: x in order <==> 1 <= x < id
      {
        Fire(id);
        order := order + [id];
        assert order[..|order| - 1] + [id] == order;
      }
      forall id: int ensures id in pending ==> clock - pending[id].issuedAt < NodeDelay(pending[id].timeoutMs) {
        NoCallIsOverdue(start, order, id);
      }
    }

    method Drain(reason: string)
      requires Valid()
      modifies this`pending, this`promises, this`timers
      ensures Valid()
      ensures View() == DrainStep(old(View()), reason)
      ensures pending == map[] && timers == map[]
      ensures forall id :: id in promises ==> |promises[id]| == if Lost(old(View()), id) then 0 else 1
    {
      ghost var s := View();
      DrainClosedForm(s, reason);
      RejectAll(reason);
      ghost var t := DrainStep(s, reason);
      assert promises.Keys == t.promises.Keys;
      assert forall x :: x in promises ==> promises[x] == t.promises[x];
      assert promises == t.promises;
      pending := map[];
    }

    /** The map is walked in insertion order, which is the order of the ids. */
    method RejectAll(reason: string)
      requires 1 <= nextId
      requires forall x :: x in pending ==> x in promises && 1 <= x < nextId
      requires forall x :: x in timers ==> x in pending
      modifies this`promises, this`timers
      ensures promises.Keys == old(promises.Keys)
      ensures forall x :: x in promises ==>
        promises[x] == if x in pending then old(promises)[x] + [Drained(reason)] else old(promises)[x]
      ensures timers == map[]
    {
      for id := 1 to nextId
        invariant promises.Keys == old(promises.Keys)
        invariant forall x :: x in timers ==> id <= x && x in pending
        invariant forall x :: x in promises ==>
          promises[x] == if x in pending && x < id then old(promises)[x] + [Drained(reason)] else old(promises)[x]
      {
        if id in pending {
          timers := timers - {id};
          Settle(id, Drained(reason));
        }
      }
      assert forall x :: x !in timers;
      assert |timers| == 0;
    }
  }
}
