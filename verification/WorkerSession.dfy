/**
  One client, its connection and the worker, over every run. The connection
  delivers a prefix of what was written, in order, in each direction, and may
  stop at any point; the client may give it up at any moment while the worker
  still takes frames that were under way.
*/
module WorkerSession {
  import opened Wrappers
  import opened ClientLink

  datatype Reply = Reply(id: Id, answer: Answer)

  /** The answer of a worker that is closing; such a call is not attempted. */
  const CLOSING := Refused("Failed")

  /** The worker's end: frames taken, calls made in order, their results, and what it wrote back. */
  datatype Server = Server(
    taken: nat,
    closing: bool,
    destroyed: bool,
    running: set<Id>,
    made: seq<Id>,
    results: map<Id, Answer>,
    declined: set<Id>,
    replies: seq<Reply>)

  datatype Session = Session(client: Client, server: Server, heard: nat)

  const START := Session(CONNECTED, Server(0, false, false, {}, [], map[], {}, []), 0)

  datatype Action =
    | ClientCalls(request: Request)
    | ClientLoses
    | ClientHears
    | WorkerTakes(wrongHome: bool)
    | WorkerEnds(id: Id, answer: Answer)
    | WorkerCloses

  predicate Enabled(s: Session, a: Action) {
    match a
    case ClientCalls(_) => !s.client.closed
    case ClientLoses => true
    case ClientHears => s.heard < |s.server.replies|
    case WorkerTakes(_) => s.server.taken < |s.client.writes|
    case WorkerEnds(id, _) => id in s.server.running
    case WorkerCloses => true
  }

  /** A reply is written unless the worker destroyed the socket. */
  function Answering(w: Server, r: Reply): Server {
    if w.destroyed then w else w.(replies := w.replies + [r])
  }

  /** The frame handler up to its first await: greet, decline, drop the connection, or make the call. */
  function Take(w: Server, f: Wire, wrongHome: bool): Server {
    var t := w.(taken := w.taken + 1);
    match f
    case SecretFrame => Answering(t, Reply(0, Hello))
    case CallFrame(id, _) =>
      if t.closing then Answering(t.(declined := t.declined + {id}), Reply(id, CLOSING))
      else if wrongHome then t.(destroyed := true)
      else t.(running := t.running + {id}, made := t.made + [id])
  }

  function End(w: Server, id: Id, a: Answer): Server {
    Answering(w.(running := w.running - {id}, results := w.results[id := a]), Reply(id, a))
  }

  function Apply(s: Session, a: Action): Session
    requires Enabled(s, a)
  {
    match a
    case ClientCalls(r) => s.(client := Call(s.client, r))
    case ClientLoses => s.(client := Lost(s.client))
    case ClientHears =>
      var r := s.server.replies[s.heard];
      s.(client := Receive(s.client, r.id, r.answer), heard := s.heard + 1)
    case WorkerTakes(wrong) => s.(server := Take(s.server, s.client.writes[s.server.taken], wrong))
    case WorkerEnds(id, answer) => s.(server := End(s.server, id, answer))
    case WorkerCloses => s.(server := s.server.(closing := true))
  }

  // The invariant

  ghost predicate MadeOnce(made: seq<Id>) {
    forall i, j :: 0 <= i < j < |made| ==> made[i] != made[j]
  }

  /** The worker's books: it took the call's frame, then made it or declined it, never both. */
  ghost predicate ServerOk(w: Server, writes: seq<Wire>) {
    && w.taken <= |writes|
    && MadeOnce(w.made)
    && (forall id :: id in w.made || id in w.declined ==> Written(writes[..w.taken], id))
    && (forall id :: id in w.made <==> id in w.running || id in w.results)
    && (forall id :: !(id in w.running && id in w.results))
    && (forall id :: !(id in w.made && id in w.declined))
  }

  /** What a reply says is what the worker did with that very call. */
  ghost predicate ReplyOk(w: Server, r: Reply) {
    || (r.id in w.results && r.answer == w.results[r.id])
    || (r.id in w.declined && r.answer == CLOSING)
  }

  ghost predicate RepliesOk(w: Server) {
    && (w.taken == 0 <==> w.replies == [])
    && (w.taken == 0 ==> !w.destroyed)
    && (w.replies != [] ==> w.replies[0] == Reply(0, Hello))
    && forall i :: 0 < i < |w.replies| ==> w.replies[i].id != 0 && ReplyOk(w, w.replies[i])
  }

  ghost predicate Heard(s: Session, r: Reply) {
    exists i :: 0 < i < s.heard && i < |s.server.replies| && s.server.replies[i] == r
  }

  ghost predicate OutcomeOk(s: Session, id: Id)
    requires id in s.client.resolved
  {
    match s.client.resolved[id]
    case Answered(a) => Heard(s, Reply(id, a))
    case UnknownThrown => exists why :: Heard(s, Reply(id, Thrown(why)))
    case FailedNotSent => true
    case UnknownSent => true
  }

  ghost predicate Inv(s: Session) {
    && LinkOk(s.client)
    && ServerOk(s.server, s.client.writes)
    && RepliesOk(s.server)
    && s.heard <= |s.server.replies|
    && (s.client.greeted <==> s.heard > 0)
    && (forall id :: id in s.client.resolved ==> OutcomeOk(s, id))
  }

  lemma WrittenPrefix(writes: seq<Wire>, n: nat, id: Id)
    requires n <= |writes| && Written(writes[..n], id)
    ensures Written(writes, id)
  {
    assert writes == writes[..n] + writes[n..];
    WrittenAfter(writes[..n], writes[n..], id);
  }

  lemma MoreWrites(w: Server, writes: seq<Wire>, more: seq<Wire>)
    requires ServerOk(w, writes)
    ensures ServerOk(w, writes + more)
  {
    assert (writes + more)[..w.taken] == writes[..w.taken];
  }

  lemma TakeKeeps(w: Server, writes: seq<Wire>, wrong: bool)
    requires ServerOk(w, writes) && RepliesOk(w) && w.taken < |writes| && WrittenOnce(writes)
    requires writes[0] == SecretFrame && forall i :: 0 < i < |writes| ==> writes[i].CallFrame? && writes[i].id != 0
    ensures ServerOk(Take(w, writes[w.taken], wrong), writes) && RepliesOk(Take(w, writes[w.taken], wrong))
  {
    var f := writes[w.taken];
    var t := Take(w, f, wrong);
    assert writes[..w.taken + 1] == writes[..w.taken] + [f];
    forall id | id in t.made || id in t.declined ensures Written(writes[..t.taken], id) {
      WrittenAfter(writes[..w.taken], [f], id);
      assert f.CallFrame? && f.id == id ==> Written([f], id) by {
        assert [f][0] == f;
      }
    }
    if f.CallFrame? {
      assert forall i :: 0 <= i < w.taken ==> writes[..w.taken][i] == writes[i];
      assert f.id !in w.made && f.id !in w.declined;
    }
  }

  lemma EndKeeps(w: Server, writes: seq<Wire>, id: Id, a: Answer)
    requires ServerOk(w, writes) && RepliesOk(w) && id in w.running
    requires writes != [] && writes[0] == SecretFrame && forall i :: 0 < i < |writes| ==>
      writes[i].CallFrame? && writes[i].id != 0
    ensures ServerOk(End(w, id, a), writes) && RepliesOk(End(w, id, a))
  {
    assert id in w.made;
    assert Written(writes[..w.taken], id);
  }

  lemma IdsPositive(c: Client)
    requires LinkOk(c)
    ensures forall i :: 0 < i < |c.writes| ==> c.writes[i].CallFrame? && c.writes[i].id != 0
  {
    forall i | 0 < i < |c.writes| ensures c.writes[i].id != 0 {
      assert CallOk(c, c.writes[i].id);
    }
  }

  /** Replies already written are never unwritten, so what was heard stays heard. */
  lemma HeardStays(s: Session, t: Session)
    requires s.heard <= |s.server.replies| && s.server.replies <= t.server.replies && s.heard <= t.heard
    ensures forall r :: Heard(s, r) ==> Heard(t, r)
  {
    forall r | Heard(s, r) ensures Heard(t, r) {
      var i :| 0 < i < s.heard && i < |s.server.replies| && s.server.replies[i] == r;
      assert t.server.replies[i] == r;
    }
  }

  lemma OutcomesStay(s: Session, t: Session)
    requires Inv(s) && s.server.replies <= t.server.replies && s.heard <= t.heard
    requires forall id ::
      id in t.client.resolved && (t.client.resolved[id].Answered? || t.client.resolved[id].UnknownThrown?) ==>
      id in s.client.resolved && s.client.resolved[id] == t.client.resolved[id]
    ensures forall id :: id in t.client.resolved ==> OutcomeOk(t, id)
  {
    HeardStays(s, t);
    forall id | id in t.client.resolved ensures OutcomeOk(t, id) {
      assert id in s.client.resolved ==> OutcomeOk(s, id);
    }
  }

  lemma WorkerStepKeeps(s: Session, a: Action)
    requires Inv(s) && Enabled(s, a) && (a.WorkerTakes? || a.WorkerEnds? || a.WorkerCloses?)
    ensures Inv(Apply(s, a))
  {
    var t := Apply(s, a);
    IdsPositive(s.client);
    OutcomesStay(s, t);
    match a
    case WorkerTakes(wrong) => TakeKeeps(s.server, s.client.writes, wrong);
    case WorkerEnds(id, answer) => EndKeeps(s.server, s.client.writes, id, answer);
    case WorkerCloses =>
  }

  lemma CallStepKeeps(s: Session, a: Action)
    requires Inv(s) && Enabled(s, a) && (a.ClientCalls? || a.ClientLoses?)
    ensures Inv(Apply(s, a))
  {
    var t := Apply(s, a);
    match a
    case ClientCalls(r) =>
      CallKeeps(s.client, r);
      MoreWrites(s.server, s.client.writes, if s.client.greeted then [CallFrame(s.client.next, r)] else []);
      assert t.client.writes == s.client.writes + if s.client.greeted then [CallFrame(s.client.next, r)] else [];
      OutcomesStay(s, t);
    case ClientLoses =>
      LostKeeps(s.client);
      OutcomesStay(s, t);
  }

  lemma HearKeeps(s: Session)
    requires Inv(s) && Enabled(s, ClientHears)
    ensures Inv(Apply(s, ClientHears))
  {
    var t := Apply(s, ClientHears);
    var r := s.server.replies[s.heard];
    ReceiveKeeps(s.client, r.id, r.answer);
    if s.heard == 0 {
      MoreWrites(s.server, s.client.writes, Frames(s.client.pending, 0, s.client.next));
      OutcomesStay(s, t);
    } else if r.id in s.client.pending {
      HeardStays(s, t);
      assert Heard(t, r) by {
        assert t.server.replies[s.heard] == r;
      }
      forall id | id in t.client.resolved ensures OutcomeOk(t, id) {
        assert id in s.client.resolved ==> OutcomeOk(s, id);
      }
    } else {
      OutcomesStay(s, t);
    }
  }

  lemma StepKeeps(s: Session, a: Action)
    requires Inv(s) && Enabled(s, a)
    ensures Inv(Apply(s, a))
  {
    match a
    case ClientHears => HearKeeps(s);
    case ClientCalls(_) => CallStepKeeps(s, a);
    case ClientLoses => CallStepKeeps(s, a);
    case WorkerTakes(_) => WorkerStepKeeps(s, a);
    case WorkerEnds(_, _) => WorkerStepKeeps(s, a);
    case WorkerCloses => WorkerStepKeeps(s, a);
  }

  // Whole runs

  function Reach(acts: seq<Action>): Option<Session> {
    if acts == [] then Some(START)
    else
      match Reach(acts[..|acts| - 1])
      case None => None
      case Some(s) => if Enabled(s, acts[|acts| - 1]) then Some(Apply(s, acts[|acts| - 1])) else None
  }

  lemma {:induction false} RunKeeps(acts: seq<Action>)
    requires Reach(acts).Some?
    ensures Inv(Reach(acts).value)
  {
    if acts != [] {
      RunKeeps(acts[..|acts| - 1]);
      StepKeeps(Reach(acts[..|acts| - 1]).value, acts[|acts| - 1]);
    }
  }

  /** What a resolved call's outcome tells about the worker. */
  ghost predicate OutcomeTrue(s: Session, id: Id)
    requires id in s.client.resolved
  {
    var w := s.server;
    match s.client.resolved[id]
    case Answered(a) => (id in w.made && id in w.results && w.results[id] == a)
      || (id !in w.made && id in w.declined && a == CLOSING)
    case UnknownThrown => id in w.made && id in w.results && w.results[id].Thrown?
    case FailedNotSent => id !in w.made && !Written(s.client.writes, id)
    case UnknownSent => Written(s.client.writes, id)
  }

  /**
    In every run: no call is written or made twice; every call is either pending
    or resolved, and all are resolved once the connection is lost; before the
    greeting no pending call is written and after it every one is; and each
    outcome is true, so "not sent" was never made and an answer is the result
    of that very call.
  */
  lemma SessionIsSafe(acts: seq<Action>)
    requires Reach(acts).Some?
    ensures var s := Reach(acts).value;
      && WrittenOnce(s.client.writes) && MadeOnce(s.server.made)
      && (forall id :: id in s.server.made ==> Written(s.client.writes, id))
      && (forall id :: id in s.client.asked <==> (id in s.client.pending) != (id in s.client.resolved))
      && (s.client.closed ==> forall id :: id in s.client.asked ==> id in s.client.resolved)
      && (forall id :: id in s.client.pending ==> (s.client.greeted <==> Written(s.client.writes, id)))
      && (forall id :: id in s.client.resolved ==> OutcomeTrue(s, id))
  {
    RunKeeps(acts);
    var s := Reach(acts).value;
    forall id | id in s.server.made ensures Written(s.client.writes, id) {
      WrittenPrefix(s.client.writes, s.server.taken, id);
    }
    forall id: Id
      ensures id in s.client.asked <==> (id in s.client.pending) != (id in s.client.resolved)
      ensures id in s.client.pending ==> (s.client.greeted <==> Written(s.client.writes, id))
    {
      assert CallOk(s.client, id);
    }
    forall id | id in s.client.resolved ensures OutcomeTrue(s, id) {
      assert OutcomeOk(s, id) && CallOk(s.client, id);
    }
  }

  lemma StepKeepsOutcomes(s: Session, a: Action)
    requires Inv(s) && Enabled(s, a)
    ensures forall id :: id in s.client.resolved ==>
      id in Apply(s, a).client.resolved && Apply(s, a).client.resolved[id] == s.client.resolved[id]
  {
    forall id | id in s.client.resolved ensures id !in s.client.pending {
      assert CallOk(s.client, id);
    }
  }

  /** A promise is resolved once: the outcome of a call never changes, however the run goes on. */
  lemma {:induction false} ResolvedForGood(acts: seq<Action>, n: nat, id: Id)
    requires Reach(acts).Some? && n <= |acts|
    requires Reach(acts[..n]).Some? && id in Reach(acts[..n]).value.client.resolved
    ensures id in Reach(acts).value.client.resolved
    ensures Reach(acts).value.client.resolved[id] == Reach(acts[..n]).value.client.resolved[id]
    decreases |acts|
  {
    if n == |acts| {
      assert acts[..n] == acts;
    } else {
      var front := acts[..|acts| - 1];
      assert front[..n] == acts[..n];
      ResolvedForGood(front, n, id);
      RunKeeps(front);
      StepKeepsOutcomes(Reach(front).value, acts[|acts| - 1]);
    }
  }

  /** A call once answered "not sent" is never made by the worker, at any later point of the run. */
  lemma NotSentIsNeverMade(acts: seq<Action>, n: nat, id: Id)
    requires Reach(acts).Some? && n <= |acts| && Reach(acts[..n]).Some?
    requires var c := Reach(acts[..n]).value.client; id in c.resolved && c.resolved[id] == FailedNotSent
    ensures id !in Reach(acts).value.server.made
  {
    ResolvedForGood(acts, n, id);
    SessionIsSafe(acts);
    assert OutcomeTrue(Reach(acts).value, id);
  }

  // Answers are not lost

  function OutcomeOf(a: Answer): Outcome { match a case Thrown(_) => UnknownThrown case _ => Answered(a) }

  /** Hearing the worker's answer to a pending call resolves that call with it. */
  lemma AnswerIsHeard(s: Session)
    requires s.heard < |s.server.replies| && s.server.replies[s.heard].id != 0
    ensures var (r, c, t) := (s.server.replies[s.heard], s.client, Apply(s, ClientHears));
      && t.heard == s.heard + 1 && t.server == s.server
      && (r.id in c.pending ==>
           r.id !in t.client.pending && r.id in t.client.resolved && t.client.resolved[r.id] == OutcomeOf(r.answer))
      && (r.id !in c.pending ==> t.client == c)
  {
    AnswerSettles(s.client, s.server.replies[s.heard].id, s.server.replies[s.heard].answer);
  }

  /** What was heard is what the caller was told, unless the connection had been lost before. */
  ghost predicate HeardIsTold(s: Session, r: Reply) {
    r.id in s.client.resolved
      && (s.client.resolved[r.id] == OutcomeOf(r.answer) || s.client.resolved[r.id] == UnknownSent)
  }

  ghost predicate AllTold(s: Session) {
    && (forall i :: 0 < i < s.heard && i < |s.server.replies| ==> HeardIsTold(s, s.server.replies[i]))
    && (forall id :: id in s.client.resolved && s.client.resolved[id].Answered? ==>
      !s.client.resolved[id].answer.Thrown?)
  }

  /** Two replies to one call say the same. */
  lemma OneAnswer(s: Session, i: nat, j: nat)
    requires Inv(s) && 0 < i < |s.server.replies| && 0 < j < |s.server.replies|
    requires s.server.replies[i].id == s.server.replies[j].id
    ensures s.server.replies[i] == s.server.replies[j]
  {
    assert ReplyOk(s.server, s.server.replies[i]) && ReplyOk(s.server, s.server.replies[j]);
  }

  /** A call the worker answered was written, so its caller waits or was told. */
  lemma AnsweredWasAsked(s: Session, i: nat)
    requires Inv(s) && 0 < i < |s.server.replies|
    ensures var id := s.server.replies[i].id;
      Written(s.client.writes, id) && (id in s.client.pending || id in s.client.resolved)
  {
    var id := s.server.replies[i].id;
    assert ReplyOk(s.server, s.server.replies[i]);
    assert id in s.server.made || id in s.server.declined;
    WrittenPrefix(s.client.writes, s.server.taken, id);
    var k :| 0 <= k < |s.client.writes| && s.client.writes[k].CallFrame? && s.client.writes[k].id == id;
    assert k > 0;
    assert CallOk(s.client, id);
  }

  lemma HearTells(s: Session)
    requires Inv(s) && AllTold(s) && s.heard < |s.server.replies|
    ensures AllTold(Apply(s, ClientHears))
  {
    var t, n := Apply(s, ClientHears), s.heard;
    var r := s.server.replies[n];
    StepKeepsOutcomes(s, ClientHears);
    forall i | 0 < i < t.heard && i < |t.server.replies| ensures HeardIsTold(t, t.server.replies[i]) {
      if i < n {
        assert HeardIsTold(s, s.server.replies[i]);
      } else if r.id in s.client.pending {
        AnswerIsHeard(s);
      } else {
        AnsweredWasAsked(s, n);
        ToldBefore(s, n);
      }
    }
  }

  /** A caller already told was told this, or that nothing is known since the connection was lost. */
  lemma ToldBefore(s: Session, n: nat)
    requires Inv(s) && AllTold(s) && 0 < n < |s.server.replies| && s.server.replies[n].id in s.client.resolved
    ensures HeardIsTold(s, s.server.replies[n])
  {
    var id := s.server.replies[n].id;
    AnsweredWasAsked(s, n);
    assert OutcomeOk(s, id) && CallOk(s.client, id);
    match s.client.resolved[id]
    case Answered(a) =>
      var i :| 0 < i < s.heard && i < |s.server.replies| && s.server.replies[i] == Reply(id, a);
      OneAnswer(s, i, n);
    case UnknownThrown =>
      var why :| Heard(s, Reply(id, Thrown(why)));
      var i :| 0 < i < s.heard && i < |s.server.replies| && s.server.replies[i] == Reply(id, Thrown(why));
      OneAnswer(s, i, n);
    case UnknownSent =>
    case FailedNotSent =>
  }

  lemma OtherStepTells(s: Session, a: Action)
    requires Inv(s) && AllTold(s) && Enabled(s, a) && !a.ClientHears?
    ensures AllTold(Apply(s, a))
  {
    var t := Apply(s, a);
    StepKeepsOutcomes(s, a);
    forall i | 0 < i < t.heard && i < |t.server.replies| ensures HeardIsTold(t, t.server.replies[i]) {
      assert t.server.replies[i] == s.server.replies[i] && HeardIsTold(s, s.server.replies[i]);
    }
  }

  /**
    In every run each answer the client has heard is the outcome of its own call,
    unless the connection had been lost before: no answer is thrown away.
  */
  lemma {:induction false} HeardAnswersAreTold(acts: seq<Action>)
    requires Reach(acts).Some?
    ensures AllTold(Reach(acts).value)
  {
    if acts != [] {
      var front, a := acts[..|acts| - 1], acts[|acts| - 1];
      HeardAnswersAreTold(front);
      RunKeeps(front);
      hide Apply, Inv, AllTold;
      if a.ClientHears? {
        HearTells(Reach(front).value);
      } else {
        OtherStepTells(Reach(front).value, a);
      }
    }
  }

  // The worker's end leaves nothing unanswered

  ghost predicate Replied(w: Server, r: Reply) { exists i :: 0 <= i < |w.replies| && w.replies[i] == r }

  /** While it keeps the socket, the worker made or declined what it took and answered what it finished or declined. */
  ghost predicate Serves(w: Server, writes: seq<Wire>) {
    !w.destroyed ==>
      && (forall i :: 0 <= i < w.taken && i < |writes| && writes[i].CallFrame? ==>
           writes[i].id in w.made || writes[i].id in w.declined)
      && (forall id :: id in w.results ==> Replied(w, Reply(id, w.results[id])))
      && (forall id :: id in w.declined ==> Replied(w, Reply(id, CLOSING)))
  }

  lemma AnsweringReplies(w: Server, r: Reply)
    requires !w.destroyed
    ensures forall q :: Replied(Answering(w, r), q) <==> Replied(w, q) || q == r
  {
    var t := Answering(w, r);
    assert t.replies[|w.replies|] == r;
    forall q | Replied(w, q) ensures Replied(t, q) {
      var i :| 0 <= i < |w.replies| && w.replies[i] == q;
      assert t.replies[i] == q;
    }
  }

  lemma TakeServes(w: Server, writes: seq<Wire>, wrong: bool)
    requires Serves(w, writes) && w.taken < |writes|
    ensures Serves(Take(w, writes[w.taken], wrong), writes)
  {
    hide Replied;
    var f := writes[w.taken];
    if !w.destroyed {
      var r := if f.CallFrame? then Reply(f.id, CLOSING) else Reply(0, Hello);
      var t := w.(taken := w.taken + 1);
      var u := if f.CallFrame? then t.(declined := t.declined + {f.id}) else t;
      SameReplies(w, u);
      AnsweringReplies(u, r);
      SameReplies(w, Take(w, f, wrong));
    }
  }

  lemma SameReplies(w: Server, t: Server)
    requires t.replies == w.replies || !t.destroyed
    ensures t.replies == w.replies ==> forall q :: Replied(t, q) <==> Replied(w, q)
  {
  }

  lemma EndServes(w: Server, writes: seq<Wire>, id: Id, a: Answer)
    requires Serves(w, writes) && id in w.running && id !in w.results
    ensures Serves(End(w, id, a), writes)
  {
    hide Replied;
    if !w.destroyed {
      var u := w.(running := w.running - {id}, results := w.results[id := a]);
      SameReplies(w, u);
      AnsweringReplies(u, Reply(id, a));
    }
  }

  lemma MoreServes(w: Server, writes: seq<Wire>, more: seq<Wire>)
    requires Serves(w, writes) && w.taken <= |writes|
    ensures Serves(w, writes + more)
  {
  }

  lemma ClientOnlyAdds(s: Session, a: Action)
    requires Enabled(s, a) && (a.ClientCalls? || a.ClientLoses? || a.ClientHears?)
    ensures Apply(s, a).server == s.server && s.client.writes <= Apply(s, a).client.writes
  {
  }

  lemma StepServes(s: Session, a: Action)
    requires Inv(s) && Enabled(s, a) && Serves(s.server, s.client.writes)
    ensures Serves(Apply(s, a).server, Apply(s, a).client.writes)
  {
    hide Serves;
    match a
    case WorkerTakes(wrong) => TakeServes(s.server, s.client.writes, wrong);
    case WorkerEnds(id, answer) => EndServes(s.server, s.client.writes, id, answer);
    case WorkerCloses => ClosingServes(s.server, s.client.writes);
    case _ =>
      ClientOnlyAdds(s, a);
      var t := Apply(s, a);
      MoreServes(s.server, s.client.writes, t.client.writes[|s.client.writes|..]);
      assert t.client.writes == s.client.writes + t.client.writes[|s.client.writes|..];
  }

  lemma ClosingServes(w: Server, writes: seq<Wire>)
    requires Serves(w, writes)
    ensures Serves(w.(closing := true), writes)
  {
    hide Replied;
    SameReplies(w, w.(closing := true));
  }

  /** In every run, until the worker drops the socket, what it took is made or declined and every end is answered. */
  lemma {:induction false} WorkerAnswersAll(acts: seq<Action>)
    requires Reach(acts).Some?
    ensures Serves(Reach(acts).value.server, Reach(acts).value.client.writes)
  {
    if acts != [] {
      hide Apply, Inv, Serves;
      var front := acts[..|acts| - 1];
      WorkerAnswersAll(front);
      RunKeeps(front);
      StepServes(Reach(front).value, acts[|acts| - 1]);
    }
  }
}
