/**
 * Deleting a server: stop it, wait for it, delete it. The server lives at the cloud, moves on its
 * own, and every reply may be an error or get lost. A trace records at which server state each call
 * was processed and what it left behind.
 */
module ServerDeletion {
  import opened GoStrings

  datatype ServerState = Running | Stopping | Stopped | Gone {
    function Rank(): int {
      match this
      case Running => 0
      case Stopping => 1
      case Stopped => 2
      case Gone => 3
    }
  }

  /** Nobody starts a server again, so its state only moves one way. */
  predicate Evolves(s: ServerState, t: ServerState) {
    s.Rank() <= t.Rank()
  }

  const NOT_FOUND := "SERVER_NOT_FOUND"
  const STATE_ILLEGAL := "SERVER_STATE_ILLEGAL"

  datatype Reply = Ok | Err(message: string)

  datatype Class = Success | NotFound | StateIllegal | OtherError

  /** How Delete reads a reply, in the order of its tests. */
  function Classify(r: Reply): Class {
    if r.Ok? then Success
    else if Contains(r.message, NOT_FOUND) then NotFound
    else if Contains(r.message, STATE_ILLEGAL) then StateIllegal
    else OtherError
  }

  /** One API call: the server state it was processed in, its reply, and the state it left. */
  datatype Call = Call(at: ServerState, reply: Reply, after: ServerState)

  predicate StopCall(c: Call) {
    match Classify(c.reply)
    case Success => c.at != Gone && c.after == (if c.at == Stopped then Stopped else Stopping)
    case NotFound => c.at == c.after == Gone
    case StateIllegal => c.after == c.at
    case OtherError => c.after == c.at || (c.at == Running && c.after == Stopping)
  }

  /** The cloud answers a stop with SERVER_STATE_ILLEGAL only when the server is stopped already. */
  predicate Honest(stop: Call) {
    Classify(stop.reply) == StateIllegal ==> stop.at == Stopped
  }

  predicate WaitCall(c: Call) {
    && c.after == c.at
    && (Classify(c.reply) == Success ==> c.at == Stopped)
  }

  predicate DeleteCall(c: Call) {
    match Classify(c.reply)
    case Success => c.at == Stopped && c.after == Gone
    case NotFound => c.at == c.after == Gone
    case _ => c.after == c.at || (c.at == Stopped && c.after == Gone)
  }

  datatype DeleteResult = Deleted | NodeClaimNotFound | Failed

  /** The last leg of Delete: the delete request and how its reply is returned. */
  predicate DeleteLeg(s: ServerState, calls: seq<Call>, result: DeleteResult, t: ServerState) {
    && |calls| == 1 && Evolves(s, calls[0].at) && DeleteCall(calls[0]) && Evolves(calls[0].after, t)
    && result == match Classify(calls[0].reply)
                 case Success => Deleted
                 case NotFound => NodeClaimNotFound
                 case _ => Failed
  }

  /** One run of Delete on a server in state `s`, ending with the server in state `t`. */
  predicate DeleteRun(s: ServerState, calls: seq<Call>, result: DeleteResult, t: ServerState) {
    && |calls| >= 1 && Evolves(s, calls[0].at) && StopCall(calls[0])
    && match Classify(calls[0].reply)
       case NotFound => |calls| == 1 && result == NodeClaimNotFound && Evolves(calls[0].after, t)
       case OtherError => |calls| == 1 && result == Failed && Evolves(calls[0].after, t)
       case StateIllegal => DeleteLeg(calls[0].after, calls[1..], result, t)
       case Success =>
         && |calls| >= 2 && Evolves(calls[0].after, calls[1].at) && WaitCall(calls[1])
         && if calls[1].reply.Err? then |calls| == 2 && result == Failed && Evolves(calls[1].after, t)
            else DeleteLeg(calls[1].after, calls[2..], result, t)
  }

  /** The state in which a run's delete request reached the server, if it issued one. */
  predicate IssuedDeleteAt(calls: seq<Call>, at: ServerState) {
    || (|calls| == 2 && Classify(calls[0].reply) == StateIllegal && calls[1].at == at)
    || (|calls| == 3 && calls[2].at == at)
  }

  /**
   * What Delete reports. It reports the deletion exactly when a delete request was issued and answered
   * without an error, and an unknown server exactly when the stop or the delete (not the wait) was
   * answered with SERVER_NOT_FOUND; every other error is passed on. It goes on after the stop exactly
   * when that succeeded or was illegal, and waits exactly when it succeeded.
   */
  lemma ReportsExactly(s: ServerState, calls: seq<Call>, result: DeleteResult, t: ServerState)
    requires DeleteRun(s, calls, result, t)
    ensures var last := calls[|calls| - 1].reply;
            var waited := |calls| == 2 && calls[0].reply.Ok?;
            && (result == Deleted <==> |calls| >= 2 && !waited && last.Ok?)
            && (result == NodeClaimNotFound <==> !waited && last.Err? && Contains(last.message, NOT_FOUND))
    ensures |calls| == 1 <==>
              calls[0].reply.Err? && (Contains(calls[0].reply.message, NOT_FOUND)
                                      || !Contains(calls[0].reply.message, STATE_ILLEGAL))
    ensures |calls| == 3 <==> calls[0].reply.Ok? && calls[1].reply.Ok?
    ensures |calls| <= 3
  {
  }

  /**
   * With an honest cloud the delete request only ever reaches a stopped or vanished server, and
   * Delete only reports success, or that the server was not found, when the server is gone.
   */
  lemma DeleteIsSafe(s: ServerState, calls: seq<Call>, result: DeleteResult, t: ServerState)
    requires DeleteRun(s, calls, result, t) && Honest(calls[0])
    ensures forall at :: IssuedDeleteAt(calls, at) ==> at == Stopped || at == Gone
    ensures result != Failed ==> t == Gone
    ensures Evolves(s, t)
  {
  }

  /**
   * The assumption is needed, and is all that is needed: after a stop call processed as `stop`, some
   * run goes on to issue the delete request to a server that is not stopped exactly when the stop was
   * answered SERVER_STATE_ILLEGAL for such a server.
   */
  lemma UnsafeExactlyWhenDishonest(s: ServerState, stop: Call)
    requires Evolves(s, stop.at) && StopCall(stop)
    ensures (exists calls, result, t, at ::
               DeleteRun(s, calls, result, t) && calls[0] == stop && IssuedDeleteAt(calls, at)
               && at.Rank() < Stopped.Rank())
       <==> (Classify(stop.reply) == StateIllegal && stop.at.Rank() < Stopped.Rank())
  {
    if Classify(stop.reply) == StateIllegal && stop.at.Rank() < Stopped.Rank() {
      var refused := Call(stop.after, Err(""), stop.after);
      var calls := [stop, refused];
      assert calls[1..] == [refused];
      assert DeleteRun(s, calls, Failed, stop.after) && IssuedDeleteAt(calls, stop.after);
    }
  }

  /** How a Delete that meets no further trouble goes, from any state. */
  function SmoothRun(s: ServerState): seq<Call> {
    match s
    case Gone => [Call(Gone, Err(NOT_FOUND), Gone)]
    case Stopped => [Call(Stopped, Err(STATE_ILLEGAL), Stopped), Call(Stopped, Ok, Gone)]
    case _ => [Call(s, Ok, Stopping), Call(Stopped, Ok, Stopped), Call(Stopped, Ok, Gone)]
  }

  /** Whatever state failed attempts left the server in, one more Delete can finish the job. */
  lemma RetryCanFinish(s: ServerState)
    ensures DeleteRun(s, SmoothRun(s), if s == Gone then NodeClaimNotFound else Deleted, Gone)
    ensures Honest(SmoothRun(s)[0])
  {
    if s == Gone {
      ContainsItself(NOT_FOUND);
    } else if s == Stopped {
      IllegalIsIllegal();
      assert SmoothRun(s)[1..] == [Call(Stopped, Ok, Gone)];
    } else {
      assert SmoothRun(s)[2..] == [Call(Stopped, Ok, Gone)];
    }
  }

  lemma ContainsItself(s: string)
    ensures Contains(s, s)
  {
    assert s[..|s|] == s;
  }

  /** SERVER_STATE_ILLEGAL does not read as SERVER_NOT_FOUND: no suffix of it starts that way. */
  lemma IllegalIsIllegal()
    ensures Classify(Err(STATE_ILLEGAL)) == StateIllegal
  {
    ContainsItself(STATE_ILLEGAL);
    forall k | 0 <= k <= |STATE_ILLEGAL|
      ensures !HasPrefix(STATE_ILLEGAL[k..], NOT_FOUND)
    {
      MismatchAt(k);
    }
    NoPartAt(STATE_ILLEGAL, 0);
    assert STATE_ILLEGAL[0..] == STATE_ILLEGAL;
  }

  /** No occurrence starts at position `i`: the first characters differ, or those after the underscore. */
  lemma MismatchAt(i: nat)
    requires i <= |STATE_ILLEGAL|
    ensures !HasPrefix(STATE_ILLEGAL[i..], NOT_FOUND)
  {
    assert |NOT_FOUND| == 16 && NOT_FOUND[0] == 'S' && NOT_FOUND[7] == 'N';
    assert |STATE_ILLEGAL| == 20;
    if i <= 4 {
      FirstCharacters();
      var start := STATE_ILLEGAL[i..][..16];
      assert start[0] == STATE_ILLEGAL[i] && start[7] == STATE_ILLEGAL[i + 7];
    }
  }

  lemma FirstCharacters()
    ensures |STATE_ILLEGAL| == 20 && STATE_ILLEGAL[7] == 'S'
    ensures forall i :: 1 <= i <= 4 ==> STATE_ILLEGAL[i] != 'S'
  {
    assert STATE_ILLEGAL[1] == 'E' && STATE_ILLEGAL[2] == 'R' && STATE_ILLEGAL[3] == 'V' && STATE_ILLEGAL[4] == 'E';
  }

  /** From position `i` on there is no occurrence. */
  lemma NoPartAt(s: string, i: nat)
    requires i <= |s| && forall k :: 0 <= k <= |s| ==> !HasPrefix(s[k..], NOT_FOUND)
    ensures !Contains(s[i..], NOT_FOUND)
    decreases |s| - i
  {
    if i < |s| {
      assert s[i..][1..] == s[i + 1..];
      NoPartAt(s, i + 1);
    }
  }

  /** A sequence of attempts at deleting one server, each from the state the last one left. */
  predicate Attempts(s: ServerState, runs: seq<(seq<Call>, DeleteResult, ServerState)>, t: ServerState)
    decreases |runs|
  {
    if runs == [] then Evolves(s, t)
    else exists mid: ServerState ::
           && Evolves(s, mid)
           && DeleteRun(mid, runs[0].0, runs[0].1, runs[0].2) && Honest(runs[0].0[0])
           && Attempts(runs[0].2, runs[1..], t)
  }

  /** Over any number of attempts: no delete of an unstopped server, and no attempt reports success too early. */
  lemma {:induction false} AttemptsAreSafe(s: ServerState, runs: seq<(seq<Call>, DeleteResult, ServerState)>,
                                           t: ServerState, i: nat)
    requires Attempts(s, runs, t) && i < |runs|
    ensures forall at :: IssuedDeleteAt(runs[i].0, at) ==> at == Stopped || at == Gone
    ensures runs[i].1 != Failed ==> t == Gone && forall j :: i < j < |runs| ==> runs[j].1 != Deleted
    decreases |runs|
  {
    var mid :| && Evolves(s, mid) && DeleteRun(mid, runs[0].0, runs[0].1, runs[0].2) && Honest(runs[0].0[0])
               && Attempts(runs[0].2, runs[1..], t);
    DeleteIsSafe(mid, runs[0].0, runs[0].1, runs[0].2);
    if i > 0 {
      AttemptsAreSafe(runs[0].2, runs[1..], t, i - 1);
      if runs[i].1 != Failed {
        forall j | i < j < |runs|
          ensures runs[j].1 != Deleted
        {
          assert runs[j] == runs[1..][j - 1];
        }
      }
    } else if runs[0].1 != Failed {
      OnceGone(runs[0].2, runs[1..], t);
      forall j | 0 < j < |runs|
        ensures runs[j].1 != Deleted
      {
        assert runs[j] == runs[1..][j - 1];
      }
    }
  }

  lemma {:induction false} OnceGone(s: ServerState, runs: seq<(seq<Call>, DeleteResult, ServerState)>, t: ServerState)
    requires s == Gone && Attempts(s, runs, t)
    ensures t == Gone && forall j :: 0 <= j < |runs| ==> runs[j].1 != Deleted
    decreases |runs|
  {
    if runs != [] {
      OnceGone(runs[0].2, runs[1..], t);
      forall j | 0 < j < |runs|
        ensures runs[j].1 != Deleted
      {
        assert runs[j] == runs[1..][j - 1];
      }
    }
  }

  /* ------------------------------------------------------------------------- the code */

  /** The UpCloud API for one server. Each call may be answered late, with an error, or not at all. */
  class Cloud {
    var server: ServerState

    constructor (s: ServerState)
      ensures server == s
    {
      server := s;
    }

    method Move()
      modifies this
      ensures Evolves(old(server), server)
    {
      var t: ServerState := *;
      if Evolves(server, t) {
        server := t;
      }
    }

    method Stop() returns (reply: Reply, ghost call: Call)
      modifies this
      ensures Evolves(old(server), call.at) && StopCall(call) && Honest(call)
      ensures reply == call.reply && server == call.after
    {
      Move();
      reply := *;
      if !Honest(Call(server, reply, server)) || (reply.Ok? && server == Gone)
         || (Classify(reply) == NotFound && server != Gone) {
        reply := Err("");
      }
      ghost var at := server;
      var lost: bool := *;
      if server == Stopping || (server == Running && (reply.Ok? || (Classify(reply) == OtherError && lost))) {
        server := Stopping;
      }
      call := Call(at, reply, server);
    }

    method WaitForStop() returns (reply: Reply, ghost call: Call)
      modifies this
      ensures Evolves(old(server), call.at) && WaitCall(call)
      ensures reply == call.reply && server == call.after
    {
      Move();
      reply := *;
      if reply.Ok? && server != Stopped {
        reply := Err("");
      }
      call := Call(server, reply, server);
    }

    method Delete() returns (reply: Reply, ghost call: Call)
      modifies this
      ensures Evolves(old(server), call.at) && DeleteCall(call)
      ensures reply == call.reply && server == call.after
    {
      Move();
      reply := *;
      if (reply.Ok? && server != Stopped) || (Classify(reply) == NotFound && server != Gone) {
        reply := Err("");
      }
      ghost var at := server;
      var lost: bool := *;
      if reply.Ok? || (server == Stopped && lost) {
        server := Gone;
      }
      call := Call(at, reply, server);
    }
  }

  /** UpCloudCloudProvider.Delete: what it does is a DeleteRun against an honest cloud. */
  method Delete(cloud: Cloud) returns (result: DeleteResult, ghost calls: seq<Call>)
    modifies cloud
    ensures DeleteRun(old(cloud.server), calls, result, cloud.server) && Honest(calls[0])
    ensures result != Failed ==> cloud.server == Gone
  {
    var reply;
    ghost var call;
    reply, call := cloud.Stop();
    calls := [call];
    if reply.Err? {
      if Contains(reply.message, NOT_FOUND) {
        return NodeClaimNotFound, calls;
      }
      if !Contains(reply.message, STATE_ILLEGAL) {
        return Failed, calls;
      }
    } else {
      reply, call := cloud.WaitForStop();
      calls := calls + [call];
      if reply.Err? {
        return Failed, calls;
      }
    }
    ghost var earlier := calls;
    reply, call := cloud.Delete();
    calls := earlier + [call];
    assert calls[|earlier|..] == [call];
    if reply.Err? {
      if Contains(reply.message, NOT_FOUND) {
        return NodeClaimNotFound, calls;
      }
      return Failed, calls;
    }
    result := Deleted;
  }
}
