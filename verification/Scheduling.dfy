/** Serving without interruption is one of the ways calls can interleave: what holds of every run holds of it. */
module Scheduling {
  import opened Boundaries
  import opened Records
  import opened Requests
  import opened Calls

  lemma RunOn(lib: Library, moves: seq<Move>, move: Move)
    ensures Run(lib, moves + [move]) == Do(lib, Run(lib, moves), move)
  {
    hide Do;
    assert (moves + [move])[..|moves|] == moves;
  }

  lemma StepOfCall(lib: Library, s: System, i: nat)
    requires WellPlaced(lib, s) && i < |s.calls|
    ensures var call := s.calls[i];
      var (d, p) := Advance(lib, s.db, call.actor, call.req, call.progress);
      Do(lib, s, Step(i)) == System(d, s.calls[i := call.(progress := p)])
  {
    hide Advance;
  }

  /** Any call can be run to its answer, and then leaves what serving it from where it is leaves. */
  lemma {:induction false} CallFinishes(lib: Library, moves: seq<Move>, i: nat) returns (more: seq<Move>)
    requires i < |Run(lib, moves).calls|
    ensures var s, t := Run(lib, moves), Run(lib, moves + more);
      var call := s.calls[i];
      var (d, response) := Serve(lib, s.db, call.actor, call.req, call.progress);
      t == System(d, s.calls[i := call.(progress := Answered(response))])
    decreases var call := Run(lib, moves).calls[i]; Remaining(call.req, call.progress)
  {
    hide Run, Do, Serve, Advance, Remaining, Fits;
    var s := Run(lib, moves);
    var call := s.calls[i];
    if call.progress.Answered? {
      more := [];
      assert moves + [] == moves;
      AnswerServed(lib, s.db, call.actor, call.req, call.progress.response);
      assert s.calls[i := call] == s.calls;
    } else {
      StepsRunOut(lib, s.db, call.actor, call.req, call.progress);
      ServedOn(lib, s.db, call.actor, call.req, call.progress);
      StepOfCall(lib, s, i);
      RunOn(lib, moves, Step(i));
      var rest := CallFinishes(lib, moves + [Step(i)], i);
      more := [Step(i)] + rest;
      assert moves + more == moves + [Step(i)] + rest;
      var p := Advance(lib, s.db, call.actor, call.req, call.progress).1;
      assert forall q :: s.calls[i := call.(progress := p)][i := call.(progress := q)] == s.calls[i := call.(progress := q)];
    }
  }

  /** From any state of any run, sending a request and serving it without interruption is a run. */
  lemma ServingIsARun(lib: Library, moves: seq<Move>, actor: Actor, req: Request) returns (more: seq<Move>)
    ensures var s, t := Run(lib, moves), Run(lib, moves + more);
      var (d, response) := Serve(lib, s.db, actor, req, Started);
      t == System(d, s.calls + [Call(actor, req, Answered(response))])
  {
    hide Run, Serve;
    var s := Run(lib, moves);
    RunOn(lib, moves, Send(actor, req));
    var sent := s.calls + [Call(actor, req, Started)];
    assert Run(lib, moves + [Send(actor, req)]) == System(s.db, sent);
    var rest := CallFinishes(lib, moves + [Send(actor, req)], |s.calls|);
    more := [Send(actor, req)] + rest;
    assert moves + more == moves + [Send(actor, req)] + rest;
    assert forall q :: sent[|s.calls| := Call(actor, req, q)] == s.calls + [Call(actor, req, q)];
  }

  lemma NothingStored(lib: Library)
    ensures Run(lib, []).db == EMPTY_DB
  {
  }

  /** Requests served one after another from an empty database. */
  function ServedInTurn(lib: Library, requests: seq<(Actor, Request)>): Db {
    if |requests| == 0 then EMPTY_DB
    else
      var (actor, req) := requests[|requests| - 1];
      Serve(lib, ServedInTurn(lib, requests[..|requests| - 1]), actor, req, Started).0
  }

  lemma {:induction false} TurnsAreRuns(lib: Library, requests: seq<(Actor, Request)>) returns (moves: seq<Move>)
    ensures Run(lib, moves).db == ServedInTurn(lib, requests)
  {
    hide Serve;
    if |requests| == 0 {
      moves := [];
    } else {
      var earlier := TurnsAreRuns(lib, requests[..|requests| - 1]);
      hide Run;
      var (actor, req) := requests[|requests| - 1];
      var more := ServingIsARun(lib, earlier, actor, req);
      moves := earlier + more;
    }
  }
}
