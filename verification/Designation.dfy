/** Leader designation: every enclave keeps asking the one leader endpoint, with its own
    nonce; the enclave that hears its own nonce is the leader, and an enclave that is
    told 410 (gone) is a worker.  Steps of all enclaves, their request goroutines and
    the endpoint's handlers interleave freely. */
module Designation {
  import opened Common

  type Id = nat

  /** What an enclave serves under the designation path. */
  datatype Handler = NotFound | Comparing | Gone

  datatype SyncState = InProgress | IsLeader | IsWorker

  /** weAreLeader, statement by statement.  Deferred calls run in reverse order: the
      handler is replaced before the state is set. */
  datatype Pc =
    | Starting
    | Selecting
    | LaunchingLoop
    | InstallingHeartbeat
    | Returning(result: bool)
    | Deciding(result: bool)
    | Done(result: bool)
    | Dead

  datatype Enclave = Enclave(
    nonce: nat,
    pc: Pc,
    handler: Handler,
    token: bool,          // The one slot of the weAreLeader channel.
    pushing: nat,         // Handlers that saw the channel empty and are about to push.
    requests: nat,        // Our requests on their way.
    errors: nat,          // Request goroutines with an error to report.
    denials: nat,         // Request goroutines that were told 410.
    syncState: SyncState,
    loopLaunched: bool,
    heartbeatInstalled: bool,
    stopped: bool)

  datatype State = State(endpoint: Id, enclaves: map<Id, Enclave>)

  datatype Label =
    | InstallHandler(e: Id)
    | SendRequest(e: Id)
    | LoseRequest(e: Id)
    | ServeRequest(e: Id)
    | PushToken
    | HearError(e: Id)
    | HearDenial(e: Id)
    | HearToken(e: Id)
    | LaunchLoop(e: Id)
    | InstallHeartbeat(e: Id)
    | Stop(e: Id)
    | TimeOut(e: Id)
    | ReplaceHandler(e: Id)
    | SetSyncState(e: Id)

  /** The steps that an enclave takes by itself. */
  predicate IsMove(l: Label) {
    !l.PushToken? && !l.ServeRequest?
  }

  predicate CanMove(x: Enclave, l: Label)
    requires IsMove(l)
  {
    match l
    case InstallHandler(_) => x.pc.Starting?
    case SendRequest(_) => x.pc.Selecting?
    case LoseRequest(_) => x.requests > 0
    case HearError(_) => x.pc.Selecting? && x.errors > 0
    case HearDenial(_) => x.pc.Selecting? && x.denials > 0
    case HearToken(_) => x.pc.Selecting? && x.token
    case LaunchLoop(_) => x.pc.LaunchingLoop?
    case InstallHeartbeat(_) => x.pc.InstallingHeartbeat?
    case Stop(_) => x.pc.Selecting?
    case TimeOut(_) => x.pc.Selecting? || x.pc.Starting?
    case ReplaceHandler(_) => x.pc.Returning?
    case SetSyncState(_) => x.pc.Deciding?
  }

  function Moved(x: Enclave, l: Label): Enclave
    requires IsMove(l) && CanMove(x, l)
  {
    match l
    case InstallHandler(_) => x.(pc := Selecting, handler := Comparing)
    case SendRequest(_) => x.(requests := x.requests + 1)
    case LoseRequest(_) => x.(requests := x.requests - 1, errors := x.errors + 1)
    case HearError(_) => x.(errors := x.errors - 1)
    case HearDenial(_) => x.(pc := Returning(false), denials := x.denials - 1)
    case HearToken(_) => x.(pc := LaunchingLoop, token := false)
    case LaunchLoop(_) => x.(pc := InstallingHeartbeat, loopLaunched := true)
    case InstallHeartbeat(_) => x.(pc := Returning(true), heartbeatInstalled := true)
    case Stop(_) => x.(pc := Returning(false), stopped := true)
    case TimeOut(_) => x.(pc := Dead, handler := NotFound)
    case ReplaceHandler(_) => x.(pc := Deciding(x.pc.result), handler := Gone)
    case SetSyncState(_) => x.(pc := Done(x.pc.result), syncState := if x.pc.result then IsLeader else IsWorker)
  }

  predicate Enabled(s: State, l: Label) {
    && s.endpoint in s.enclaves
    && if l.PushToken? then s.enclaves[s.endpoint].pushing > 0 && !s.enclaves[s.endpoint].token
       else l.e in s.enclaves && if l.ServeRequest? then s.enclaves[l.e].requests > 0 else CanMove(s.enclaves[l.e], l)
  }

  function With(s: State, e: Id, x: Enclave): State {
    s.(enclaves := s.enclaves[e := x])
  }

  /** The endpoint's handler answers one request of e.  A handler that hears its own
      nonce answers only after it made sure that the channel is filled. */
  function Answer(s: State, e: Id): State
    requires e in s.enclaves && s.endpoint in s.enclaves
  {
    var x := s.enclaves[e];
    var p := s.enclaves[s.endpoint];
    match p.handler
    case NotFound => With(s, e, x.(errors := x.errors + 1))
    case Gone => With(s, e, x.(denials := x.denials + 1))
    case Comparing =>
      if x.nonce == p.nonce && !p.token then
        With(s, s.endpoint, p.(pushing := p.pushing + 1))
      else
        With(s, e, x.(errors := x.errors + 1))
  }

  /** The handler that heard its own nonce fills the channel and answers. */
  function TokenPushed(p: Enclave): Enclave
    requires p.pushing > 0
  {
    p.(token := true, pushing := p.pushing - 1, errors := p.errors + 1)
  }

  function RequestTaken(x: Enclave): Enclave
    requires x.requests > 0
  {
    x.(requests := x.requests - 1)
  }

  function Apply(s: State, l: Label): State
    requires Enabled(s, l)
  {
    if l.PushToken? then With(s, s.endpoint, TokenPushed(s.enclaves[s.endpoint]))
    else if l.ServeRequest? then Answer(With(s, l.e, RequestTaken(s.enclaves[l.e])), l.e)
    else With(s, l.e, Moved(s.enclaves[l.e], l))
  }

  predicate Fresh(x: Enclave) {
    && x.pc.Starting? && x.handler.NotFound? && !x.token && x.pushing == 0
    && x.requests == 0 && x.errors == 0 && x.denials == 0
    && x.syncState.InProgress? && !x.loopLaunched && !x.heartbeatInstalled && !x.stopped
  }

  /** Any number of enclaves with pairwise distinct nonces, one of them behind the
      leader's name. */
  predicate Init(s: State) {
    && s.endpoint in s.enclaves
    && (forall e :: e in s.enclaves ==> Fresh(s.enclaves[e]))
    && DistinctNonces(s)
  }

  predicate DistinctNonces(s: State) {
    forall d, e :: d in s.enclaves && e in s.enclaves && d != e ==> s.enclaves[d].nonce != s.enclaves[e].nonce
  }

  function Execute(s0: State, trace: seq<Label>): Option<State> {
    if trace == [] then Some(s0)
    else
      var before := Execute(s0, trace[..|trace| - 1]);
      var l := trace[|trace| - 1];
      if before.Some? && Enabled(before.value, l) then Some(Apply(before.value, l)) else None
  }

  predicate Reaches(s0: State, trace: seq<Label>, s: State) {
    Init(s0) && Execute(s0, trace) == Some(s)
  }

  // -------------------------------------------------------------- invariant

  /** weAreLeader has replaced its handler. */
  predicate Concluded(x: Enclave) {
    x.pc.Deciding? || x.pc.Done?
  }

  predicate OnLeaderPath(x: Enclave) {
    x.pc.LaunchingLoop? || x.pc.InstallingHeartbeat? || Result(x) == Some(true)
  }

  function Result(x: Enclave): Option<bool> {
    match x.pc
    case Returning(r) => Some(r)
    case Deciding(r) => Some(r)
    case Done(r) => Some(r)
    case _ => None
  }

  /** An enclave's own part of the invariant, given whether it is the endpoint and
      whether the endpoint has concluded. */
  predicate EnclaveOk(x: Enclave, isEndpoint: bool, concluded: bool) {
    && (isEndpoint ==> (Concluded(x) <==> concluded))
    && (x.handler.Gone? <==> Concluded(x))
    && (x.token || x.pushing > 0 || OnLeaderPath(x) ==> isEndpoint)
    && (x.denials > 0 ==> concluded)
    && (Result(x) == Some(false) ==> x.stopped || (!isEndpoint && concluded))
    && (Result(x) == Some(true) ==> x.loopLaunched && x.heartbeatInstalled)
    && (x.pc.InstallingHeartbeat? ==> x.loopLaunched)
    && (x.stopped ==> Result(x) == Some(false))
    && (x.pc.Selecting? ==> x.handler.Comparing?)
    && (x.pc.Dead? ==> x.handler.NotFound?)
    && x.syncState == (match x.pc
                       case Done(r) => if r then IsLeader else IsWorker
                       case _ => InProgress)
  }

  predicate Inv(s: State) {
    && s.endpoint in s.enclaves
    && (forall e {:trigger Ok(s, e)} :: e in s.enclaves ==> Ok(s, e))
    && DistinctNonces(s)
  }

  predicate Ok(s: State, e: Id) {
    && e in s.enclaves && s.endpoint in s.enclaves
    && EnclaveOk(s.enclaves[e], e == s.endpoint, Concluded(s.enclaves[s.endpoint]))
  }

  /** A change of one enclave, which may conclude but not take that back. */
  lemma ChangeKeeps(s: State, e: Id, x: Enclave)
    requires Inv(s) && e in s.enclaves && x.nonce == s.enclaves[e].nonce
    requires var concluded := if e == s.endpoint then Concluded(x) else Concluded(s.enclaves[s.endpoint]);
      EnclaveOk(x, e == s.endpoint, concluded)
    requires Concluded(s.enclaves[e]) ==> Concluded(x)
    ensures Inv(With(s, e, x))
  {
    SameNonces(s, e, x);
    assert Ok(s, s.endpoint);
    forall d | d in s.enclaves ensures Ok(With(s, e, x), d) {
      assert Ok(s, d);
    }
  }

  lemma SameNonces(s: State, e: Id, x: Enclave)
    requires DistinctNonces(s) && e in s.enclaves && x.nonce == s.enclaves[e].nonce
    ensures DistinctNonces(With(s, e, x))
  {
  }

  lemma AnswerKeeps(s: State, e: Id)
    requires Inv(s) && e in s.enclaves
    ensures Inv(Answer(s, e))
  {
    var x := s.enclaves[e];
    var p := s.enclaves[s.endpoint];
    assert Ok(s, e) && Ok(s, s.endpoint);
    if p.handler.Comparing? && x.nonce == p.nonce && !p.token {
      ChangeKeeps(s, s.endpoint, p.(pushing := p.pushing + 1));
    } else if p.handler.Gone? {
      ChangeKeeps(s, e, x.(denials := x.denials + 1));
    } else {
      ErrorKeeps(s, e);
    }
  }

  lemma ErrorKeeps(s: State, e: Id)
    requires Inv(s) && e in s.enclaves
    ensures var x := s.enclaves[e]; Inv(With(s, e, x.(errors := x.errors + 1)))
  {
    assert Ok(s, e) && Ok(s, s.endpoint);
    ChangeKeeps(s, e, s.enclaves[e].(errors := s.enclaves[e].errors + 1));
  }

  /** Requests and what is heard of them. */
  predicate IsExchange(l: Label) {
    l.SendRequest? || l.LoseRequest? || l.HearError? || l.HearDenial? || l.HearToken?
  }

  predicate MoveIsOk(x: Enclave, l: Label, isEndpoint: bool, concluded: bool)
    requires IsMove(l) && CanMove(x, l)
  {
    var y := Moved(x, l);
    && y.nonce == x.nonce && (Concluded(x) ==> Concluded(y))
    && EnclaveOk(y, isEndpoint, if isEndpoint then Concluded(y) else concluded)
  }

  lemma ExchangeOk(x: Enclave, l: Label, isEndpoint: bool, concluded: bool)
    requires IsExchange(l) && CanMove(x, l) && EnclaveOk(x, isEndpoint, concluded)
    ensures MoveIsOk(x, l, isEndpoint, concluded)
  {
    match l {
      case SendRequest(_) =>
      case LoseRequest(_) =>
      case HearError(_) =>
      case HearDenial(_) =>
      case HearToken(_) =>
    }
  }

  lemma SetupOk(x: Enclave, l: Label, isEndpoint: bool, concluded: bool)
    requires (l.InstallHandler? || l.LaunchLoop? || l.InstallHeartbeat? || l.TimeOut?) && CanMove(x, l)
    requires EnclaveOk(x, isEndpoint, concluded)
    ensures MoveIsOk(x, l, isEndpoint, concluded)
  {
    match l {
      case InstallHandler(_) =>
      case LaunchLoop(_) =>
      case InstallHeartbeat(_) =>
      case TimeOut(_) =>
    }
  }

  lemma ReturnOk(x: Enclave, l: Label, isEndpoint: bool, concluded: bool)
    requires (l.Stop? || l.ReplaceHandler? || l.SetSyncState?) && CanMove(x, l)
    requires EnclaveOk(x, isEndpoint, concluded)
    ensures MoveIsOk(x, l, isEndpoint, concluded)
  {
    match l {
      case Stop(_) =>
      case ReplaceHandler(_) =>
      case SetSyncState(_) =>
    }
  }

  lemma MovedOk(x: Enclave, l: Label, isEndpoint: bool, concluded: bool)
    requires IsMove(l) && CanMove(x, l) && EnclaveOk(x, isEndpoint, concluded)
    ensures MoveIsOk(x, l, isEndpoint, concluded)
  {
    if IsExchange(l) {
      ExchangeOk(x, l, isEndpoint, concluded);
    } else if l.Stop? || l.ReplaceHandler? || l.SetSyncState? {
      ReturnOk(x, l, isEndpoint, concluded);
    } else {
      SetupOk(x, l, isEndpoint, concluded);
    }
  }

  lemma StepKeeps(s: State, l: Label)
    requires Inv(s) && Enabled(s, l)
    ensures Inv(Apply(s, l))
  {
    var p := s.enclaves[s.endpoint];
    if l.ServeRequest? {
      assert Ok(s, l.e);
      ChangeKeeps(s, l.e, RequestTaken(s.enclaves[l.e]));
      AnswerKeeps(With(s, l.e, RequestTaken(s.enclaves[l.e])), l.e);
    } else if l.PushToken? {
      assert Ok(s, s.endpoint);
      ChangeKeeps(s, s.endpoint, TokenPushed(p));
    } else {
      assert Ok(s, l.e);
      MovedOk(s.enclaves[l.e], l, l.e == s.endpoint, Concluded(p));
      ChangeKeeps(s, l.e, Moved(s.enclaves[l.e], l));
    }
  }

  lemma {:induction false} ReachableInv(s0: State, trace: seq<Label>, s: State)
    requires Reaches(s0, trace, s)
    ensures Inv(s)
  {
    if trace == [] {
      assert Inv(s);
    } else {
      var before := Execute(s0, trace[..|trace| - 1]).value;
      ReachableInv(s0, trace[..|trace| - 1], before);
      StepKeeps(before, trace[|trace| - 1]);
    }
  }

  // --------------------------------------------------------------- theorems

  /** At most one enclave ever is the leader, and it is the one behind the leader's
      name.  That one becomes a worker only if it is stopped while it designates. */
  lemma OneLeaderBehindEndpoint(s0: State, trace: seq<Label>, s: State)
    requires Reaches(s0, trace, s)
    ensures forall e :: e in s.enclaves && s.enclaves[e].syncState.IsLeader? ==> e == s.endpoint
    ensures s.endpoint in s.enclaves
    ensures s.enclaves[s.endpoint].syncState.IsWorker? ==> s.enclaves[s.endpoint].stopped
  {
    ReachableInv(s0, trace, s);
    assert Ok(s, s.endpoint);
    forall e | e in s.enclaves && s.enclaves[e].syncState.IsLeader? ensures e == s.endpoint {
      assert Ok(s, e);
    }
  }

  /** Order of designation: once any enclave counts as a worker without having been
      stopped, the endpoint has concluded.  Unless it was stopped itself, it has then
      concluded that it is the leader, its event loop runs and its heartbeat endpoint is
      installed, so that no worker can register too early. */
  lemma LeaderIsSetUpBeforeWorkers(s0: State, trace: seq<Label>, s: State, e: Id)
    requires Reaches(s0, trace, s) && e in s.enclaves
    requires s.enclaves[e].syncState.IsWorker? && !s.enclaves[e].stopped
    ensures s.endpoint in s.enclaves && e != s.endpoint && Concluded(s.enclaves[s.endpoint])
    ensures !s.enclaves[s.endpoint].stopped ==>
      && s.enclaves[s.endpoint].pc.result
      && s.enclaves[s.endpoint].loopLaunched && s.enclaves[s.endpoint].heartbeatInstalled
  {
    ReachableInv(s0, trace, s);
    assert Ok(s, e) && Ok(s, s.endpoint);
  }

  /** An enclave accepts PUT state (it is the leader) only when its event loop runs and
      its heartbeat endpoint is installed. */
  lemma LeaderIsSetUpBeforePut(s0: State, trace: seq<Label>, s: State, e: Id)
    requires Reaches(s0, trace, s) && e in s.enclaves && s.enclaves[e].syncState.IsLeader?
    ensures s.enclaves[e].loopLaunched && s.enclaves[e].heartbeatInstalled && s.enclaves[e].handler.Gone?
  {
    ReachableInv(s0, trace, s);
    assert Ok(s, e);
  }

  /** A decision is final: no further steps change it. */
  lemma {:induction false} DecisionsAreFinal(s0: State, trace: seq<Label>, s: State, more: seq<Label>, t: State, e: Id)
    requires Reaches(s0, trace, s) && Execute(s0, trace + more) == Some(t)
    requires e in s.enclaves && !s.enclaves[e].syncState.InProgress?
    ensures e in t.enclaves && t.enclaves[e].syncState == s.enclaves[e].syncState
    decreases |more|
  {
    if more == [] {
      assert trace + more == trace;
    } else {
      var k := |more| - 1;
      var earlier := trace + more[..k];
      assert (trace + more)[..|trace| + k] == earlier;
      var before := Execute(s0, earlier).value;
      DecisionsAreFinal(s0, trace, s, more[..k], before, e);
      ReachableInv(s0, earlier, before);
      DecidedStays(before, (trace + more)[|trace| + k], e);
    }
  }

  lemma DecidedStays(s: State, l: Label, e: Id)
    requires Inv(s) && Enabled(s, l) && e in s.enclaves && !s.enclaves[e].syncState.InProgress?
    ensures e in Apply(s, l).enclaves && Apply(s, l).enclaves[e].syncState == s.enclaves[e].syncState
  {
    assert Ok(s, e);
  }

  lemma Then(s0: State, trace: seq<Label>, s: State, l: Label)
    requires Execute(s0, trace) == Some(s) && Enabled(s, l)
    ensures Execute(s0, trace + [l]) == Some(Apply(s, l))
  {
    assert (trace + [l])[..|trace|] == trace;
  }

  /** Being stopped is what breaks the order: from every start, an enclave that is
      stopped first thing counts as a worker while the endpoint is still at its start. */
  lemma StoppedEnclaveJumpsTheQueue(s0: State, e: Id) returns (trace: seq<Label>, s: State)
    requires Init(s0) && e in s0.enclaves && e != s0.endpoint
    ensures Reaches(s0, trace, s) && e in s.enclaves && s.enclaves[e].syncState.IsWorker?
    ensures s.endpoint in s.enclaves
    ensures !Concluded(s.enclaves[s.endpoint]) && !s.enclaves[s.endpoint].loopLaunched
  {
    var tr, u := Go(s0, [], s0, InstallHandler(e));
    tr, u := Go(s0, tr, u, Stop(e));
    tr, u := Go(s0, tr, u, ReplaceHandler(e));
    trace, s := Go(s0, tr, u, SetSyncState(e));
  }

  /** One more step of a run. */
  lemma Go(s0: State, before: seq<Label>, s: State, l: Label) returns (trace: seq<Label>, t: State)
    requires Execute(s0, before) == Some(s) && Enabled(s, l)
    ensures Execute(s0, trace) == Some(t) && t == Apply(s, l)
  {
    Then(s0, before, s, l);
    trace, t := before + [l], Apply(s, l);
  }

  /** Designation works: from every start there is a run in which the endpoint becomes
      the leader and then any other enclave a worker. */
  lemma DesignationGoesThrough(s0: State, e: Id) returns (trace: seq<Label>, s: State)
    requires Init(s0) && e in s0.enclaves && e != s0.endpoint
    ensures Reaches(s0, trace, s) && e in s.enclaves && s0.endpoint in s.enclaves
    ensures s.enclaves[s0.endpoint].syncState.IsLeader? && s.enclaves[e].syncState.IsWorker?
  {
    ReachableInv(s0, [], s0);
    trace, s := Decide(s0, e);
    FateStays(s0, trace, s, e);
  }

  // ------------------------------------------------------------ whole designations

  /** What a step does to who is dead or stopped. */
  lemma FateStep(s: State, l: Label, e: Id)
    requires Enabled(s, l) && e in s.enclaves
    ensures e in Apply(s, l).enclaves && Apply(s, l).endpoint == s.endpoint
    ensures Apply(s, l).enclaves[e].pc.Dead? <==> s.enclaves[e].pc.Dead? || l == TimeOut(e)
    ensures Apply(s, l).enclaves[e].stopped <==> s.enclaves[e].stopped || l == Stop(e)
  {
    if IsMove(l) {
      if l.e == e { MoveFate(s.enclaves[e], l); }
    } else if l.ServeRequest? {
      AnswerFate(With(s, l.e, RequestTaken(s.enclaves[l.e])), l.e, e);
    }
  }

  lemma AnswerFate(s: State, d: Id, e: Id)
    requires d in s.enclaves && s.endpoint in s.enclaves && e in s.enclaves
    ensures e in Answer(s, d).enclaves && Answer(s, d).endpoint == s.endpoint
    ensures Answer(s, d).enclaves[e].pc == s.enclaves[e].pc && Answer(s, d).enclaves[e].stopped == s.enclaves[e].stopped
  {
  }

  lemma MoveFate(x: Enclave, l: Label)
    requires IsMove(l) && CanMove(x, l)
    ensures Moved(x, l).pc.Dead? <==> x.pc.Dead? || l.TimeOut?
    ensures Moved(x, l).stopped <==> x.stopped || l.Stop?
  {
    match l {
      case InstallHandler(_) =>
      case SendRequest(_) =>
      case LoseRequest(_) =>
      case HearError(_) =>
      case HearDenial(_) =>
      case HearToken(_) =>
      case LaunchLoop(_) =>
      case InstallHeartbeat(_) =>
      case Stop(_) =>
      case TimeOut(_) =>
      case ReplaceHandler(_) =>
      case SetSyncState(_) =>
    }
  }

  /** An enclave gives up iff it timed out, and counts as stopped iff it was stopped: neither
      an error nor an answer that it cannot use ends its designation. */
  lemma {:induction false} FateIff(s0: State, trace: seq<Label>, s: State, e: Id)
    requires Reaches(s0, trace, s) && e in s0.enclaves
    ensures e in s.enclaves
    ensures s.enclaves[e].pc.Dead? <==> TimeOut(e) in trace
    ensures s.enclaves[e].stopped <==> Stop(e) in trace
    ensures s.enclaves[e].pc.Dead? ==> s.enclaves[e].handler.NotFound?
  {
    ReachableInv(s0, trace, s);
    assert e in s.enclaves ==> Ok(s, e);
    if trace != [] {
      var n := |trace| - 1;
      var before := Execute(s0, trace[..n]).value;
      FateIff(s0, trace[..n], before, e);
      FateStep(before, trace[n], e);
      assert trace == trace[..n] + [trace[n]];
    }
  }

  /** What comes of a request that reaches the endpoint: 410 iff the endpoint has concluded; a
      push to the leader channel iff the endpoint asks itself while it compares nonces and the
      channel is empty; and an answer that counts as an error in all other cases. */
  lemma RequestOutcomes(s0: State, trace: seq<Label>, s: State, e: Id)
    requires Reaches(s0, trace, s) && Enabled(s, ServeRequest(e))
    ensures e in Apply(s, ServeRequest(e)).enclaves && s.endpoint in s.enclaves
    ensures var x, y, p := s.enclaves[e], Apply(s, ServeRequest(e)).enclaves[e], s.enclaves[s.endpoint];
      && (y.denials == x.denials + 1 <==> Concluded(p))
      && (y.pushing == x.pushing + 1 <==> e == s.endpoint && p.handler.Comparing? && !p.token)
      && (y.errors == x.errors + 1 <==>
            !Concluded(p) && !(e == s.endpoint && p.handler.Comparing? && !p.token))
  {
    ReachableInv(s0, trace, s);
    OutcomesOf(s, e);
  }

  lemma OutcomesOf(s: State, e: Id)
    requires Inv(s) && Enabled(s, ServeRequest(e))
    ensures e in Apply(s, ServeRequest(e)).enclaves
    ensures var x, y, p := s.enclaves[e], Apply(s, ServeRequest(e)).enclaves[e], s.enclaves[s.endpoint];
      && (y.denials == x.denials + 1 <==> Concluded(p))
      && (y.pushing == x.pushing + 1 <==> e == s.endpoint && p.handler.Comparing? && !p.token)
      && (y.errors == x.errors + 1 <==>
            !Concluded(p) && !(e == s.endpoint && p.handler.Comparing? && !p.token))
  {
    assert Ok(s, s.endpoint);
    assert e != s.endpoint ==> s.enclaves[e].nonce != s.enclaves[s.endpoint].nonce;
  }

  /** The requests of an enclave that are not over yet. */
  function Outstanding(x: Enclave): nat {
    x.requests + x.errors + x.denials + x.pushing
  }

  lemma RequestStep(s: State, l: Label, e: Id)
    requires Inv(s) && Enabled(s, l) && e in s.enclaves
    ensures e in Apply(s, l).enclaves
    ensures Outstanding(Apply(s, l).enclaves[e]) + (if l == HearError(e) || l == HearDenial(e) then 1 else 0)
         == Outstanding(s.enclaves[e]) + if l == SendRequest(e) then 1 else 0
  {
    if l.ServeRequest? {
      AnswerStep(s, l.e, e);
    } else if IsMove(l) && l.e == e {
      MoveRequests(s.enclaves[e], l);
    }
  }

  lemma MoveRequests(x: Enclave, l: Label)
    requires IsMove(l) && CanMove(x, l)
    ensures Outstanding(Moved(x, l)) + (if l.HearError? || l.HearDenial? then 1 else 0)
         == Outstanding(x) + if l.SendRequest? then 1 else 0
  {
    match l {
      case InstallHandler(_) =>
      case SendRequest(_) =>
      case LoseRequest(_) =>
      case HearError(_) =>
      case HearDenial(_) =>
      case HearToken(_) =>
      case LaunchLoop(_) =>
      case InstallHeartbeat(_) =>
      case Stop(_) =>
      case TimeOut(_) =>
      case ReplaceHandler(_) =>
      case SetSyncState(_) =>
    }
  }

  lemma AnswerStep(s: State, d: Id, e: Id)
    requires Inv(s) && d in s.enclaves && s.enclaves[d].requests > 0 && e in s.enclaves
    ensures var t := Answer(With(s, d, RequestTaken(s.enclaves[d])), d);
      e in t.enclaves && Outstanding(t.enclaves[e]) == Outstanding(s.enclaves[e])
  {
    assert d != s.endpoint ==> s.enclaves[d].nonce != s.enclaves[s.endpoint].nonce;
    AnswerAdds(With(s, d, RequestTaken(s.enclaves[d])), d, e);
  }

  /** An answer is due to the enclave that asked. */
  lemma AnswerAdds(s: State, d: Id, e: Id)
    requires d in s.enclaves && s.endpoint in s.enclaves && e in s.enclaves
    requires d != s.endpoint ==> s.enclaves[d].nonce != s.enclaves[s.endpoint].nonce
    ensures e in Answer(s, d).enclaves
    ensures Outstanding(Answer(s, d).enclaves[e]) == Outstanding(s.enclaves[e]) + if e == d then 1 else 0
  {
    match s.enclaves[s.endpoint].handler {
      case NotFound =>
      case Gone =>
      case Comparing =>
    }
  }

  /** Every request that an enclave sent is on its way, being handled, answered but not heard,
      or heard, once. */
  lemma {:induction false} RequestsAreConserved(s0: State, trace: seq<Label>, s: State, e: Id)
    requires Reaches(s0, trace, s) && e in s0.enclaves
    ensures e in s.enclaves
    ensures multiset(trace)[SendRequest(e)] ==
      Outstanding(s.enclaves[e]) + multiset(trace)[HearError(e)] + multiset(trace)[HearDenial(e)]
  {
    if trace != [] {
      var n := |trace| - 1;
      var before := Execute(s0, trace[..n]).value;
      RequestsAreConserved(s0, trace[..n], before, e);
      ReachableInv(s0, trace[..n], before);
      RequestStep(before, trace[n], e);
      assert trace == trace[..n] + [trace[n]];
    }
  }

  /** Every time the endpoint fills its channel, it does so for one later receive. */
  lemma {:induction false} TokensAreConserved(s0: State, trace: seq<Label>, s: State)
    requires Reaches(s0, trace, s)
    ensures s.endpoint == s0.endpoint && s.endpoint in s.enclaves
    ensures multiset(trace)[PushToken] ==
      multiset(trace)[HearToken(s.endpoint)] + if s.enclaves[s.endpoint].token then 1 else 0
  {
    if trace != [] {
      var n := |trace| - 1;
      var before := Execute(s0, trace[..n]).value;
      TokensAreConserved(s0, trace[..n], before);
      TokenStep(before, trace[n]);
      assert trace == trace[..n] + [trace[n]];
    }
  }

  lemma TokenStep(s: State, l: Label)
    requires Enabled(s, l)
    ensures var t := Apply(s, l); var p := s.endpoint;
      && t.endpoint == p && p in t.enclaves
      && (t.enclaves[p].token <==> l.PushToken? || (s.enclaves[p].token && l != HearToken(p)))
      && (l == HearToken(p) ==> s.enclaves[p].token) && (l.PushToken? ==> !s.enclaves[p].token)
  {
    if IsMove(l) && l.e == s.endpoint { MoveToken(s.enclaves[l.e], l); }
  }

  lemma MoveToken(x: Enclave, l: Label)
    requires IsMove(l) && CanMove(x, l)
    ensures Moved(x, l).token <==> x.token && !l.HearToken?
  {
    match l {
      case InstallHandler(_) =>
      case SendRequest(_) =>
      case LoseRequest(_) =>
      case HearError(_) =>
      case HearDenial(_) =>
      case HearToken(_) =>
      case LaunchLoop(_) =>
      case InstallHeartbeat(_) =>
      case Stop(_) =>
      case TimeOut(_) =>
      case ReplaceHandler(_) =>
      case SetSyncState(_) =>
    }
  }

  /** The endpoint leads and e is a worker. */
  predicate Decided(s: State, e: Id) {
    && s.endpoint in s.enclaves && s.enclaves[s.endpoint].syncState.IsLeader?
    && e in s.enclaves && s.enclaves[e].syncState.IsWorker?
  }

  /** Whatever happened before: some continuation makes the endpoint the leader and e a worker
      iff e is another enclave, neither of them has timed out, and the endpoint was not
      stopped. */
  lemma DesignationCanSucceedIff(s0: State, trace: seq<Label>, s: State, e: Id)
    requires Reaches(s0, trace, s) && e in s.enclaves
    ensures s.endpoint in s.enclaves
    ensures (exists more, t :: Execute(s, more) == Some(t) && Decided(t, e)) <==>
      && e != s.endpoint && !s.enclaves[e].pc.Dead?
      && !s.enclaves[s.endpoint].pc.Dead? && !s.enclaves[s.endpoint].stopped
  {
    ReachableInv(s0, trace, s);
    if && e != s.endpoint && !s.enclaves[e].pc.Dead?
       && !s.enclaves[s.endpoint].pc.Dead? && !s.enclaves[s.endpoint].stopped {
      var more, t := Decide(s, e);
    }
    if more, t :| Execute(s, more) == Some(t) && Decided(t, e) {
      FateStays(s, more, t, e);
      FateStays(s, more, t, s.endpoint);
      assert Ok(t, e) && Ok(t, t.endpoint);
    }
  }

  lemma {:induction false} FateStays(s: State, more: seq<Label>, t: State, e: Id)
    requires Inv(s) && Execute(s, more) == Some(t) && e in s.enclaves
    ensures Inv(t) && t.endpoint == s.endpoint && e in t.enclaves
    ensures s.enclaves[e].pc.Dead? ==> t.enclaves[e].pc.Dead?
    ensures s.enclaves[e].stopped ==> t.enclaves[e].stopped
    decreases |more|
  {
    if more != [] {
      var n := |more| - 1;
      var before := Execute(s, more[..n]).value;
      FateStays(s, more[..n], before, e);
      StepKeeps(before, more[n]);
      FateStep(before, more[n], e);
    }
  }

  lemma Decide(s: State, e: Id) returns (more: seq<Label>, t: State)
    requires Inv(s) && e in s.enclaves && e != s.endpoint && !s.enclaves[e].pc.Dead?
    requires !s.enclaves[s.endpoint].pc.Dead? && !s.enclaves[s.endpoint].stopped
    ensures Execute(s, more) == Some(t) && Decided(t, e)
  {
    assert Ok(s, s.endpoint) && Ok(s, e);
    more, t := EndpointSetsUp(s, [], s);
    more, t := EndpointConcludes(s, more, t);
    more, t := WorkerConcludes(s, more, t, e);
  }

  /** Only the endpoint has changed. */
  predicate OnlyEndpoint(s: State, t: State) {
    t.endpoint == s.endpoint && s.endpoint in t.enclaves && t == With(s, s.endpoint, t.enclaves[s.endpoint])
  }

  /** An endpoint that is still selecting gets its own nonce to hear. */
  lemma EndpointSetsUp(s0: State, before: seq<Label>, s: State) returns (trace: seq<Label>, t: State)
    requires Execute(s0, before) == Some(s) && s.endpoint in s.enclaves && Ok(s, s.endpoint)
    requires !s.enclaves[s.endpoint].pc.Dead? && !s.enclaves[s.endpoint].stopped
    ensures Execute(s0, trace) == Some(t) && OnlyEndpoint(s, t) && OnLeaderPath(t.enclaves[s.endpoint])
    ensures t.enclaves[s.endpoint].handler.Gone? <==> Concluded(t.enclaves[s.endpoint])
    ensures t.enclaves[s.endpoint].pc.Done? ==> t.enclaves[s.endpoint].syncState.IsLeader?
  {
    trace, t := before, s;
    var p := s.endpoint;
    if t.enclaves[p].pc.Starting? {
      trace, t := Go(s0, trace, t, InstallHandler(p));
    }
    if t.enclaves[p].pc.Selecting? {
      trace, t := TokenArrives(s0, trace, t);
      trace, t := Go(s0, trace, t, HearToken(p));
    }
  }

  lemma TokenArrives(s0: State, before: seq<Label>, s: State) returns (trace: seq<Label>, t: State)
    requires Execute(s0, before) == Some(s) && s.endpoint in s.enclaves
    requires s.enclaves[s.endpoint].pc.Selecting? && s.enclaves[s.endpoint].handler.Comparing?
    ensures Execute(s0, trace) == Some(t) && OnlyEndpoint(s, t)
    ensures var x, y := s.enclaves[s.endpoint], t.enclaves[s.endpoint];
      y.token && y.pc == x.pc && y.handler == x.handler
  {
    trace, t := before, s;
    var p := s.endpoint;
    if !t.enclaves[p].token {
      if t.enclaves[p].pushing == 0 {
        trace, t := Go(s0, trace, t, SendRequest(p));
        trace, t := Go(s0, trace, t, ServeRequest(p));
      }
      trace, t := Go(s0, trace, t, PushToken);
    }
  }

  /** Once on its way to be the leader, the endpoint gets there. */
  lemma EndpointConcludes(s0: State, before: seq<Label>, s: State) returns (trace: seq<Label>, t: State)
    requires Execute(s0, before) == Some(s) && s.endpoint in s.enclaves && OnLeaderPath(s.enclaves[s.endpoint])
    requires s.enclaves[s.endpoint].handler.Gone? <==> Concluded(s.enclaves[s.endpoint])
    requires s.enclaves[s.endpoint].pc.Done? ==> s.enclaves[s.endpoint].syncState.IsLeader?
    ensures Execute(s0, trace) == Some(t) && OnlyEndpoint(s, t)
    ensures t.enclaves[s.endpoint].syncState.IsLeader? && t.enclaves[s.endpoint].handler.Gone?
  {
    trace, t := before, s;
    var p := s.endpoint;
    if t.enclaves[p].pc.LaunchingLoop? {
      trace, t := Go(s0, trace, t, LaunchLoop(p));
    }
    if t.enclaves[p].pc.InstallingHeartbeat? {
      trace, t := Go(s0, trace, t, InstallHeartbeat(p));
    }
    trace, t := Return(s0, trace, t, p, true);
  }

  /** The deferred calls of weAreLeader. */
  lemma Return(s0: State, before: seq<Label>, s: State, e: Id, result: bool) returns (trace: seq<Label>, t: State)
    requires Execute(s0, before) == Some(s) && s.endpoint in s.enclaves && e in s.enclaves
    requires Result(s.enclaves[e]) == Some(result)
    requires s.enclaves[e].pc.Deciding? || s.enclaves[e].pc.Done? ==> s.enclaves[e].handler.Gone?
    requires s.enclaves[e].pc.Done? ==> s.enclaves[e].syncState == if result then IsLeader else IsWorker
    ensures Execute(s0, trace) == Some(t) && t.endpoint == s.endpoint && e in t.enclaves
    ensures t == With(s, e, t.enclaves[e]) && t.enclaves[e].handler.Gone?
    ensures t.enclaves[e].syncState == if result then IsLeader else IsWorker
  {
    trace, t := before, s;
    if t.enclaves[e].pc.Returning? {
      trace, t := Go(s0, trace, t, ReplaceHandler(e));
    }
    if t.enclaves[e].pc.Deciding? {
      trace, t := Go(s0, trace, t, SetSyncState(e));
    }
  }

  /** With a leader at the endpoint, every other enclave that has not given up gets its 410,
      however many errors it hears before. */
  lemma WorkerConcludes(s0: State, before: seq<Label>, s: State, e: Id) returns (trace: seq<Label>, t: State)
    requires Execute(s0, before) == Some(s) && s.endpoint in s.enclaves && e in s.enclaves && e != s.endpoint
    requires s.enclaves[s.endpoint].handler.Gone? && s.enclaves[s.endpoint].syncState.IsLeader?
    requires !s.enclaves[e].pc.Dead? && !OnLeaderPath(s.enclaves[e])
    requires s.enclaves[e].handler.Gone? <==> Concluded(s.enclaves[e])
    requires s.enclaves[e].pc.Done? ==> s.enclaves[e].syncState.IsWorker?
    ensures Execute(s0, trace) == Some(t) && Decided(t, e)
  {
    trace, t := WorkerIsDenied(s0, before, s, e);
    trace, t := Return(s0, trace, t, e, false);
  }

  lemma WorkerIsDenied(s0: State, before: seq<Label>, s: State, e: Id) returns (trace: seq<Label>, t: State)
    requires Execute(s0, before) == Some(s) && s.endpoint in s.enclaves && e in s.enclaves && e != s.endpoint
    requires s.enclaves[s.endpoint].handler.Gone? && !s.enclaves[e].pc.Dead? && !OnLeaderPath(s.enclaves[e])
    ensures Execute(s0, trace) == Some(t) && t.endpoint == s.endpoint && e in t.enclaves
    ensures t == With(s, e, t.enclaves[e]) && Result(t.enclaves[e]) == Some(false)
    ensures !t.enclaves[e].pc.Returning? ==> t == s
  {
    trace, t := before, s;
    if t.enclaves[e].pc.Starting? {
      trace, t := Go(s0, trace, t, InstallHandler(e));
    }
    if t.enclaves[e].pc.Selecting? {
      trace, t := DenialArrives(s0, trace, t, e);
    }
  }

  lemma DenialArrives(s0: State, before: seq<Label>, s: State, e: Id) returns (trace: seq<Label>, t: State)
    requires Execute(s0, before) == Some(s) && s.endpoint in s.enclaves && e in s.enclaves && e != s.endpoint
    requires s.enclaves[s.endpoint].handler.Gone? && s.enclaves[e].pc.Selecting?
    ensures Execute(s0, trace) == Some(t) && t.endpoint == s.endpoint && e in t.enclaves
    ensures t == With(s, e, t.enclaves[e]) && t.enclaves[e].pc == Returning(false)
  {
    trace, t := Go(s0, before, s, SendRequest(e));
    trace, t := Go(s0, trace, t, ServeRequest(e));
    trace, t := Go(s0, trace, t, HearDenial(e));
  }
}
