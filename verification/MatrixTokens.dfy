/** The Matrix token session of internal/agentteams: any number of callers share one cached token, and
    the controller's tokens rotate, so replacing one that still works breaks everybody else. */
module MatrixTokens {

  type Token = string   // "" is no token, as in the source

  // A caller inside withToken. `first` and `retry` are its two uses of a token.
  datatype Caller = Starting | First(token: Token) | Refreshing(stale: Token) | Retry(token: Token)

  /** `cached` is the session's field and `direct` its configured token. `valid` are the tokens the
      homeserver accepts. `rotations` and `invalidated` are history: the tokens issued to the session, in
      order, and how often its cached token was invalidated from outside while it still worked. */
  datatype State = State(
    cached: Token, direct: Token, hasController: bool, valid: set<Token>, callers: map<nat, Caller>,
    rotations: seq<Token>, invalidated: nat)

  function Init(direct: Token, hasController: bool): State {
    State("", direct, hasController, if direct == "" then {} else {direct}, map[], [], 0)
  }

  /** A reply the controller can give: an error, or a token never issued before. */
  predicate Possible(s: State, reply: Token) {
    reply == "" || (reply !in s.rotations && reply != s.direct)
  }

  /** refreshLocked: the token to use next and the state, "" being the error. */
  function RefreshLocked(s: State, stale: Token, reply: Token): (Token, State) {
    if stale != "" && s.cached != "" && s.cached != stale then (s.cached, s)
    else if !s.hasController || reply == "" then ("", s)
    else (reply, s.(cached := reply, valid := s.valid - {s.cached} + {reply}, rotations := s.rotations + [reply]))
  }

  /** accessToken, all of it under the lock. */
  function AccessToken(s: State, reply: Token): (Token, State) {
    if s.direct != "" then (s.direct, s)
    else if s.cached != "" then (s.cached, s)
    else RefreshLocked(s, "", reply)
  }

  function SetCaller(s: State, c: nat, phase: Caller): State {
    s.(callers := s.callers[c := phase])
  }

  function Leave(s: State, c: nat): State {
    s.(callers := s.callers - {c})
  }

  datatype Action =
    | Enter(caller: nat)
    | Access(caller: nat, reply: Token)
    | Answer(caller: nat, rejected: bool)
    | Refresh(caller: nat, reply: Token)
    | Invalidate(token: Token)

  function Apply(s: State, a: Action): State {
    match a
    case Enter(c) => if c in s.callers then s else SetCaller(s, c, Starting)
    case Access(c, reply) =>
      if c !in s.callers || !s.callers[c].Starting? || !Possible(s, reply) then s
      else
        var (token, t) := AccessToken(s, reply);
        if token == "" then Leave(t, c) else SetCaller(t, c, First(token))
    case Answer(c, rejected) =>
      // A 401 comes only for a token the homeserver does not accept; any other outcome ends the call.
      if c !in s.callers then s
      else if s.callers[c].First? then
        (if !rejected then Leave(s, c)
         else if s.callers[c].token in s.valid then s
         else SetCaller(s, c, Refreshing(s.callers[c].token)))
      else if s.callers[c].Retry? then Leave(s, c)
      else s
    case Refresh(c, reply) =>
      if c !in s.callers || !s.callers[c].Refreshing? || !Possible(s, reply) then s
      else
        var (token, t) := RefreshLocked(s, s.callers[c].stale, reply);
        if token == "" then Leave(t, c) else SetCaller(t, c, Retry(token))
    case Invalidate(token) =>
      s.(valid := s.valid - {token},
         invalidated := if token != "" && token == s.cached && token in s.valid then s.invalidated + 1 else s.invalidated)
  }

  function Run(s: State, actions: seq<Action>): State
    decreases |actions|
  {
    if actions == [] then s else Run(Apply(s, actions[0]), actions[1..])
  }

  // ---- the invariant ----

  /** A token in a caller's hand was issued to the session or is the configured one; one it was
      refused with no longer works. */
  predicate CallerOk(s: State, c: Caller) {
    match c
    case Starting => true
    case First(token) => token != "" && (token in s.rotations || token == s.direct)
    case Refreshing(stale) => stale != "" && stale !in s.valid && (stale in s.rotations || stale == s.direct)
    case Retry(token) => token != "" && (token in s.rotations || token == s.direct)
  }

  ghost predicate Inv(s: State) {
    && (if s.rotations == [] then s.cached == "" else s.cached == s.rotations[|s.rotations| - 1] && s.cached != "")
    && (s.direct != "" ==> s.direct !in s.rotations)
    && "" !in s.valid
    && (s.rotations != [] ==> |s.rotations| + (if s.cached in s.valid then 0 else 1) == 1 + s.invalidated)
    && (s.rotations == [] ==> s.invalidated == 0)
    && (forall c {:trigger CallerOk(s, s.callers[c])} | c in s.callers :: CallerOk(s, s.callers[c]))
  }

  /** A refresh rotates only when no token is cached yet or the cached one no longer works. */
  lemma RefreshKeeps(s: State, stale: Token, reply: Token)
    requires Inv(s) && Possible(s, reply)
    requires if stale == "" then s.cached == "" else CallerOk(s, Refreshing(stale))
    ensures var (token, t) := RefreshLocked(s, stale, reply);
      && Inv(t) && t.callers == s.callers
      && (token != "" ==> CallerOk(t, Retry(token)) && CallerOk(t, First(token)))
      && (token != "" ==> token == t.cached)
  {
    var (token, t) := RefreshLocked(s, stale, reply);
    forall c | c in t.callers ensures CallerOk(t, t.callers[c]) {
      assert CallerOk(s, s.callers[c]);
    }
  }

  lemma CallerKeeps(s: State, c: nat, phase: Caller)
    requires Inv(s) && CallerOk(s, phase)
    ensures Inv(SetCaller(s, c, phase)) && Inv(Leave(s, c))
  {
    forall x | x in s.callers ensures CallerOk(s, s.callers[x]) {}
    var t := SetCaller(s, c, phase);
    forall x | x in t.callers ensures CallerOk(t, t.callers[x]) {
      assert x != c ==> CallerOk(s, s.callers[x]);
    }
    var u := Leave(s, c);
    forall x | x in u.callers ensures CallerOk(u, u.callers[x]) {
      assert CallerOk(s, s.callers[x]);
    }
  }

  lemma StepKeepsInv(s: State, a: Action)
    requires Inv(s)
    ensures Inv(Apply(s, a))
  {
    match a {
      case Enter(c) => CallerKeeps(s, c, Starting);
      case Access(c, reply) =>
        CallerKeeps(s, c, Starting);
        if s.direct != "" {
          CallerKeeps(s, c, First(s.direct));
        } else if s.cached != "" {
          CallerKeeps(s, c, First(s.cached));
        } else if Possible(s, reply) {
          RefreshKeeps(s, "", reply);
          var (token, t) := RefreshLocked(s, "", reply);
          CallerKeeps(t, c, if token == "" then Starting else First(token));
        }
      case Answer(c, rejected) =>
        CallerKeeps(s, c, Starting);
        if c in s.callers && s.callers[c].First? && s.callers[c].token !in s.valid {
          assert CallerOk(s, s.callers[c]);
          CallerKeeps(s, c, Refreshing(s.callers[c].token));
        }
      case Refresh(c, reply) =>
        if c in s.callers && s.callers[c].Refreshing? && Possible(s, reply) {
          assert CallerOk(s, s.callers[c]);
          RefreshKeeps(s, s.callers[c].stale, reply);
          var (token, t) := RefreshLocked(s, s.callers[c].stale, reply);
          CallerKeeps(t, c, if token == "" then Starting else Retry(token));
        }
      case Invalidate(token) =>
        var t := Apply(s, a);
        forall c | c in t.callers ensures CallerOk(t, t.callers[c]) {
          assert CallerOk(s, s.callers[c]);
        }
    }
  }

  lemma {:induction false} RunKeeps(s: State, actions: seq<Action>)
    requires Inv(s)
    ensures Inv(Run(s, actions))
    decreases |actions|
  {
    if actions != [] {
      StepKeepsInv(s, actions[0]);
      RunKeeps(Apply(s, actions[0]), actions[1..]);
    }
  }

  /** Any number of concurrent callers rotate at most 1 + k times, k being how often the cached token
      was invalidated from outside, and the cached token is always the last one issued. */
  lemma {:induction false} RotationsAreNeeded(direct: Token, hasController: bool, actions: seq<Action>)
    ensures var s := Run(Init(direct, hasController), actions);
      && |s.rotations| <= 1 + s.invalidated
      && (s.rotations != [] ==> s.cached == s.rotations[|s.rotations| - 1])
  {
    RunKeeps(Init(direct, hasController), actions);
  }

  /** The bound is exact: once a token was issued, rotations fall behind 1 + k by exactly the one
      invalidation that nobody has run into yet. */
  lemma {:induction false} RotationsAreExact(direct: Token, hasController: bool, actions: seq<Action>)
    requires Run(Init(direct, hasController), actions).rotations != []
    ensures var s := Run(Init(direct, hasController), actions);
      |s.rotations| == (if s.cached in s.valid then 1 + s.invalidated else s.invalidated)
  {
    RunKeeps(Init(direct, hasController), actions);
  }

  /** A 401 on a token that was already replaced does not rotate: the caller gets the current one. */
  lemma {:induction false} ReplacedTokenNeverRotates(direct: Token, hasController: bool, actions: seq<Action>, c: nat, reply: Token)
    requires var s := Run(Init(direct, hasController), actions);
      && c in s.callers && s.callers[c].Refreshing? && s.rotations != []
      && s.callers[c].stale != s.rotations[|s.rotations| - 1] && Possible(s, reply)
    ensures var s := Run(Init(direct, hasController), actions); var t := Apply(s, Refresh(c, reply));
      && t.rotations == s.rotations && t.valid == s.valid
      && c in t.callers && t.callers[c] == Retry(s.rotations[|s.rotations| - 1])
  {
    var s := Run(Init(direct, hasController), actions);
    RunKeeps(Init(direct, hasController), actions);
    assert CallerOk(s, s.callers[c]);
  }

  lemma {:induction false} SettingsStay(s: State, actions: seq<Action>)
    ensures var t := Run(s, actions); t.direct == s.direct && t.hasController == s.hasController
    decreases |actions|
  {
    if actions != [] {
      SettingsStay(Apply(s, actions[0]), actions[1..]);
    }
  }

  /** The session's token: the last one the controller gave it, before the first one the configured one. */
  function Latest(s: State): Token {
    if s.rotations == [] then s.direct else s.rotations[|s.rotations| - 1]
  }

  /** A caller refused with the session's token gets a new one from the controller, and from then on it is the
      session's and the homeserver's; without a controller or without its answer the call fails and nothing else
      changes. */
  lemma {:induction false} DeadTokenIsReplaced(direct: Token, hasController: bool, actions: seq<Action>, c: nat, reply: Token)
    requires var s := Run(Init(direct, hasController), actions);
      c in s.callers && s.callers[c] == Refreshing(Latest(s)) && Possible(s, reply)
    ensures var s := Run(Init(direct, hasController), actions); var t := Apply(s, Action.Refresh(c, reply));
      if hasController && reply != "" then
        && t.callers == s.callers[c := Retry(reply)]
        && t.cached == reply && t.rotations == s.rotations + [reply]
        && reply in t.valid && Latest(s) !in t.valid && t.valid == s.valid + {reply}
        && t.invalidated == s.invalidated
      else t == s.(callers := s.callers - {c})
  {
    var s := Run(Init(direct, hasController), actions);
    RunKeeps(Init(direct, hasController), actions);
    SettingsStay(Init(direct, hasController), actions);
    assert CallerOk(s, s.callers[c]);
    assert s.cached !in s.valid;
    assert s.valid - {s.cached} == s.valid;
  }

  /** Which token a call starts with: the configured one, else the session's, else the first one of the controller,
      and the call fails at once exactly when there is none of the three. */
  lemma {:induction false} CallStartsWith(direct: Token, hasController: bool, actions: seq<Action>, c: nat, reply: Token)
    requires var s := Run(Init(direct, hasController), actions);
      c in s.callers && s.callers[c].Starting? && Possible(s, reply)
    ensures var s := Run(Init(direct, hasController), actions); var t := Apply(s, Access(c, reply));
      if direct != "" then t == s.(callers := s.callers[c := First(direct)])
      else if s.rotations != [] then t == s.(callers := s.callers[c := First(s.rotations[|s.rotations| - 1])])
      else if hasController && reply != "" then
        t == s.(callers := s.callers[c := First(reply)], cached := reply, valid := s.valid + {reply}, rotations := [reply])
      else t == s.(callers := s.callers - {c})
  {
    var s := Run(Init(direct, hasController), actions);
    RunKeeps(Init(direct, hasController), actions);
    SettingsStay(Init(direct, hasController), actions);
    if direct == "" && s.rotations == [] {
      assert s.valid - {s.cached} == s.valid && [] + [reply] == [reply];
    }
  }

  /** A whole call whose request is answered leaves the session with a token, a new one only when it had none, and
      everything else as it was. */
  lemma {:induction false} AnsweredCall(direct: Token, actions: seq<Action>, c: nat, reply: Token)
    requires var s := Run(Init(direct, true), actions); c !in s.callers && reply != "" && Possible(s, reply)
    ensures var s := Run(Init(direct, true), actions); var t := Run(s, [Enter(c), Access(c, reply), Answer(c, false)]);
      if Latest(s) != "" then t == s
      else t == s.(cached := reply, valid := s.valid + {reply}, rotations := [reply])
  {
    var s := Run(Init(direct, true), actions);
    var begun := Apply(s, Enter(c));
    RunAppends(Init(direct, true), actions, Enter(c));
    RunKeeps(Init(direct, true), actions);
    SettingsStay(Init(direct, true), actions);
    CallStartsWith(direct, true, actions + [Enter(c)], c, reply);
    var asked := Apply(begun, Access(c, reply));
    assert [Enter(c), Access(c, reply), Answer(c, false)][1..] == [Access(c, reply), Answer(c, false)];
    assert [Access(c, reply), Answer(c, false)][1..] == [Answer(c, false)] && [Answer(c, false)][1..] == [];
    assert Run(asked, [Answer(c, false)]) == Apply(asked, Answer(c, false));
    assert asked.callers - {c} == s.callers;
  }

  /** A refused call recovers: whichever token it was refused with, after the refusal and one answer of the controller
      it goes on with the session's token, and that one works unless it was invalidated behind the session's back. */
  lemma {:induction false} RefusedCallRecovers(direct: Token, actions: seq<Action>, c: nat, reply: Token)
    requires var s := Run(Init(direct, true), actions);
      c in s.callers && s.callers[c].First? && s.callers[c].token !in s.valid && reply != "" && Possible(s, reply)
    ensures var s := Run(Init(direct, true), actions); var t := Run(s, [Answer(c, true), Action.Refresh(c, reply)]);
      && c in t.callers && t.callers[c] == Retry(Latest(t))
      && (if s.callers[c].token == Latest(s) then Latest(t) == reply && reply in t.valid
          else Latest(t) == Latest(s) && t.valid == s.valid)
  {
    var s := Run(Init(direct, true), actions);
    var refused := Apply(s, Answer(c, true));
    RunAppends(Init(direct, true), actions, Answer(c, true));
    RunKeeps(Init(direct, true), actions);
    assert CallerOk(s, s.callers[c]);
    assert [Answer(c, true), Action.Refresh(c, reply)][1..] == [Action.Refresh(c, reply)];
    assert [Action.Refresh(c, reply)][1..] == [];
    assert Run(refused, [Action.Refresh(c, reply)]) == Apply(refused, Action.Refresh(c, reply));
    if s.callers[c].token == Latest(s) {
      DeadTokenIsReplaced(direct, true, actions + [Answer(c, true)], c, reply);
    } else {
      ReplacedTokenNeverRotates(direct, true, actions + [Answer(c, true)], c, reply);
    }
  }

  lemma {:induction false} RunAppends(s: State, actions: seq<Action>, a: Action)
    ensures Run(s, actions + [a]) == Apply(Run(s, actions), a)
    decreases |actions|
  {
    if actions == [] {
      assert [] + [a] == [a] && [a][1..] == [];
      assert Run(s, [a]) == Run(Apply(s, a), []);
    } else {
      assert (actions + [a])[1..] == actions[1..] + [a];
      RunAppends(Apply(s, actions[0]), actions[1..], a);
    }
  }

  /** The session object: the methods hold its mutex from entry to exit. */
  class Session {
    const direct: Token
    const hasController: bool
    var cachedToken: Token

    constructor (direct: Token, hasController: bool)
      ensures this.direct == direct && this.hasController == hasController && cachedToken == ""
    {
      this.direct, this.hasController, cachedToken := direct, hasController, "";
    }

    /** The session's part of a state of the machine above. */
    predicate Shows(s: State)
      reads this
    {
      s.cached == cachedToken && s.direct == direct && s.hasController == hasController
    }

    method Refresh(ghost s: State, stale: Token, reply: Token) returns (token: Token)
      requires Shows(s)
      modifies this
      ensures token == RefreshLocked(s, stale, reply).0 && Shows(RefreshLocked(s, stale, reply).1)
    {
      if stale != "" && cachedToken != "" && cachedToken != stale {
        return cachedToken;
      }
      if !hasController || reply == "" {
        return "";
      }
      cachedToken := reply;
      return reply;
    }

    method Current(ghost s: State, reply: Token) returns (token: Token)
      requires Shows(s)
      modifies this
      ensures token == AccessToken(s, reply).0 && Shows(AccessToken(s, reply).1)
    {
      if direct != "" {
        return direct;
      }
      if cachedToken != "" {
        return cachedToken;
      }
      token := Refresh(s, "", reply);
    }

    /** A caller's turn under the mutex is one action of the machine: the token it gets is the one its next request
        uses, and a caller without one leaves. */
    method Turn(ghost s: State, c: nat, phase: Caller, reply: Token) returns (token: Token)
      requires Shows(s) && Inv(s) && Possible(s, reply) && c in s.callers && s.callers[c] == phase
      requires phase.Starting? || phase.Refreshing?
      modifies this
      ensures var t := Apply(s, if phase.Starting? then Access(c, reply) else Action.Refresh(c, reply));
        Shows(t) && Inv(t) && (token == "" <==> c !in t.callers)
        && (token != "" ==> t.callers[c] == if phase.Starting? then First(token) else Retry(token))
    {
      if phase.Starting? {
        StepKeepsInv(s, Access(c, reply));
        token := Current(s, reply);
      } else {
        StepKeepsInv(s, Action.Refresh(c, reply));
        token := Refresh(s, phase.stale, reply);
      }
    }
  }
}
