/**
  Time-based one-time passwords for one account (lib/mfa.ts, findTotpStep in lib/totp.ts). A login reads the
  account and claims its step later, in a separate statement; everything else runs under the user lock.
 */
module Mfa {
  import opened Basics

  /** A sealed secret. Each setup draws a new one, so the factor of a setup never comes back. */
  type Factor = Id

  datatype Pending = Pending(factor: Factor, expiresAt: int, tokenVersion: nat)

  datatype Account = Account(
    active: bool, enabled: bool, factor: Option<Factor>, lastUsedStep: Option<int>,
    pending: Option<Pending>, tokenVersion: nat)

  /** A login between its read and its claim: the factor it read and the step its code matched. */
  datatype Login = Login(factor: Factor, step: int)

  datatype Use = Use(factor: Factor, step: int)

  /** `drawn` counts the secrets generated so far; `accepted` is every accepted code, in order. */
  datatype State = State(account: Account, logins: seq<Login>, drawn: nat, accepted: seq<Use>)

  const PENDING_TTL := 600_000

  predicate IsFreshStep(step: Option<int>, last: Option<int>) {
    step.Some? && (last.None? || step.value > last.value)
  }

  /** Password and, when MFA is on, an unused code of the active factor. */
  predicate ProofHolds(a: Account, passwordOk: bool, step: Option<int>) {
    passwordOk && (a.enabled ==> a.factor.Some? && IsFreshStep(step, a.lastUsedStep))
  }

  /** The code an enabled account's proof used up. */
  function ProofUse(a: Account, step: Option<int>): seq<Use> {
    if a.enabled && a.factor.Some? && step.Some? then [Use(a.factor.value, step.value)] else []
  }

  datatype Refusal = Inactive | CodeRequired | WrongProof | NoPending | ExpiredSetup | StaleSetup | InvalidCode | NotEnabled

  function BeginSetup(st: State, passwordOk: bool, codeGiven: bool, step: Option<int>, now: int): (State, Option<Refusal>) {
    var a := st.account;
    if !a.active then (st, Some(Inactive))
    else if a.enabled && !codeGiven then (st, Some(CodeRequired))
    else if !ProofHolds(a, passwordOk, step) then (st, Some(WrongProof))
    else
      var a' := a.(pending := Some(Pending(st.drawn, now + PENDING_TTL, a.tokenVersion)),
                   lastUsedStep := if a.enabled then step else a.lastUsedStep);
      (st.(account := a', drawn := st.drawn + 1, accepted := st.accepted + ProofUse(a, step)), None)
  }

  /** `step`: where the code matches the pending secret. */
  function Enable(st: State, step: Option<int>, now: int): (State, Option<Refusal>) {
    var a := st.account;
    if !a.active then (st, Some(Inactive))
    else if a.pending.None? then (st, Some(NoPending))
    else
      var p := a.pending.value;
      if p.expiresAt <= now then (st.(account := a.(pending := None)), Some(ExpiredSetup))
      else if p.tokenVersion != a.tokenVersion then (st.(account := a.(pending := None)), Some(StaleSetup))
      else if step.None? then (st, Some(InvalidCode))
      else
        var a' := a.(factor := Some(p.factor), enabled := true, pending := None, tokenVersion := a.tokenVersion + 1, lastUsedStep := step);
        (st.(account := a', accepted := st.accepted + [Use(p.factor, step.value)]), None)
  }

  function Disable(st: State, passwordOk: bool, step: Option<int>): (State, Option<Refusal>) {
    var a := st.account;
    if !a.active then (st, Some(Inactive))
    else if !a.enabled then (st, Some(NotEnabled))
    else if !ProofHolds(a, passwordOk, step) then (st, Some(WrongProof))
    else
      var a' := a.(enabled := false, factor := None, lastUsedStep := None, pending := None, tokenVersion := a.tokenVersion + 1);
      (st.(account := a', accepted := st.accepted + ProofUse(a, step)), None)
  }

  function CancelSetup(st: State): State { st.(account := st.account.(pending := None)) }

  /** A login reads the account without a lock and matches its code. */
  function ReadLogin(st: State, step: Option<int>): State {
    var a := st.account;
    if a.enabled && a.active && a.factor.Some? && IsFreshStep(step, a.lastUsedStep)
    then st.(logins := st.logins + [Login(a.factor.value, step.value)]) else st
  }

  predicate Claimable(a: Account, l: Login) {
    a.enabled && a.active && a.factor == Some(l.factor) && (a.lastUsedStep.None? || a.lastUsedStep.value < l.step)
  }

  /** The conditional update: it succeeds only on the factor that was read and only past the last used step. */
  function ClaimLogin(st: State, n: nat): State {
    if n < |st.logins| && Claimable(st.account, st.logins[n])
    then st.(account := st.account.(lastUsedStep := Some(st.logins[n].step)),
             accepted := st.accepted + [Use(st.logins[n].factor, st.logins[n].step)])
    else st
  }

  datatype Op =
    | Begin(passwordOk: bool, codeGiven: bool, step: Option<int>, now: int)
    | Confirm(step: Option<int>, now: int)
    | TurnOff(passwordOk: bool, step: Option<int>)
    | CancelPending
    | LoginRead(step: Option<int>)
    | LoginClaim(login: nat)
    | PasswordChanged
    | StatusChanged(active: bool)

  function Apply(st: State, op: Op): State {
    match op
    case Begin(passwordOk, codeGiven, step, now) => BeginSetup(st, passwordOk, codeGiven, step, now).0
    case Confirm(step, now) => Enable(st, step, now).0
    case TurnOff(passwordOk, step) => Disable(st, passwordOk, step).0
    case CancelPending => CancelSetup(st)
    case LoginRead(step) => ReadLogin(st, step)
    case LoginClaim(n) => ClaimLogin(st, n)
    case PasswordChanged => st.(account := st.account.(pending := None, tokenVersion := st.account.tokenVersion + 1))
    case StatusChanged(active) => st.(account := st.account.(active := active))
  }

  // ----- single use ------------------------------------------------------------------------------------

  /** Uses of one factor come at strictly later and later steps. */
  ghost predicate Increasing(uses: seq<Use>) {
    forall i, j :: 0 <= i < j < |uses| && uses[i].factor == uses[j].factor ==> uses[i].step < uses[j].step
  }

  ghost predicate UsedUpTo(uses: seq<Use>, f: Factor, last: Option<int>) {
    forall i :: 0 <= i < |uses| && uses[i].factor == f ==> last.Some? && uses[i].step <= last.value
  }

  ghost predicate Inv(st: State) {
    var a := st.account;
    && Increasing(st.accepted)
    && (forall i :: 0 <= i < |st.accepted| ==> st.accepted[i].factor < st.drawn)
    && (forall n :: 0 <= n < |st.logins| ==> st.logins[n].factor < st.drawn)
    && (a.factor.Some? ==> a.factor.value < st.drawn && UsedUpTo(st.accepted, a.factor.value, a.lastUsedStep))
    && (a.pending.Some? ==> a.pending.value.factor < st.drawn && a.factor != Some(a.pending.value.factor)
                            && UsedUpTo(st.accepted, a.pending.value.factor, None))
  }

  lemma UseOnce(uses: seq<Use>, f: Factor, last: Option<int>, step: int)
    requires Increasing(uses) && UsedUpTo(uses, f, last) && (last.None? || last.value < step)
    ensures Increasing(uses + [Use(f, step)]) && UsedUpTo(uses + [Use(f, step)], f, Some(step))
  {
  }

  lemma UseOther(uses: seq<Use>, f: Factor, g: Factor, step: int)
    requires f != g && UsedUpTo(uses, g, None)
    ensures UsedUpTo(uses + [Use(f, step)], g, None)
  {
  }

  lemma BeginInv(st: State, passwordOk: bool, codeGiven: bool, step: Option<int>, now: int)
    requires Inv(st)
    ensures Inv(BeginSetup(st, passwordOk, codeGiven, step, now).0)
  {
    var a := st.account;
    if a.enabled && ProofHolds(a, passwordOk, step) {
      UseOnce(st.accepted, a.factor.value, a.lastUsedStep, step.value);
    }
  }

  lemma EnableInv(st: State, step: Option<int>, now: int)
    requires Inv(st)
    ensures Inv(Enable(st, step, now).0)
  {
    if st.account.pending.Some? && step.Some? {
      UseOnce(st.accepted, st.account.pending.value.factor, None, step.value);
    }
  }

  lemma DisableInv(st: State, passwordOk: bool, step: Option<int>)
    requires Inv(st)
    ensures Inv(Disable(st, passwordOk, step).0)
  {
    var a := st.account;
    if a.enabled && ProofHolds(a, passwordOk, step) {
      UseOnce(st.accepted, a.factor.value, a.lastUsedStep, step.value);
    }
  }

  lemma ClaimInv(st: State, n: nat)
    requires Inv(st)
    ensures Inv(ClaimLogin(st, n))
  {
    if n < |st.logins| && Claimable(st.account, st.logins[n]) {
      var l := st.logins[n];
      UseOnce(st.accepted, l.factor, st.account.lastUsedStep, l.step);
      if st.account.pending.Some? {
        UseOther(st.accepted, l.factor, st.account.pending.value.factor, l.step);
      }
    }
  }

  lemma StepInv(st: State, op: Op)
    requires Inv(st)
    ensures Inv(Apply(st, op))
  {
    match op
    case Begin(passwordOk, codeGiven, step, now) => BeginInv(st, passwordOk, codeGiven, step, now);
    case Confirm(step, now) => EnableInv(st, step, now);
    case TurnOff(passwordOk, step) => DisableInv(st, passwordOk, step);
    case LoginClaim(n) => ClaimInv(st, n);
    case _ =>
  }

  ghost predicate Steps(states: seq<State>, ops: seq<Op>, n: nat)
    requires n < |ops| && |states| == |ops| + 1
  {
    states[n + 1] == Apply(states[n], ops[n])
  }

  ghost predicate IsRun(states: seq<State>, ops: seq<Op>) {
    |states| == |ops| + 1 && forall n :: 0 <= n < |ops| ==> Steps(states, ops, n)
  }

  lemma {:induction false} RunInv(states: seq<State>, ops: seq<Op>, n: nat)
    requires IsRun(states, ops) && n <= |ops| && Inv(states[0])
    ensures Inv(states[n])
  {
    if n > 0 {
      RunInv(states, ops, n - 1);
      assert Steps(states, ops, n - 1);
      StepInv(states[n - 1], ops[n - 1]);
    }
  }

  const NEW_ACCOUNT := State(Account(true, false, None, None, None, 0), [], 0, [])

  /** However logins, setups, confirmations and removals interleave, no code of a factor is accepted twice. */
  lemma SingleUse(states: seq<State>, ops: seq<Op>, n: nat)
    requires IsRun(states, ops) && n <= |ops| && states[0] == NEW_ACCOUNT
    ensures forall i, j :: 0 <= i < j < |states[n].accepted| ==> states[n].accepted[i] != states[n].accepted[j]
    ensures Increasing(states[n].accepted)
  {
    RunInv(states, ops, n);
  }

  /** Of two logins that read the same factor and step, the second claim fails. */
  lemma SecondClaimFails(st: State, m: nat, n: nat)
    requires m < |st.logins| && n < |st.logins| && st.logins[m] == st.logins[n] && Claimable(st.account, st.logins[m])
    ensures var first := ClaimLogin(st, m); first.accepted != st.accepted && ClaimLogin(first, n) == first
  {
  }

  // ----- matching a code -------------------------------------------------------------------------------

  predicate IsSpace(c: char) {
    var n := c as int;
    || 9 <= n <= 13 || n == 0x20 || n == 0xA0 || n == 0x1680 || 0x2000 <= n <= 0x200A
    || n == 0x2028 || n == 0x2029 || n == 0x202F || n == 0x205F || n == 0x3000 || n == 0xFEFF
  }

  function Normalized(token: string): string {
    if token == "" then "" else (if IsSpace(token[0]) then "" else [token[0]]) + Normalized(token[1..])
  }

  predicate SixDigits(s: string) { |s| == 6 && forall i :: 0 <= i < 6 ==> '0' <= s[i] <= '9' }

  predicate Matches(hotp: int -> string, token: string, step: int) { hotp(step) == Normalized(token) }

  /** The latest step of the window around now whose code is the token, if any. */
  method FindTotpStep(hotp: int -> string, token: string, window: nat, timestampMs: int) returns (step: Option<int>)
    ensures var counter := timestampMs / 30_000;
      && (step.Some? ==> SixDigits(Normalized(token)) && counter - window <= step.value <= counter + window
                         && Matches(hotp, token, step.value)
                         && forall s :: step.value < s <= counter + window ==> !Matches(hotp, token, s))
      && (step.None? ==> !SixDigits(Normalized(token))
                         || forall s :: counter - window <= s <= counter + window ==> !Matches(hotp, token, s))
  {
    var normalized := Normalized(token);
    if !SixDigits(normalized) { return None; }
    var counter := timestampMs / 30_000;
    var offset: int := window;
    while offset + window >= 0
      invariant -1 <= offset + window && offset <= window
      invariant forall s :: counter + offset < s <= counter + window ==> !Matches(hotp, token, s)
      decreases offset + window
    {
      if hotp(counter + offset) == normalized { return Some(counter + offset); }
      offset := offset - 1;
    }
    return None;
  }

  // ----- the user row updated in place -----------------------------------------------------------------

  class UserRow {
    var active: bool
    var enabled: bool
    var factor: Option<Factor>
    var lastUsedStep: Option<int>
    var pending: Option<Pending>
    var tokenVersion: nat
    ghost var logins: seq<Login>
    ghost var drawn: nat
    ghost var accepted: seq<Use>

    constructor ()
      ensures Now() == NEW_ACCOUNT
    {
      active, enabled, factor, lastUsedStep, pending, tokenVersion := true, false, None, None, None, 0;
      logins, drawn, accepted := [], 0, [];
    }

    function Row(): Account
      reads this
    {
      Account(active, enabled, factor, lastUsedStep, pending, tokenVersion)
    }

    ghost function Now(): State
      reads this
    {
      State(Row(), logins, drawn, accepted)
    }

    /** `sealed` is the newly drawn secret; only the pending fields and the used step are written. */
    method BeginMfaSetup(passwordOk: bool, codeGiven: bool, step: Option<int>, now: int, sealed: Factor) returns (refusal: Option<Refusal>)
      requires sealed == drawn
      modifies this
      ensures (Now(), refusal) == BeginSetup(old(Now()), passwordOk, codeGiven, step, now)
      ensures factor == old(factor) && enabled == old(enabled) && tokenVersion == old(tokenVersion)
    {
      if !active { return Some(Inactive); }
      if enabled && !codeGiven { return Some(CodeRequired); }
      if !ProofHolds(Row(), passwordOk, step) { return Some(WrongProof); }
      accepted, drawn := accepted + ProofUse(Row(), step), drawn + 1;
      pending := Some(Pending(sealed, now + PENDING_TTL, tokenVersion));
      if enabled { lastUsedStep := step; }
      return None;
    }

    method EnableMfa(step: Option<int>, now: int) returns (refusal: Option<Refusal>)
      modifies this
      ensures (Now(), refusal) == Enable(old(Now()), step, now)
      ensures refusal.Some? ==> factor == old(factor) && enabled == old(enabled) && lastUsedStep == old(lastUsedStep)
    {
      if !active { return Some(Inactive); }
      if pending.None? { return Some(NoPending); }
      var setup := pending.value;
      if setup.expiresAt <= now || setup.tokenVersion != tokenVersion {
        pending := None;
        return Some(if setup.expiresAt <= now then ExpiredSetup else StaleSetup);
      }
      if step.None? { return Some(InvalidCode); }
      accepted := accepted + [Use(setup.factor, step.value)];
      factor, enabled, pending, lastUsedStep := Some(setup.factor), true, None, step;
      tokenVersion := tokenVersion + 1;
      return None;
    }

    method DisableMfa(passwordOk: bool, step: Option<int>) returns (refusal: Option<Refusal>)
      modifies this
      ensures (Now(), refusal) == Disable(old(Now()), passwordOk, step)
    {
      if !active { return Some(Inactive); }
      if !enabled { return Some(NotEnabled); }
      if !ProofHolds(Row(), passwordOk, step) { return Some(WrongProof); }
      accepted := accepted + ProofUse(Row(), step);
      enabled, factor, lastUsedStep, pending := false, None, None, None;
      tokenVersion := tokenVersion + 1;
      return None;
    }

    method CancelMfaSetup() returns (wasPending: bool)
      modifies this
      ensures Now() == CancelSetup(old(Now())) && wasPending == old(pending).Some?
    {
      wasPending := pending.Some?;
      pending := None;
    }

    /** First half of a login: an unlocked read; nothing is written. */
    method ReadForLogin(step: Option<int>) returns (login: Option<Login>)
      modifies this`logins
      ensures Now() == ReadLogin(old(Now()), step)
      ensures login.Some? ==> logins == old(logins) + [login.value]
    {
      if !enabled || !active || factor.None? || !IsFreshStep(step, lastUsedStep) { return None; }
      login := Some(Login(factor.value, step.value));
      logins := logins + [login.value];
    }

    /** Second half: one conditional update on the factor that was read. */
    method ClaimStep(l: Login, ghost n: nat) returns (claimed: bool)
      requires n < |logins| && logins[n] == l
      modifies this
      ensures Now() == ClaimLogin(old(Now()), n) && (claimed <==> Claimable(old(Row()), l))
    {
      claimed := enabled && active && factor == Some(l.factor) && (lastUsedStep.None? || lastUsedStep.value < l.step);
      if claimed {
        lastUsedStep := Some(l.step);
        accepted := accepted + [Use(l.factor, l.step)];
      }
    }
  }
}
