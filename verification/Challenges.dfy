/** The mailbox challenge of `locked_out_account_deletion.py`: one account is deleted for someone who
    cannot sign in, after a code sent to the account's own address came back. */
module Challenges {
  import opened Wrappers

  type RequestId = string
  type UserId = string
  type Email = string

  datatype Status = Pending | Verified | Consumed | LockedOut | Expired | Superseded

  /** A keyed hash: a datatype that wraps its purpose and value. */
  datatype Ref = AccountRef(user: UserId) | EmailRef(email: Email)

  datatype CodeHash = Scrypt(code: string, salt: nat)

  datatype Challenge = Challenge(
    account: Ref, email: Ref, codeHash: CodeHash, createdAt: int, expiresAt: int,
    attempts: nat, status: Status, verifiedAt: Option<int>, closedAt: Option<int>)

  const MAX_HOURS := 72
  const HOUR := 3600
  const MAX_ATTEMPTS := 5

  // -- the code as it is typed back --------------------------------------------------------------------------

  predicate IsLower(c: char) { 'a' <= c <= 'z' }
  predicate IsUpper(c: char) { 'A' <= c <= 'Z' }
  predicate IsDigit(c: char) { '0' <= c <= '9' }
  predicate IsAlnum(c: char) { IsLower(c) || IsUpper(c) || IsDigit(c) }

  function ToUpper(c: char): char {
    if IsLower(c) then c - 'a' + 'A' else c
  }

  /** `normalize_code`, on ASCII text: upper case, letters and digits only. */
  function NormalizeCode(code: string): string {
    if code == "" then ""
    else (if IsAlnum(ToUpper(code[0])) then [ToUpper(code[0])] else "") + NormalizeCode(code[1..])
  }

  /** `typed` is `code` in any letter case, with anything that is neither letter nor digit put anywhere. */
  predicate TypedAs(typed: string, code: string) {
    if typed == "" then code == ""
    else if !IsAlnum(typed[0]) then TypedAs(typed[1..], code)
    else code != "" && ToUpper(typed[0]) == code[0] && TypedAs(typed[1..], code[1..])
  }

  /** The code that was issued is accepted however it is typed, and no other text is. */
  lemma {:induction false} TypedBackExactly(typed: string, code: string)
    ensures NormalizeCode(typed) == code <==> TypedAs(typed, code)
  {
    if typed != "" {
      if IsAlnum(typed[0]) {
        assert IsAlnum(ToUpper(typed[0]));
        if code != "" {
          TypedBackExactly(typed[1..], code[1..]);
          assert code == [code[0]] + code[1..];
        }
      } else {
        assert ToUpper(typed[0]) == typed[0];
        TypedBackExactly(typed[1..], code);
      }
    }
  }

  /** `new_code` shows the ten characters with a dash in the middle. */
  function Displayed(raw: string): string
    requires |raw| == 10
  {
    raw[..5] + "-" + raw[5..]
  }

  predicate InAlphabet(raw: string) {
    forall i | 0 <= i < |raw| :: IsUpper(raw[i]) || IsDigit(raw[i])
  }

  lemma {:induction false} NormalizedConcat(a: string, b: string)
    ensures NormalizeCode(a + b) == NormalizeCode(a) + NormalizeCode(b)
  {
    if a == "" {
      assert a + b == b;
    } else {
      var first := if IsAlnum(ToUpper(a[0])) then [ToUpper(a[0])] else "";
      assert (a + b)[1..] == a[1..] + b && (a + b)[0] == a[0];
      NormalizedConcat(a[1..], b);
      assert NormalizeCode(a + b) == first + (NormalizeCode(a[1..]) + NormalizeCode(b));
      assert NormalizeCode(a) == first + NormalizeCode(a[1..]);
      Regroup(first, NormalizeCode(a[1..]), NormalizeCode(b));
    }
  }

  lemma Regroup(a: string, b: string, c: string)
    ensures a + (b + c) == (a + b) + c
  {}

  lemma {:induction false} NormalizedAlphabet(raw: string)
    requires InAlphabet(raw)
    ensures NormalizeCode(raw) == raw
  {
    if raw != "" {
      assert forall i | 0 <= i < |raw[1..]| :: raw[1..][i] == raw[i + 1];
      NormalizedAlphabet(raw[1..]);
    }
  }

  /** What is shown to the operator normalizes to the ten characters themselves. */
  lemma DisplayedCode(raw: string)
    requires |raw| == 10 && InAlphabet(raw)
    ensures NormalizeCode(Displayed(raw)) == raw
  {
    NormalizedConcat(raw[..5] + "-", raw[5..]);
    NormalizedConcat(raw[..5], "-");
    assert NormalizeCode("-") == "";
    NormalizedAlphabet(raw[..5]);
    NormalizedAlphabet(raw[5..]);
    assert raw == raw[..5] + raw[5..];
  }

  /** The hash kept for an issued code is matched by that code, however typed, and by nothing else. */
  lemma IssuedCode(c: Challenge, raw: string, salt: nat)
    requires |raw| == 10 && InAlphabet(raw) && c.codeHash == Scrypt(NormalizeCode(Displayed(raw)), salt)
    ensures forall typed :: Matches(c, typed) <==> TypedAs(typed, raw)
  {
    DisplayedCode(raw);
    forall typed ensures Matches(c, typed) <==> TypedAs(typed, raw) {
      TypedBackExactly(typed, raw);
    }
  }

  /** `normalize_email`, on ASCII text: no surrounding blanks, lower case. */
  function Lowered(s: string): string {
    if s == "" then "" else [if IsUpper(s[0]) then s[0] - 'A' + 'a' else s[0]] + Lowered(s[1..])
  }

  predicate IsBlank(c: char) {
    c == ' ' || c == '\t' || c == '\n' || c == '\r'
  }

  function Stripped(s: string): string {
    if s == "" then ""
    else if IsBlank(s[0]) then Stripped(s[1..])
    else if IsBlank(s[|s| - 1]) then Stripped(s[..|s| - 1])
    else s
  }

  function NormalizeEmail(email: string): string {
    Lowered(Stripped(email))
  }

  // -- what the store, the database and the mailbox have seen ------------------------------------------------------

  datatype Deletion = Deletion(request: RequestId, user: UserId, at: int)

  /** `everUsers`, `deletions`, `compared` and `proven` are the world's own record: which user ids were ever
      given out, which accounts this tool deleted, how often a typed code was compared, and when the right
      one was. */
  datatype State = State(
    now: int,
    requests: map<RequestId, Challenge>,
    accounts: map<UserId, Email>,
    everUsers: set<UserId>,
    deletions: seq<Deletion>,
    compared: map<RequestId, nat>,
    proven: map<RequestId, int>)

  predicate Live(c: Challenge, now: int) {
    (c.status == Pending || c.status == Verified) && now < c.expiresAt
  }

  predicate OpenFor(c: Challenge, user: UserId, now: int) {
    c.account == AccountRef(user) && Live(c, now)
  }

  function Compared(s: State, id: RequestId): nat {
    if id in s.compared then s.compared[id] else 0
  }

  /** One durable or observable effect. */
  datatype Move =
    | Tick(now: int)
    | Register(user: UserId, email: Email)
    | Leave(user: UserId)
    | Issue(id: RequestId, c: Challenge)
    | Supersede(id: RequestId)
    | CountAttempt(id: RequestId)
    | Compare(id: RequestId, typed: string)
    | MarkVerified(id: RequestId)
    | MarkLocked(id: RequestId)
    | MarkExpired(id: RequestId)
    | MarkConsumed(id: RequestId)
    | DeleteAccount(id: RequestId, user: UserId)

  predicate Matches(c: Challenge, typed: string) {
    Scrypt(NormalizeCode(typed), c.codeHash.salt) == c.codeHash
  }

  predicate Fresh(s: State, id: RequestId, c: Challenge) {
    && id !in s.requests && id !in s.compared && id !in s.proven
    && c.account.AccountRef? && c.status == Pending && c.attempts == 0 && c.verifiedAt == None && c.closedAt == None
    && c.createdAt == s.now && s.now + HOUR <= c.expiresAt <= s.now + MAX_HOURS * HOUR
    && forall other | other in s.requests && s.requests[other].account == c.account :: !Live(s.requests[other], s.now)
  }

  /** When each effect may happen, from the state alone. */
  predicate Enabled(m: Move, s: State) {
    match m
    case Tick(now) => s.now <= now
    case Register(user, email) => user !in s.everUsers && email !in s.accounts.Values
    case Leave(user) => user in s.accounts
    case Issue(id, c) => Fresh(s, id, c)
    case Supersede(id) => id in s.requests && Live(s.requests[id], s.now)
    case CountAttempt(id) =>
      id in s.requests && s.requests[id].status == Pending && Live(s.requests[id], s.now)
      && s.requests[id].attempts < MAX_ATTEMPTS
    case Compare(id, typed) =>
      id in s.requests && s.requests[id].status == Pending && Live(s.requests[id], s.now)
      && Compared(s, id) < s.requests[id].attempts
    case MarkVerified(id) =>
      id in s.requests && s.requests[id].status == Pending && id in s.proven && Live(s.requests[id], s.now)
    case MarkLocked(id) =>
      id in s.requests && s.requests[id].status == Pending && s.requests[id].attempts >= MAX_ATTEMPTS
    case MarkExpired(id) =>
      id in s.requests && s.requests[id].status in {Pending, Verified} && s.now >= s.requests[id].expiresAt
    case MarkConsumed(id) =>
      && id in s.requests && s.requests[id].status == Verified
      && (forall u | u in s.accounts :: s.requests[id].account != AccountRef(u))
    case DeleteAccount(id, user) =>
      id in s.requests && s.requests[id].status == Verified && Live(s.requests[id], s.now)
      && s.requests[id].account == AccountRef(user) && user in s.accounts
      && s.requests[id].email == EmailRef(s.accounts[user])
  }

  function Close(s: State, id: RequestId, status: Status): State
    requires id in s.requests
  {
    s.(requests := s.requests[id := s.requests[id].(status := status, closedAt := Some(s.now))])
  }

  function Apply(m: Move, s: State): State
    requires Enabled(m, s)
  {
    match m
    case Tick(now) => s.(now := now)
    case Register(user, email) => s.(accounts := s.accounts[user := email], everUsers := s.everUsers + {user})
    case Leave(user) => s.(accounts := s.accounts - {user})
    case Issue(id, c) => s.(requests := s.requests[id := c])
    case Supersede(id) => Close(s, id, Superseded)
    case CountAttempt(id) => s.(requests := s.requests[id := s.requests[id].(attempts := s.requests[id].attempts + 1)])
    case Compare(id, typed) =>
      s.(compared := s.compared[id := Compared(s, id) + 1],
         proven := if Matches(s.requests[id], typed) && id !in s.proven then s.proven[id := s.now] else s.proven)
    case MarkVerified(id) =>
      s.(requests := s.requests[id := s.requests[id].(status := Verified, verifiedAt := Some(s.now))])
    case MarkLocked(id) => Close(s, id, LockedOut)
    case MarkExpired(id) => Close(s, id, Expired)
    case MarkConsumed(id) => Close(s, id, Consumed)
    case DeleteAccount(id, user) =>
      s.(accounts := s.accounts - {user}, deletions := s.deletions + [Deletion(id, user, s.now)])
  }

  // -- runs ----------------------------------------------------------------------------------------------------------

  const NOTHING: State := State(0, map[], map[], {}, [], map[], map[])

  /** The states a run goes through: each effect enabled where it happens. */
  ghost predicate IsRun(states: seq<State>, moves: seq<Move>) {
    && |states| == |moves| + 1 && states[0] == NOTHING
    && forall k | 0 <= k < |moves| :: Moved(states, moves, k)
  }

  ghost predicate Moved(states: seq<State>, moves: seq<Move>, k: nat)
    requires |states| == |moves| + 1 && k < |moves|
  {
    Enabled(moves[k], states[k]) && states[k + 1] == Apply(moves[k], states[k])
  }

  // -- what every reachable state obeys -------------------------------------------------------------------------------

  ghost predicate RequestOk(s: State, id: RequestId)
    requires id in s.requests
  {
    var c := s.requests[id];
    && c.account.AccountRef?
    && Compared(s, id) <= c.attempts <= MAX_ATTEMPTS
    && c.createdAt <= s.now && c.expiresAt <= c.createdAt + MAX_HOURS * HOUR
    && (c.status in {Verified, Consumed} ==> id in s.proven)
    && (id in s.proven ==> c.createdAt <= s.proven[id] <= s.now && s.proven[id] < c.expiresAt)
  }

  ghost predicate DeletionOk(s: State, i: nat)
    requires i < |s.deletions|
  {
    var d := s.deletions[i];
    && d.request in s.requests && s.requests[d.request].account == AccountRef(d.user)
    && d.request in s.proven && s.proven[d.request] <= d.at < s.requests[d.request].expiresAt
    && d.at <= s.now && d.user in s.everUsers && d.user !in s.accounts
  }

  ghost predicate OneLive(s: State, a: RequestId, b: RequestId)
    requires a in s.requests && b in s.requests
  {
    s.requests[a].account == s.requests[b].account && Live(s.requests[a], s.now) && Live(s.requests[b], s.now) ==>
      a == b
  }

  ghost predicate Safe(s: State) {
    && (forall id | id in s.requests :: RequestOk(s, id))
    && (forall id | id in s.compared || id in s.proven :: id in s.requests)
    && (forall i | 0 <= i < |s.deletions| :: DeletionOk(s, i))
    && (forall i, j | 0 <= i < j < |s.deletions| ::
          s.deletions[i].request != s.deletions[j].request && s.deletions[i].user != s.deletions[j].user)
    && (forall a, b | a in s.requests && b in s.requests :: OneLive(s, a, b))
    && s.accounts.Keys <= s.everUsers
    && (forall u, v | u in s.accounts && v in s.accounts && s.accounts[u] == s.accounts[v] :: u == v)
  }

  /** A step that writes one request. */
  ghost predicate Rewrites(s: State, t: State, id: RequestId, c: Challenge) {
    t.requests == s.requests[id := c]
    && (t.now, t.accounts, t.everUsers, t.deletions, t.compared, t.proven)
       == (s.now, s.accounts, s.everUsers, s.deletions, s.compared, s.proven)
  }

  lemma RewriteKeepsSafe(s: State, t: State, id: RequestId, c: Challenge)
    requires Safe(s) && Rewrites(s, t, id, c) && RequestOk(t, id)
    requires id in s.requests ==> c.account == s.requests[id].account && c.expiresAt == s.requests[id].expiresAt
    requires id in s.requests ==> (Live(c, s.now) ==> Live(s.requests[id], s.now))
    requires id !in s.requests ==>
               forall other | other in s.requests && s.requests[other].account == c.account ::
                 !Live(s.requests[other], s.now)
    ensures Safe(t)
  {
    forall other | other in t.requests ensures RequestOk(t, other) {
      assert other != id ==> RequestOk(s, other);
    }
    forall i | 0 <= i < |t.deletions| ensures DeletionOk(t, i) {
      assert DeletionOk(s, i);
    }
    forall a, b | a in t.requests && b in t.requests ensures OneLive(t, a, b) {
      if a in s.requests && b in s.requests {
        assert OneLive(s, a, b);
      }
    }
  }

  lemma TickKeepsSafe(s: State, now: int)
    requires Safe(s) && s.now <= now
    ensures Safe(s.(now := now))
  {
    var t := s.(now := now);
    forall id | id in t.requests ensures RequestOk(t, id) {
      assert RequestOk(s, id);
    }
    forall i | 0 <= i < |t.deletions| ensures DeletionOk(t, i) {
      assert DeletionOk(s, i);
    }
    forall a, b | a in t.requests && b in t.requests ensures OneLive(t, a, b) {
      assert OneLive(s, a, b);
    }
  }

  lemma CompareKeepsSafe(s: State, id: RequestId, typed: string)
    requires Safe(s) && Enabled(Compare(id, typed), s)
    ensures Safe(Apply(Compare(id, typed), s))
  {
    var t := Apply(Compare(id, typed), s);
    forall other | other in t.requests ensures RequestOk(t, other) {
      assert RequestOk(s, other);
    }
    forall i | 0 <= i < |t.deletions| ensures DeletionOk(t, i) {
      assert DeletionOk(s, i);
    }
    forall a, b | a in t.requests && b in t.requests ensures OneLive(t, a, b) {
      assert OneLive(s, a, b);
    }
  }

  lemma AccountsKeepSafe(s: State, m: Move)
    requires Safe(s) && (m.Register? || m.Leave?) && Enabled(m, s)
    ensures Safe(Apply(m, s))
  {
    var t := Apply(m, s);
    forall other | other in t.requests ensures RequestOk(t, other) {
      assert RequestOk(s, other);
    }
    forall i | 0 <= i < |t.deletions| ensures DeletionOk(t, i) {
      assert DeletionOk(s, i);
    }
    forall a, b | a in t.requests && b in t.requests ensures OneLive(t, a, b) {
      assert OneLive(s, a, b);
    }
    if m.Register? {
      forall u | u in s.accounts ensures s.accounts[u] != m.email {
        assert s.accounts[u] in s.accounts.Values;
      }
    }
  }

  /** The account was there, so no earlier deletion was of it: this request has deleted nothing before. */
  lemma DeletionKeepsSafe(s: State, id: RequestId, user: UserId)
    requires Safe(s) && Enabled(DeleteAccount(id, user), s)
    ensures Safe(Apply(DeleteAccount(id, user), s))
  {
    var t := Apply(DeleteAccount(id, user), s);
    assert RequestOk(s, id);
    forall other | other in t.requests ensures RequestOk(t, other) {
      assert RequestOk(s, other);
    }
    forall i | 0 <= i < |s.deletions|
      ensures DeletionOk(t, i) && s.deletions[i].request != id && s.deletions[i].user != user
    {
      assert DeletionOk(s, i);
    }
    assert DeletionOk(t, |s.deletions|);
    forall a, b | a in t.requests && b in t.requests ensures OneLive(t, a, b) {
      assert OneLive(s, a, b);
    }
  }

  lemma RequestKeepsSafe(s: State, m: Move)
    requires Safe(s) && Enabled(m, s) && (m.CountAttempt? || m.MarkVerified?)
    ensures Safe(Apply(m, s))
  {
    assert RequestOk(s, m.id);
    RewriteKeepsSafe(s, Apply(m, s), m.id, Apply(m, s).requests[m.id]);
  }

  lemma ClosingKeepsSafe(s: State, m: Move)
    requires Safe(s) && Enabled(m, s) && (m.Supersede? || m.MarkLocked? || m.MarkExpired? || m.MarkConsumed?)
    ensures Safe(Apply(m, s))
  {
    assert RequestOk(s, m.id);
    RewriteKeepsSafe(s, Apply(m, s), m.id, Apply(m, s).requests[m.id]);
  }

  lemma StepKeepsSafe(s: State, m: Move)
    requires Safe(s) && Enabled(m, s)
    ensures Safe(Apply(m, s))
  {
    match m
    case Tick(now) => TickKeepsSafe(s, now);
    case Register(_, _) => AccountsKeepSafe(s, m);
    case Leave(_) => AccountsKeepSafe(s, m);
    case Compare(id, typed) => CompareKeepsSafe(s, id, typed);
    case DeleteAccount(id, user) => DeletionKeepsSafe(s, id, user);
    case Issue(id, c) => RewriteKeepsSafe(s, Apply(m, s), id, c);
    case CountAttempt(_) => RequestKeepsSafe(s, m);
    case MarkVerified(_) => RequestKeepsSafe(s, m);
    case _ => ClosingKeepsSafe(s, m);
  }

  lemma {:induction false} RunIsSafe(states: seq<State>, moves: seq<Move>, k: nat)
    requires IsRun(states, moves) && k < |states|
    ensures Safe(states[k])
  {
    if k > 0 {
      RunIsSafe(states, moves, k - 1);
      assert Moved(states, moves, k - 1);
      StepKeepsSafe(states[k - 1], moves[k - 1]);
    }
  }

  // -- the safety contract, over every run ----------------------------------------------------------------------------

  /** A request deletes at most one account, in the whole life of the store: also when the process died
      after the deletion and before the request was marked used, and when the address was registered again. */
  lemma OneDeletionPerRequest(states: seq<State>, moves: seq<Move>, k: nat, i: nat, j: nat)
    requires IsRun(states, moves) && k < |states| && i < j < |states[k].deletions|
    ensures states[k].deletions[i].request != states[k].deletions[j].request
    ensures states[k].deletions[i].user != states[k].deletions[j].user
  {
    RunIsSafe(states, moves, k);
  }

  /** What was deleted is the account the request was created for, after the right code was typed back,
      both before the request expired, which is at most 72 hours after it was created. */
  lemma DeletionIsEarned(states: seq<State>, moves: seq<Move>, k: nat, i: nat)
    requires IsRun(states, moves) && k < |states| && i < |states[k].deletions|
    ensures var s, d := states[k], states[k].deletions[i];
            && d.request in s.requests && d.request in s.proven
            && var c := s.requests[d.request];
               && c.account == AccountRef(d.user)
               && c.createdAt <= s.proven[d.request] <= d.at < c.expiresAt <= c.createdAt + MAX_HOURS * HOUR
    ensures states[k].deletions[i].user !in states[k].accounts
  {
    RunIsSafe(states, moves, k);
    assert DeletionOk(states[k], i);
    assert RequestOk(states[k], states[k].deletions[i].request);
  }

  /** At no time does an account have two live requests. */
  lemma OneLiveRequest(states: seq<State>, moves: seq<Move>, k: nat, a: RequestId, b: RequestId)
    requires IsRun(states, moves) && k < |states| && a in states[k].requests && b in states[k].requests
    requires states[k].requests[a].account == states[k].requests[b].account
    requires Live(states[k].requests[a], states[k].now) && Live(states[k].requests[b], states[k].now)
    ensures a == b
  {
    RunIsSafe(states, moves, k);
    assert OneLive(states[k], a, b);
  }

  /** A code is compared at most as often as attempts were saved, and never more than five times. */
  lemma GuessesAreBounded(states: seq<State>, moves: seq<Move>, k: nat, id: RequestId)
    requires IsRun(states, moves) && k < |states| && id in states[k].requests
    ensures Compared(states[k], id) <= states[k].requests[id].attempts <= MAX_ATTEMPTS
  {
    RunIsSafe(states, moves, k);
    assert RequestOk(states[k], id);
  }

  predicate MayFollow(before: Status, after: Status) {
    || after == before
    || (before == Pending && after in {Verified, LockedOut, Expired, Superseded})
    || (before == Verified && after in {Consumed, Expired, Superseded})
  }

  predicate Closed(st: Status) {
    st in {Consumed, LockedOut, Expired, Superseded}
  }

  /** Statuses move only along the allowed edges; who a request is for, its code and its expiry never
      change; attempts only grow; a closed request is never touched again. */
  lemma RequestsMoveForward(s: State, m: Move, id: RequestId)
    requires Safe(s) && Enabled(m, s) && id in s.requests
    ensures id in Apply(m, s).requests
    ensures var c, d := s.requests[id], Apply(m, s).requests[id];
            && MayFollow(c.status, d.status)
            && (d.account, d.email, d.codeHash, d.createdAt, d.expiresAt)
               == (c.account, c.email, c.codeHash, c.createdAt, c.expiresAt)
            && c.attempts <= d.attempts
            && (Closed(c.status) ==> d == c)
  {}

  lemma {:induction false} ClosedForGood(states: seq<State>, moves: seq<Move>, i: nat, k: nat, id: RequestId)
    requires IsRun(states, moves) && i <= k < |states|
    requires id in states[i].requests && Closed(states[i].requests[id].status)
    ensures id in states[k].requests && states[k].requests[id] == states[i].requests[id]
    decreases k
  {
    if i < k {
      ClosedForGood(states, moves, i, k - 1, id);
      RunIsSafe(states, moves, k - 1);
      assert Moved(states, moves, k - 1);
      RequestsMoveForward(states[k - 1], moves[k - 1], id);
    }
  }

  // -- the tool -------------------------------------------------------------------------------------------------------

  datatype Refusal =
    | BadHours | HasOpenRequest
    | NoSuchRequest | AlreadyUsed | IsClosed(status: Status) | HasExpired
    | AlreadyVerified | TooManyWrong | WrongCode(left: nat)
    | NoAccount | NotVerified | NotThatAccount | FingerprintDiffers | NotConfirmed
    | GenerationRunning | AccountAlreadyGone | DeletionFailed

  datatype Reply = Done | DryRunPassed | No(why: Refusal) | Died

  /** What the application's own deletion service answered. */
  datatype Service = Deleted | Busy | Gone | Failed

  /** The store and the database, under the store's lock. `states` and `moves` record how they got here. A
      process that is not `mortal` never dies. */
  class Desk {
    const mortal: bool
    var clock: int
    var requests: map<RequestId, Challenge>
    var accounts: map<UserId, Email>
    const fingerprintOf: UserId -> string
    ghost var states: seq<State>
    ghost var moves: seq<Move>

    constructor (fingerprintOf: UserId -> string, mortal: bool)
      ensures Valid() && Now() == NOTHING && this.mortal == mortal
    {
      this.fingerprintOf, this.mortal := fingerprintOf, mortal;
      clock, requests, accounts := 0, map[], map[];
      states, moves := [NOTHING], [];
    }

    ghost predicate Valid()
      reads this
    {
      IsRun(states, moves) && (clock, requests, accounts) == (Now().now, Now().requests, Now().accounts)
    }

    ghost function Now(): State
      reads this
      requires states != []
    {
      states[|states| - 1]
    }

    lemma NowIsSafe()
      requires Valid()
      ensures Safe(Now())
    {
      RunIsSafe(states, moves, |states| - 1);
    }

    lemma ComparedSoFar(id: RequestId)
      requires Valid() && id in requests
      ensures Compared(Now(), id) <= requests[id].attempts
    {
      NowIsSafe();
      assert RequestOk(Now(), id);
    }

    lemma NeverSeen(id: RequestId)
      requires Valid() && id !in requests
      ensures id !in Now().compared && id !in Now().proven
    {
      NowIsSafe();
    }

    ghost method Record(m: Move)
      requires IsRun(states, moves) && Enabled(m, Now())
      modifies this`states, this`moves
      ensures IsRun(states, moves) && states == old(states) + [Apply(m, old(Now()))] && moves == old(moves) + [m]
    {
      states, moves := states + [Apply(m, Now())], moves + [m];
      forall k | 0 <= k < |moves| ensures Moved(states, moves, k) {
        assert k < |old(moves)| ==> Moved(old(states), old(moves), k);
      }
    }

    method SetClock(now: int)
      requires Valid() && clock <= now
      modifies this
      ensures Valid() && old(states) <= states && Now() == old(Now()).(now := now)
    {
      Record(Tick(now));
      clock := now;
    }

    /** What the world does meanwhile: someone registers, under a user id never given out before, possibly
        with an address an earlier account had; or an owner deletes the account in the application. */
    method SomeoneRegisters(user: UserId, email: Email)
      requires Valid() && user !in Now().everUsers && email !in accounts.Values
      modifies this
      ensures Valid() && old(states) <= states && Now() == Apply(Register(user, email), old(Now()))
    {
      Record(Register(user, email));
      accounts := accounts[user := email];
    }

    method OwnerLeaves(user: UserId)
      requires Valid() && user in accounts
      modifies this
      ensures Valid() && old(states) <= states && Now() == Apply(Leave(user), old(Now()))
    {
      Record(Leave(user));
      accounts := accounts - {user};
    }

    /** `store.save`: the whole record or nothing, and possibly the last thing the process does. */
    method Save(id: RequestId, c: Challenge, ghost m: Move) returns (alive: bool)
      requires Valid() && Enabled(m, Now()) && Rewrites(Now(), Apply(m, Now()), id, c)
      modifies this
      ensures Valid() && old(states) <= states
      ensures Now() == if alive then old(Now()).(requests := old(requests)[id := c]) else old(Now())
      ensures !mortal ==> alive
    {
      var dead := Dies(mortal);
      if dead {
        return false;
      }
      Record(m);
      requests := requests[id := c];
      return true;
    }

    /** `_refuse_if_closed`, for a request that exists. */
    method RefuseIfClosed(id: RequestId) returns (refusal: Option<Reply>)
      requires Valid() && id in requests
      modifies this
      ensures Valid() && old(states) <= states
      ensures var c := old(requests)[id];
              && (refusal == None <==> Live(c, clock))
              && (refusal == None ==> Now() == old(Now()))
              && (c.status == Consumed ==> refusal == Some(No(AlreadyUsed)) && Now() == old(Now()))
              && (c.status in {LockedOut, Expired, Superseded} ==>
                    refusal == Some(No(IsClosed(c.status))) && Now() == old(Now()))
              && (c.status in {Pending, Verified} && c.expiresAt <= clock ==>
                    (refusal, Now()) in
                      {(Some(No(HasExpired)), Close(old(Now()), id, Expired)), (Some(Died), old(Now()))})
      ensures !mortal ==> refusal != Some(Died)
    {
      var c := requests[id];
      if c.status == Consumed {
        return Some(No(AlreadyUsed));
      }
      if c.status == LockedOut || c.status == Superseded || c.status == Expired {
        return Some(No(IsClosed(c.status)));
      }
      if clock >= c.expiresAt {
        var alive := Save(id, c.(status := Expired, closedAt := Some(clock)), MarkExpired(id));
        return Some(if alive then No(HasExpired) else Died);
      }
      return None;
    }

    /** Only this request may differ from before; nothing was deleted. */
    ghost predicate OnlyRequest(s: State, id: RequestId)
      reads this
    {
      && Valid() && Now().deletions == s.deletions && accounts == s.accounts
      && forall other | other != id :: (other in requests <==> other in s.requests)
                                       && (other in requests ==> requests[other] == s.requests[other])
    }

    /** A wrong code: the last one allowed locks the request. */
    method Wrong(id: RequestId) returns (r: Reply)
      requires Valid() && id in requests && requests[id].status == Pending && requests[id].attempts <= MAX_ATTEMPTS
      modifies this
      ensures old(states) <= states && OnlyRequest(old(Now()), id) && id in requests && clock == old(clock)
      ensures r != Died ==>
                && requests[id].attempts == old(requests)[id].attempts
                && r == No(WrongCode(MAX_ATTEMPTS - requests[id].attempts))
                && requests[id].status == if requests[id].attempts == MAX_ATTEMPTS then LockedOut else Pending
      ensures !mortal ==> r != Died
    {
      var c := requests[id];
      var left := MAX_ATTEMPTS - c.attempts;
      if left <= 0 {
        var alive := Save(id, c.(status := LockedOut, closedAt := Some(clock)), MarkLocked(id));
        if !alive {
          return Died;
        }
      }
      return No(WrongCode(left));
    }

    /** The comparison itself: counted and saved first, so that no death of the process gives a free guess. */
    method Try(id: RequestId, typed: string) returns (r: Reply)
      requires Valid() && id in requests && Live(requests[id], clock) && requests[id].status == Pending
      requires requests[id].attempts < MAX_ATTEMPTS
      modifies this
      ensures old(states) <= states && OnlyRequest(old(Now()), id) && id in requests && clock == old(clock)
      ensures r == Done ==>
                requests[id] == old(requests)[id].(attempts := old(requests)[id].attempts + 1, status := Verified,
                                                   verifiedAt := Some(clock))
      ensures r != Died ==> (r == Done <==> Matches(old(requests)[id], typed))
      ensures r != Died && r != Done ==>
                && requests[id].attempts == old(requests)[id].attempts + 1
                && r == No(WrongCode(MAX_ATTEMPTS - requests[id].attempts))
                && requests[id].status == if requests[id].attempts == MAX_ATTEMPTS then LockedOut else Pending
      ensures !mortal ==> r != Died
    {
      ComparedSoFar(id);
      var c := requests[id].(attempts := requests[id].attempts + 1);
      var alive := Save(id, c, CountAttempt(id));
      if !alive {
        return Died;
      }
      Record(Compare(id, typed));
      if !Matches(c, typed) {
        r := Wrong(id);
        return;
      }
      alive := Save(id, c.(status := Verified, verifiedAt := Some(clock)), MarkVerified(id));
      r := if alive then Done else Died;
    }

    /** `verify_code`. A pending, unexpired request with fewer than five attempts is verified exactly by the
        code that was issued for it. */
    method VerifyCode(id: RequestId, typed: string, now: int) returns (r: Reply)
      requires Valid() && clock <= now
      modifies this
      ensures old(states) <= states && OnlyRequest(old(Now()), id) && clock == now
      ensures r == No(NoSuchRequest) <==> id !in old(requests)
      ensures id in old(requests) ==> id in requests
      ensures id in old(requests) && r == Done ==>
                var c := old(requests)[id];
                requests[id] == c.(attempts := c.attempts + 1, status := Verified, verifiedAt := Some(now))
      ensures id in old(requests) && r != Died ==>
                var c := old(requests)[id];
                r == Done <==>
                  c.status == Pending && now < c.expiresAt && c.attempts < MAX_ATTEMPTS && Matches(c, typed)
      ensures id in old(requests) && r != Died && old(requests)[id].status == Pending
              && now < old(requests)[id].expiresAt ==>
                var c, d := old(requests)[id], requests[id];
                && (c.attempts >= MAX_ATTEMPTS ==>
                      r == No(TooManyWrong) && d.status == LockedOut && d.attempts == c.attempts)
                && (c.attempts < MAX_ATTEMPTS && !Matches(c, typed) ==>
                      && d.attempts == c.attempts + 1 && r == No(WrongCode(MAX_ATTEMPTS - d.attempts))
                      && d.status == if d.attempts == MAX_ATTEMPTS then LockedOut else Pending)
      ensures id in old(requests) && (Closed(old(requests)[id].status) || r == No(AlreadyVerified)) ==>
                requests[id] == old(requests)[id]
      ensures !mortal ==> r != Died
    {
      SetClock(now);
      if id !in requests {
        return No(NoSuchRequest);
      }
      var refusal := RefuseIfClosed(id);
      if refusal.Some? {
        return refusal.value;
      }
      var c := requests[id];
      if c.status == Verified {
        return No(AlreadyVerified);
      }
      if c.attempts >= MAX_ATTEMPTS {
        var alive := Save(id, c.(status := LockedOut, closedAt := Some(now)), MarkLocked(id));
        return if alive then No(TooManyWrong) else Died;
      }
      r := Try(id, typed);
    }

    // -- create_challenge --------------------------------------------------------------------------------------------

    function OpenOnes(user: UserId): set<RequestId>
      reads this
    {
      set id | id in requests && OpenFor(requests[id], user, clock)
    }

    method SupersedeOne(id: RequestId) returns (alive: bool)
      requires Valid() && id in requests && Live(requests[id], clock)
      modifies this
      ensures Valid() && old(states) <= states && (clock, accounts) == old((clock, accounts))
      ensures Now().deletions == old(Now()).deletions
      ensures requests ==
              if alive then old(requests)[id := old(requests)[id].(status := Superseded, closedAt := Some(clock))]
                          else old(requests)
      ensures !mortal ==> alive
    {
      alive := Save(id, requests[id].(status := Superseded, closedAt := Some(clock)), Supersede(id));
    }

    /** Every open request of the account is closed as superseded, one by one. */
    method SupersedeAll(user: UserId) returns (alive: bool)
      requires Valid()
      modifies this
      ensures Valid() && old(states) <= states && clock == old(clock)
      ensures requests.Keys == old(requests).Keys && accounts == old(accounts)
      ensures Now().deletions == old(Now()).deletions
      ensures forall id | id in requests && id !in old(OpenOnes(user)) :: requests[id] == old(requests)[id]
      ensures alive ==> OpenOnes(user) == {}
      ensures alive ==> forall id | id in old(OpenOnes(user)) ::
                requests[id] == old(requests)[id].(status := Superseded, closedAt := Some(clock))
      ensures !mortal ==> alive
    {
      var open := OpenOnes(user);
      while open != {}
        invariant Valid() && old(states) <= states && clock == old(clock)
        invariant requests.Keys == old(requests).Keys && accounts == old(accounts)
        invariant Now().deletions == old(Now()).deletions
        invariant open == OpenOnes(user) <= old(OpenOnes(user))
        invariant forall id | id in requests && (id in open || id !in old(OpenOnes(user))) ::
                    requests[id] == old(requests)[id]
        invariant forall id | id in old(OpenOnes(user)) && id !in open ::
                    requests[id] == old(requests)[id].(status := Superseded, closedAt := Some(clock))
        decreases |open|
      {
        var id :| id in open;
        alive := SupersedeOne(id);
        if !alive {
          return false;
        }
        open := open - {id};
      }
      alive := true;
    }

    /** The new request, when none is open for the account. */
    method IssueNew(user: UserId, email: Email, hours: int, id: RequestId, raw: string, salt: nat) returns (alive: bool)
      requires Valid() && id !in requests && |raw| == 10 && InAlphabet(raw) && 1 <= hours <= MAX_HOURS
      requires OpenOnes(user) == {}
      modifies this
      ensures Valid() && old(states) <= states && (clock, accounts) == old((clock, accounts))
      ensures Now().deletions == old(Now()).deletions
      ensures !alive ==> requests == old(requests)
      ensures alive ==>
                && id in requests && requests == old(requests)[id := requests[id]]
                && requests[id].account == AccountRef(user) && requests[id].email == EmailRef(NormalizeEmail(email))
                && requests[id].status == Pending && requests[id].attempts == 0
                && requests[id].expiresAt == clock + hours * HOUR && requests[id].createdAt == clock
                && (forall typed :: Matches(requests[id], typed) <==> TypedAs(typed, raw))
      ensures !mortal ==> alive
    {
      NeverSeen(id);
      var hash := Scrypt(NormalizeCode(Displayed(raw)), salt);
      var c := Challenge(AccountRef(user), EmailRef(NormalizeEmail(email)), hash, clock, clock + hours * HOUR, 0,
                         Pending,
                         None, None);
      IssuedCode(c, raw, salt);
      forall other | other in requests && requests[other].account == c.account ensures !Live(requests[other], clock) {
        assert other !in OpenOnes(user);
      }
      alive := Save(id, c, Issue(id, c));
    }

    /** `create_challenge`, for an account found by its address. `id`, `raw` and `salt` are the random draws;
        request ids never repeat. */
    method CreateChallenge(user: UserId, email: Email, now: int, hours: int, replace: bool,
                           id: RequestId, raw: string, salt: nat) returns (r: Reply)
      requires Valid() && clock <= now && id !in requests && |raw| == 10 && InAlphabet(raw)
      modifies this
      ensures Valid() && old(states) <= states && clock == now
      ensures accounts == old(accounts) && Now().deletions == old(Now()).deletions
      ensures r == No(BadHours) <==> !(1 <= hours <= MAX_HOURS)
      ensures r == No(HasOpenRequest) ==> !replace && requests == old(requests) && OpenOnes(user) != {}
      ensures r == No(BadHours) ==> requests == old(requests)
      ensures r == Done || r == Died || r == No(BadHours) || r == No(HasOpenRequest)
      // what was open for the account is superseded, and nothing else is touched
      ensures forall other | other in old(requests) && !OpenFor(old(requests)[other], user, now) ::
                other in requests && requests[other] == old(requests)[other]
      ensures r == Done ==> forall other | other in old(requests) && OpenFor(old(requests)[other], user, now) ::
                && other in requests
                && requests[other] == old(requests)[other].(status := Superseded, closedAt := Some(now))
      ensures r == Done ==> OpenOnes(user) == {id}
      ensures r == Done ==>
                && requests.Keys == old(requests).Keys + {id}
                && requests[id].account == AccountRef(user) && requests[id].email == EmailRef(NormalizeEmail(email))
                && requests[id].status == Pending && requests[id].attempts == 0
                && requests[id].expiresAt == now + hours * HOUR && requests[id].createdAt == now
                && (forall typed :: Matches(requests[id], typed) <==> TypedAs(typed, raw))
      ensures !mortal ==> r != Died
    {
      SetClock(now);
      if !(1 <= hours <= MAX_HOURS) {
        return No(BadHours);
      }
      var open := OpenOnes(user);
      if open != {} && !replace {
        return No(HasOpenRequest);
      }
      var alive := SupersedeAll(user);
      if alive {
        alive := IssueNew(user, email, hours, id, raw, salt);
      }
      r := if alive then Done else Died;
    }

    // -- run_delete ---------------------------------------------------------------------------------------------------

    function HoldersOf(email: Email): set<UserId>
      reads this
    {
      set u | u in accounts && accounts[u] == email
    }

    /** No two accounts share an address. */
    lemma OneHolder(email: Email)
      requires Valid()
      ensures forall u, v | u in HoldersOf(email) && v in HoldersOf(email) :: u == v
    {
      NowIsSafe();
    }

    /** `authorize_deletion`: every check, for the account `user` found by the typed address. */
    method Authorize(id: RequestId, user: UserId, email: Email, confirm: string) returns (refusal: Option<Reply>)
      requires Valid()
      modifies this
      ensures old(states) <= states && OnlyRequest(old(Now()), id) && clock == old(clock)
      ensures refusal == None <==>
                && id in old(requests) && old(requests)[id].status == Verified && clock < old(requests)[id].expiresAt
                && old(requests)[id].account == AccountRef(user)
                && old(requests)[id].email == EmailRef(NormalizeEmail(email))
                && confirm == fingerprintOf(user)
      ensures refusal != Some(No(HasExpired)) && refusal != Some(Died) ==> Now() == old(Now())
      ensures refusal == Some(No(HasExpired)) ==> id in old(requests) && Now() == Close(old(Now()), id, Expired)
      ensures requests.Keys == old(requests).Keys
      ensures refusal != Some(Done) && refusal != Some(DryRunPassed) && refusal != Some(No(AccountAlreadyGone))
      ensures !mortal ==> refusal != Some(Died)
    {
      if id !in requests {
        return Some(No(NoSuchRequest));
      }
      refusal := RefuseIfClosed(id);
      if refusal.Some? {
        return;
      }
      var c := requests[id];
      if c.status != Verified {
        return Some(No(NotVerified));
      }
      if c.account != AccountRef(user) || c.email != EmailRef(NormalizeEmail(email)) {
        return Some(No(NotThatAccount));
      }
      if confirm != fingerprintOf(user) {
        return Some(No(FingerprintDiffers));
      }
      return None;
    }

    ghost predicate Authorized(s: State, id: RequestId, user: UserId, email: Email, confirm: string, now: int)
    {
      && user in s.accounts && s.accounts[user] == NormalizeEmail(email)
      && id in s.requests && s.requests[id].status == Verified && now < s.requests[id].expiresAt
      && s.requests[id].account == AccountRef(user) && s.requests[id].email == EmailRef(NormalizeEmail(email))
      && confirm == fingerprintOf(user)
    }

    /** The deletion and the mark that the request was used: two effects, with a possible death between. */
    method DeleteAndClose(id: RequestId, user: UserId) returns (alive: bool)
      requires Valid() && Enabled(DeleteAccount(id, user), Now())
      modifies this
      ensures Valid() && old(states) <= states && clock == old(clock)
      ensures Now().deletions in {old(Now()).deletions, old(Now()).deletions + [Deletion(id, user, clock)]}
      ensures accounts == (if Now().deletions == old(Now()).deletions then old(accounts) else old(accounts) - {user})
      ensures alive ==> Now().deletions == old(Now()).deletions + [Deletion(id, user, clock)]
      ensures requests ==
              if alive then old(requests)[id := old(requests)[id].(status := Consumed, closedAt := Some(clock))]
                          else old(requests)
      ensures !mortal ==> alive
    {
      var dead := Dies(mortal);
      if dead {
        return false;
      }
      Record(DeleteAccount(id, user));
      accounts := accounts - {user};
      alive := Save(id, requests[id].(status := Consumed, closedAt := Some(clock)), MarkConsumed(id));
    }

    /** The account had already been deleted by its owner: the request is closed, nothing is deleted. */
    method CloseAsGone(id: RequestId, user: UserId) returns (alive: bool)
      requires Valid() && Enabled(DeleteAccount(id, user), Now())
      modifies this
      ensures Valid() && old(states) <= states && clock == old(clock)
      ensures Now().deletions == old(Now()).deletions && accounts == old(accounts) - {user}
      ensures requests ==
              if alive then old(requests)[id := old(requests)[id].(status := Consumed, closedAt := Some(clock))]
                          else old(requests)
      ensures !mortal ==> alive
    {
      Record(Leave(user));
      accounts := accounts - {user};
      alive := Save(id, requests[id].(status := Consumed, closedAt := Some(clock)), MarkConsumed(id));
    }

    /** The application's deletion service, and the used mark after it. */
    method Perform(id: RequestId, user: UserId, service: Service) returns (r: Reply)
      requires Valid() && Enabled(DeleteAccount(id, user), Now())
      modifies this
      ensures Valid() && old(states) <= states && clock == old(clock)
      ensures requests.Keys == old(requests).Keys
      ensures forall other | other in requests && other != id :: requests[other] == old(requests)[other]
      ensures r == Done || r == Died <== service == Deleted
      ensures r == Done ==>
                && service == Deleted && requests[id].status == Consumed && accounts == old(accounts) - {user}
                && Now().deletions == old(Now()).deletions + [Deletion(id, user, clock)]
      ensures r == No(AccountAlreadyGone) ==>
                service == Gone && requests[id].status == Consumed && Now().deletions == old(Now()).deletions
      ensures r == Died ==>
                Now().deletions in {old(Now()).deletions, old(Now()).deletions + [Deletion(id, user, clock)]}
      ensures r in {Done, Died, No(AccountAlreadyGone)}
              || (r in {No(GenerationRunning), No(DeletionFailed)} && Now() == old(Now()))
      ensures !mortal ==> r != Died
    {
      match service {
        case Busy => r := No(GenerationRunning);
        case Failed => r := No(DeletionFailed);
        case Gone =>
          var alive := CloseAsGone(id, user);
          r := if alive then No(AccountAlreadyGone) else Died;
        case Deleted =>
          var alive := DeleteAndClose(id, user);
          r := if alive then Done else Died;
      }
    }

    /** `run_delete`. The account goes exactly when every check passes, the confirmation was typed and the
        service deleted it; in every other case nothing is deleted by this tool. */
    method RunDelete(id: RequestId, email: Email, confirm: string, typed: string, dryRun: bool, now: int,
                     service: Service)
      returns (r: Reply, ghost user: UserId)
      requires Valid() && clock <= now
      modifies this
      ensures Valid() && old(states) <= states && clock == now
      ensures r == Done ==>
                && Authorized(old(Now()), id, user, email, confirm, now)
                && typed == "DELETE " + fingerprintOf(user) && !dryRun && service == Deleted
                && Now().deletions == old(Now()).deletions + [Deletion(id, user, now)]
                && accounts == old(accounts) - {user} && id in requests && requests[id].status == Consumed
      ensures r != Done && r != Died ==> Now().deletions == old(Now()).deletions
      ensures r != Done && r != Died && r != No(AccountAlreadyGone) ==> accounts == old(accounts)
      ensures r == Died ==>
                Now().deletions in {old(Now()).deletions, old(Now()).deletions + [Deletion(id, user, now)]}
      ensures r == DryRunPassed ==> dryRun && Now() == old(Now()).(now := now)
      // the store: no other request is touched, and this one only as it expires or is used
      ensures requests.Keys == old(requests).Keys
      ensures forall other | other in requests && other != id :: requests[other] == old(requests)[other]
      ensures r !in {Done, Died, No(HasExpired), No(AccountAlreadyGone)} ==> Now() == old(Now()).(now := now)
      ensures r == No(HasExpired) ==> id in requests && requests[id].status == Expired
      ensures r == No(AccountAlreadyGone) ==> service == Gone && id in requests && requests[id].status == Consumed
      ensures forall u | Authorized(old(Now()), id, u, email, confirm, now) && !dryRun
                         && typed == "DELETE " + fingerprintOf(u) && service == Deleted :: r == Done || r == Died
      ensures !mortal ==> r != Died
    {
      user := "";
      SetClock(now);
      var holders := HoldersOf(NormalizeEmail(email));
      if holders == {} {
        assert forall u | u in accounts :: u !in holders;
        return No(NoAccount), "";
      }
      var holder :| holder in holders;
      user := holder;
      OneHolder(NormalizeEmail(email));
      forall u | Authorized(old(Now()), id, u, email, confirm, now) ensures u == holder {
        assert u in holders && holder in holders;
      }
      var refusal := Authorize(id, holder, email, confirm);
      if refusal.Some? {
        return refusal.value, holder;
      }
      var fingerprint := fingerprintOf(holder);
      if dryRun {
        return DryRunPassed, holder;
      }
      if typed != "DELETE " + fingerprint {
        return No(NotConfirmed), holder;
      }
      r := Perform(id, holder, service);
    }
  }
}
