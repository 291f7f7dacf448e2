/**
  Privy sign-in: linking an external subject to a user, creating the user on
  first sight. The two advisory locks make one resolution a single step.
 */
module IdentityLinking {
  import opened Basics
  import opened Text

  type UserId = nat
  type Subject = string

  datatype User = User(email: Option<string>, name: string, active: bool, verified: bool, privy: Option<Subject>)
  datatype Identity = Identity(user: UserId, email: string)

  datatype Db = Db(
    users: map<UserId, User>,               // email is CITEXT UNIQUE, privy_user_id is UNIQUE
    identities: map<Subject, Identity>)     // the 'privy' rows; (provider, provider_subject) is UNIQUE

  datatype Refusal = Unauthorized | Inactive | EmailChanged | LinkedElsewhere | StorageFault
  datatype Reply = Resolved(user: UserId, created: bool) | Refused(why: Refusal)

  /** What the provider's server said about the person; `parses` is the mail address grammar. */
  datatype Claim = Claim(subject: Subject, email: string, parses: bool, name: string)

  function CountAt(s: string): nat {
    if s == "" then 0 else (if s[0] == '@' then 1 else 0) + CountAt(s[1..])
  }

  function NormalizeEmail(value: string, parses: bool): Option<string> {
    var email := Lower(TrimSpace(value));
    if parses && CountAt(email) == 1 then Some(email) else None
  }

  /** Whether the unique email index lets user `id` carry this email. */
  predicate EmailFree(users: map<UserId, User>, id: UserId, email: string) {
    forall u <- users | u != id && users[u].email.Some? :: !EqualFold(users[u].email.value, email)
  }

  predicate PrivyFree(users: map<UserId, User>, id: UserId, subject: Subject) {
    forall u <- users | u != id :: users[u].privy != Some(subject)
  }

  predicate HasEmail(u: User, email: string) { u.email.Some? && EqualFold(u.email.value, email) }

  /** The subject a user is tied to already, by either table, other than this one. */
  predicate TiedElsewhere(db: Db, id: UserId, subject: Subject)
    requires id in db.users
  {
    var privy := db.users[id].privy;
    || (privy.Some? && privy.value != "" && privy.value != subject)
    || exists s <- db.identities :: db.identities[s].user == id && s != subject
  }

  function Greet(u: User, name: string): User {
    u.(name := if TrimSpace(u.name) == "" then name else u.name, verified := true)
  }

  /** A returning subject. */
  function Return(db: Db, subject: Subject, email: string, name: string, fault: bool): (Db, Reply)
    requires subject in db.identities
  {
    var id := db.identities[subject].user;
    if id !in db.users then (db, Refused(StorageFault))
    else
      var u := db.users[id];
      if !u.active then (db, Refused(Inactive))
      else if !EqualFold(TrimSpace(if u.email.Some? then u.email.value else ""), email) then (db, Refused(EmailChanged))
      else if fault || !EmailFree(db.users, id, email) || !PrivyFree(db.users, id, subject)
      then (db, Refused(StorageFault))
      else
        (Db(db.users[id := Greet(u, name).(email := Some(email), privy := Some(subject))],
            db.identities[subject := Identity(id, email)]),
         Resolved(id, false))
  }

  /** A new subject whose email belongs to user `id`. */
  function Link(db: Db, id: UserId, subject: Subject, email: string, name: string, fault: bool): (Db, Reply)
    requires id in db.users
  {
    var u := db.users[id];
    if !u.active then (db, Refused(Inactive))
    else if TiedElsewhere(db, id, subject) then (db, Refused(LinkedElsewhere))
    else if fault || !PrivyFree(db.users, id, subject) then (db, Refused(StorageFault))
    else
      (Db(db.users[id := Greet(u, name).(privy := Some(subject))],
          db.identities[subject := Identity(id, Lower(email))]),
       Resolved(id, false))
  }

  function Create(db: Db, id: UserId, subject: Subject, email: string, name: string, fault: bool): (Db, Reply) {
    if fault || id in db.users || !EmailFree(db.users, id, email) || !PrivyFree(db.users, id, subject)
    then (db, Refused(StorageFault))
    else
      (Db(db.users[id := User(Some(email), name, true, true, Some(subject))],
          db.identities[subject := Identity(id, Lower(email))]),
       Resolved(id, true))
  }

  /** Users with this email; at most one where emails are unique. */
  function Owners(users: map<UserId, User>, email: string): set<UserId> { set u <- users | HasEmail(users[u], email) }

  /** ResolvePrivy, given the row the email lookup returned; `fresh` is the id a new user would get. */
  function Resolve(db: Db, c: Claim, owner: Option<UserId>, newId: UserId, fault: bool): (Db, Reply)
    requires owner.Some? ==> owner.value in db.users
  {
    var email := NormalizeEmail(c.email, c.parses);
    if email.None? || TrimSpace(c.subject) == "" then (db, Refused(Unauthorized))
    else if c.subject in db.identities then Return(db, c.subject, email.value, c.name, fault)
    else if owner.Some? then Link(db, owner.value, c.subject, email.value, c.name, fault)
    else Create(db, newId, c.subject, email.value, c.name, fault)
  }

  /** The lookup by lower-cased email returned `owner`. */
  ghost predicate LooksUp(db: Db, c: Claim, owner: Option<UserId>) {
    var email := Lower(TrimSpace(c.email));
    if owner.Some? then owner.value in Owners(db.users, email) else Owners(db.users, email) == {}
  }

  // ----- runs -----

  datatype Op =
    | SignIn(claim: Claim, owner: Option<UserId>, newId: UserId, fault: bool)
    | SignUp(id: UserId, email: string, name: string)   // a password account, inactive until verified
    | SetActive(id: UserId, active: bool)

  function Apply(db: Db, op: Op): (r: (Db, Reply)) {
    match op
    case SignIn(claim, owner, newId, fault) =>
      if owner.Some? && owner.value !in db.users then (db, Refused(StorageFault))
      else Resolve(db, claim, owner, newId, fault)
    case SignUp(id, email, name) =>
      if id in db.users || !EmailFree(db.users, id, email) then (db, Refused(StorageFault))
      else (db.(users := db.users[id := User(Some(email), name, false, false, None)]), Resolved(id, true))
    case SetActive(id, active) =>
      if id in db.users then (db.(users := db.users[id := db.users[id].(active := active)]), Resolved(id, false))
      else (db, Refused(StorageFault))
  }

  function Run(db: Db, ops: seq<Op>): Db
    decreases |ops|
  {
    if ops == [] then db else Run(Apply(db, ops[0]).0, ops[1..])
  }

  const EMPTY := Db(map[], map[])

  // ----- the invariant -----

  ghost predicate EmailsUnique(db: Db) {
    forall a, b | a in db.users && b in db.users && a != b && db.users[a].email.Some? && db.users[b].email.Some? ::
      !EqualFold(db.users[a].email.value, db.users[b].email.value)
  }

  /** A linked subject and its user point at each other. */
  ghost predicate LinksMutual(db: Db) {
    forall s <- db.identities :: db.identities[s].user in db.users && db.users[db.identities[s].user].privy == Some(s)
  }

  ghost predicate Inv(db: Db) { EmailsUnique(db) && LinksMutual(db) }

  ghost predicate LinksKept(db: Db, later: Db) {
    && (forall s <- db.identities :: s in later.identities && later.identities[s].user == db.identities[s].user)
    && (forall u <- db.users :: u in later.users)
  }

  /** One user's row replaced by one whose email the index allows. */
  lemma EmailsStayUnique(db: Db, id: UserId, row: User)
    requires EmailsUnique(db) && (row.email.Some? ==> EmailFree(db.users, id, row.email.value))
    ensures EmailsUnique(db.(users := db.users[id := row]))
  {}

  lemma SameEmailIsFree(db: Db, id: UserId)
    requires EmailsUnique(db) && id in db.users && db.users[id].email.Some?
    ensures EmailFree(db.users, id, db.users[id].email.value)
  {}

  lemma ReturnKeeps(db: Db, subject: Subject, email: string, name: string, fault: bool)
    requires Inv(db) && subject in db.identities
    ensures Inv(Return(db, subject, email, name, fault).0) && LinksKept(db, Return(db, subject, email, name, fault).0)
  {}

  lemma LinkKeeps(db: Db, id: UserId, subject: Subject, email: string, name: string, fault: bool)
    requires Inv(db) && id in db.users && subject !in db.identities
    ensures Inv(Link(db, id, subject, email, name, fault).0)
      && LinksKept(db, Link(db, id, subject, email, name, fault).0)
  {}

  lemma CreateKeeps(db: Db, id: UserId, subject: Subject, email: string, name: string, fault: bool)
    requires Inv(db) && subject !in db.identities
    ensures Inv(Create(db, id, subject, email, name, fault).0)
      && LinksKept(db, Create(db, id, subject, email, name, fault).0)
  {}

  lemma ResolveKeeps(db: Db, c: Claim, owner: Option<UserId>, newId: UserId, fault: bool)
    requires Inv(db) && (owner.Some? ==> owner.value in db.users)
    ensures Inv(Resolve(db, c, owner, newId, fault).0) && LinksKept(db, Resolve(db, c, owner, newId, fault).0)
  {
    var email := NormalizeEmail(c.email, c.parses);
    if email.Some? {
      if c.subject in db.identities {
        ReturnKeeps(db, c.subject, email.value, c.name, fault);
      } else if owner.Some? {
        LinkKeeps(db, owner.value, c.subject, email.value, c.name, fault);
      } else {
        CreateKeeps(db, newId, c.subject, email.value, c.name, fault);
      }
    }
  }

  lemma StepKeepsInv(db: Db, op: Op)
    requires Inv(db)
    ensures Inv(Apply(db, op).0) && LinksKept(db, Apply(db, op).0)
  {
    match op
    case SignIn(c, owner, newId, fault) =>
      if owner.Some? ==> owner.value in db.users { ResolveKeeps(db, c, owner, newId, fault); }
    case SignUp(id, email, name) =>
      if Apply(db, op).1.Resolved? { EmailsStayUnique(db, id, User(Some(email), name, false, false, None)); }
    case SetActive(id, active) =>
      if id in db.users {
        if db.users[id].email.Some? { SameEmailIsFree(db, id); }
        EmailsStayUnique(db, id, db.users[id].(active := active));
      }
  }

  lemma {:induction false} RunKeepsInv(db: Db, ops: seq<Op>)
    requires Inv(db)
    ensures Inv(Run(db, ops)) && LinksKept(db, Run(db, ops))
    decreases |ops|
  {
    if ops != [] {
      StepKeepsInv(db, ops[0]);
      RunKeepsInv(Apply(db, ops[0]).0, ops[1..]);
    }
  }

  lemma {:induction false} RunSplits(db: Db, before: seq<Op>, after: seq<Op>)
    ensures Run(db, before + after) == Run(Run(db, before), after)
    decreases |before|
  {
    if before == [] {
      assert before + after == after;
    } else {
      RunSplits(Apply(db, before[0]).0, before[1..], after);
      assert (before + after)[1..] == before[1..] + after;
    }
  }

  // ----- main results -----

  /** In any history no user has two subjects and no two users share an email. */
  lemma OneSubjectPerUser(ops: seq<Op>, s: Subject, t: Subject)
    requires s in Run(EMPTY, ops).identities && t in Run(EMPTY, ops).identities && s != t
    ensures Run(EMPTY, ops).identities[s].user != Run(EMPTY, ops).identities[t].user
    ensures EmailsUnique(Run(EMPTY, ops))
  {
    RunKeepsInv(EMPTY, ops);
  }

  /** A subject, once linked, names the same user for ever. */
  lemma SubjectNeverRepointed(before: seq<Op>, after: seq<Op>, s: Subject)
    requires s in Run(EMPTY, before).identities
    ensures var late := Run(EMPTY, before + after);
            s in late.identities && late.identities[s].user == Run(EMPTY, before).identities[s].user
  {
    RunKeepsInv(EMPTY, before);
    RunSplits(EMPTY, before, after);
    RunKeepsInv(Run(EMPTY, before), after);
  }

  /** A resolution ends at an active user that was active before or is new, with one link added at most. */
  ghost predicate Sound(db: Db, next: Db, subject: Subject, user: UserId, created: bool) {
    && user in next.users && next.users[user].active
    && (user in db.users ==> db.users[user].active)
    && (created <==> user !in db.users)
    && subject in next.identities && next.identities[subject].user == user
    && next.users.Keys == db.users.Keys + {user}
    && next.identities.Keys == db.identities.Keys + {subject}
  }

  /**
    A sign-in either changes nothing, or resolves to an active user that was
    active before or did not exist, adds no link but its own subject's to that
    user, and says it created the user exactly when it did.
   */
  lemma SignInLinksOnlyActive(db: Db, c: Claim, owner: Option<UserId>, newId: UserId, fault: bool)
    ensures var (next, reply) := Apply(db, SignIn(c, owner, newId, fault));
            && (reply.Refused? ==> next == db)
            && (reply.Resolved? ==> Sound(db, next, c.subject, reply.user, reply.created))
  {}

  /** The user a sign-in resolves to carries the claimed email, by whichever branch. */
  lemma SignInMatchesEmail(ops: seq<Op>, c: Claim, owner: Option<UserId>, newId: UserId, fault: bool)
    requires LooksUp(Run(EMPTY, ops), c, owner)
    ensures var (next, reply) := Apply(Run(EMPTY, ops), SignIn(c, owner, newId, fault));
            reply.Resolved? ==> HasEmail(next.users[reply.user], Lower(TrimSpace(c.email)))
  {
    RunKeepsInv(EMPTY, ops);
  }

  /** A linked, active subject whose user carries the email gets straight in. */
  lemma ReturnResolves(db: Db, subject: Subject, email: string, name: string)
    requires Inv(db) && subject in db.identities && Trimmed(email)
    requires var id := db.identities[subject].user;
             db.users[id].active && HasEmail(db.users[id], email) && PrivyFree(db.users, id, subject)
    ensures Return(db, subject, email, name, false).1 == Resolved(db.identities[subject].user, false)
  {
    var id := db.identities[subject].user;
    var saved := db.users[id].email.value;
    FoldedIsTrimmed(saved, email);
    assert EmailFree(db.users, id, email) by { SameEmailIsFree(db, id); }
  }

  lemma SignedIn(db: Db, c: Claim, owner: Option<UserId>, newId: UserId)
    requires Inv(db) && LooksUp(db, c, owner) && Apply(db, SignIn(c, owner, newId, false)).1.Resolved?
    ensures var (once, first) := Apply(db, SignIn(c, owner, newId, false));
            && c.subject in once.identities && once.identities[c.subject].user == first.user && first.user in once.users
            && once.users[first.user].active && HasEmail(once.users[first.user], Lower(TrimSpace(c.email)))
            && PrivyFree(once.users, first.user, c.subject)
  {}

  lemma TrimmedLower(s: string)
    ensures Trimmed(Lower(TrimSpace(s)))
  {}

  /** Signing in again with the same claim always resolves to the same user, and adds no user and no link. */
  lemma SignInAgain(db: Db, c: Claim, owner: Option<UserId>, newId: UserId, again: Option<UserId>, otherId: UserId)
    requires Inv(db) && LooksUp(db, c, owner) && Apply(db, SignIn(c, owner, newId, false)).1.Resolved?
    requires LooksUp(Apply(db, SignIn(c, owner, newId, false)).0, c, again)
    ensures var (once, first) := Apply(db, SignIn(c, owner, newId, false));
            var (twice, second) := Apply(once, SignIn(c, again, otherId, false));
            && second == Resolved(first.user, false)
            && twice.users.Keys == once.users.Keys && twice.identities.Keys == once.identities.Keys
            && forall s <- once.identities :: twice.identities[s].user == once.identities[s].user
  {
    var once := Apply(db, SignIn(c, owner, newId, false)).0;
    StepKeepsInv(db, SignIn(c, owner, newId, false));
    SignedIn(db, c, owner, newId);
    assert NormalizeEmail(c.email, c.parses).Some?;
    ReturnAgain(once, c, again, otherId);
  }

  lemma ReturnAgain(db: Db, c: Claim, owner: Option<UserId>, newId: UserId)
    requires Inv(db) && LooksUp(db, c, owner) && c.subject in db.identities && TrimSpace(c.subject) != ""
    requires NormalizeEmail(c.email, c.parses).Some?
    requires var id := db.identities[c.subject].user;
             db.users[id].active && HasEmail(db.users[id], Lower(TrimSpace(c.email)))
                 && PrivyFree(db.users, id, c.subject)
    ensures var (next, reply) := Apply(db, SignIn(c, owner, newId, false));
            && reply == Resolved(db.identities[c.subject].user, false)
            && next.users.Keys == db.users.Keys && next.identities.Keys == db.identities.Keys
            && forall s <- db.identities :: next.identities[s].user == db.identities[s].user
  {
    TrimmedLower(c.email);
    ReturnResolves(db, c.subject, Lower(TrimSpace(c.email)), c.name);
  }

  // ----- the service -----

  class IdentityService {
    var users: map<UserId, User>
    var identities: map<Subject, Identity>

    ghost function View(): Db
      reads this
    {
      Db(users, identities)
    }

    /** SELECT id FROM users WHERE lower(email) = lower($1). */
    method FindByEmail(email: string) returns (owner: Option<UserId>)
      ensures if owner.Some? then owner.value in Owners(users, email) else Owners(users, email) == {}
    {
      var owners := Owners(users, email);
      if owners == {} { return None; }
      var u :| u in owners;
      owner := Some(u);
    }

    method ResolvePrivy(c: Claim, newId: UserId, fault: bool) returns (reply: Reply, ghost owner: Option<UserId>)
      modifies this
      ensures LooksUp(old(View()), c, owner)
      ensures (View(), reply) == Apply(old(View()), SignIn(c, owner, newId, fault))
    {
      var found := FindByEmail(Lower(TrimSpace(c.email)));
      owner := found;
      var normal := NormalizeEmail(c.email, c.parses);
      if normal.None? || TrimSpace(c.subject) == "" { return Refused(Unauthorized), owner; }
      var email := normal.value;
      if c.subject in identities {
        var id := identities[c.subject].user;
        if id !in users { return Refused(StorageFault), owner; }
        var u := users[id];
        if !u.active { return Refused(Inactive), owner; }
        var saved := if u.email.Some? then u.email.value else "";
        if !EqualFold(TrimSpace(saved), email) { return Refused(EmailChanged), owner; }
        if fault || !EmailFree(users, id, email) || !PrivyFree(users, id, c.subject) {
          return Refused(StorageFault), owner;
        }
        identities := identities[c.subject := Identity(id, email)];
        var name := if TrimSpace(u.name) == "" then c.name else u.name;
        users := users[id := User(Some(email), name, u.active, true, Some(c.subject))];
        return Resolved(id, false), owner;
      }
      var userId := newId;
      var created := found.None?;
      if created {
        if fault || newId in users || !EmailFree(users, newId, email) || !PrivyFree(users, newId, c.subject) {
          return Refused(StorageFault), owner;
        }
        users := users[newId := User(Some(email), c.name, true, true, Some(c.subject))];
      } else {
        userId := found.value;
        var u := users[userId];
        if !u.active { return Refused(Inactive), owner; }
        var linkedElsewhere := (u.privy.Some? && u.privy.value != "" && u.privy.value != c.subject)
          || exists s <- identities :: identities[s].user == userId && s != c.subject;
        if linkedElsewhere { return Refused(LinkedElsewhere), owner; }
        if fault || !PrivyFree(users, userId, c.subject) { return Refused(StorageFault), owner; }
        var name := if TrimSpace(u.name) == "" then c.name else u.name;
        users := users[userId := User(u.email, name, u.active, true, Some(c.subject))];
      }
      identities := identities[c.subject := Identity(userId, Lower(email))];
      return Resolved(userId, created), owner;
    }
  }
}
