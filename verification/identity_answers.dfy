/**
  What a sign-in answers in every reachable state, on the claim's text and the rows
  themselves, and what it writes.
 */
module IdentityAnswers {
  import opened Basics
  import opened Text
  import opened IdentityLinking

  // ----- addresses -----

  predicate OnlyAt(s: string, i: nat) {
    i < |s| && s[i] == '@' && forall j | 0 <= j < |s| && j != i :: s[j] != '@'
  }

  /** The text has one at sign and no other. */
  predicate OneAt(s: string) { exists i: nat | i < |s| :: OnlyAt(s, i) }

  lemma {:induction false} NoneCounted(s: string)
    ensures CountAt(s) == 0 <==> '@' !in s
  {
    if s != "" {
      NoneCounted(s[1..]);
      assert s == [s[0]] + s[1..];
    }
  }

  lemma FirstIsOnly(rest: string)
    ensures OneAt("@" + rest) <==> '@' !in rest
  {
    var s := "@" + rest;
    assert s[0] == '@' && forall j | 0 < j < |s| :: s[j] == rest[j - 1];
    if '@' in rest {
      var k :| 0 <= k < |rest| && rest[k] == '@';
      assert s[k + 1] == '@';
    } else {
      assert OnlyAt(s, 0);
    }
  }

  lemma LaterIsOnly(c: char, rest: string, i: nat)
    requires c != '@'
    ensures OnlyAt([c] + rest, i + 1) <==> OnlyAt(rest, i)
  {
    var s := [c] + rest;
    assert forall j | 0 <= j < |rest| :: s[j + 1] == rest[j];
    assert forall j | 0 < j < |s| :: s[j] == rest[j - 1];
  }

  lemma {:induction false} OneCounted(s: string)
    ensures CountAt(s) == 1 <==> OneAt(s)
  {
    if s != "" {
      var rest := s[1..];
      assert s == [s[0]] + rest;
      NoneCounted(rest);
      OneCounted(rest);
      if s[0] == '@' {
        FirstIsOnly(rest);
      } else if OneAt(rest) {
        var i: nat :| OnlyAt(rest, i);
        LaterIsOnly(s[0], rest, i);
      } else if OneAt(s) {
        var i: nat :| OnlyAt(s, i);
        LaterIsOnly(s[0], rest, i - 1);
      }
    }
  }

  // ----- users and their subjects -----

  /** A user is tied to a subject only by a row of the identity table. */
  ghost predicate TiesBacked(db: Db) {
    forall u <- db.users | db.users[u].privy.Some? ::
      var s := db.users[u].privy.value;
      s in db.identities && db.identities[s].user == u && TrimSpace(s) != ""
  }

  lemma ReturnKeepsTies(db: Db, subject: Subject, email: string, name: string, fault: bool)
    requires Inv(db) && TiesBacked(db) && subject in db.identities && TrimSpace(subject) != ""
    ensures TiesBacked(Return(db, subject, email, name, fault).0)
  {}

  lemma FirstKeepsTies(db: Db, id: UserId, subject: Subject, email: string, name: string, fault: bool)
    requires Inv(db) && TiesBacked(db) && subject !in db.identities && TrimSpace(subject) != ""
    ensures id in db.users ==> TiesBacked(Link(db, id, subject, email, name, fault).0)
    ensures TiesBacked(Create(db, id, subject, email, name, fault).0)
  {}

  lemma StepKeepsTies(db: Db, op: Op)
    requires Inv(db) && TiesBacked(db)
    ensures TiesBacked(Apply(db, op).0)
  {
    if op.SignIn? {
      var c := op.claim;
      var email := NormalizeEmail(c.email, c.parses);
      if email.Some? && TrimSpace(c.subject) != "" {
        if c.subject in db.identities {
          ReturnKeepsTies(db, c.subject, email.value, c.name, op.fault);
        } else {
          var id := if op.owner.Some? then op.owner.value else op.newId;
          FirstKeepsTies(db, id, c.subject, email.value, c.name, op.fault);
        }
      }
    }
  }

  lemma {:induction false} RunKeepsTies(db: Db, ops: seq<Op>)
    requires Inv(db) && TiesBacked(db)
    ensures Inv(Run(db, ops)) && TiesBacked(Run(db, ops))
    decreases |ops|
  {
    if ops != [] {
      StepKeepsInv(db, ops[0]);
      StepKeepsTies(db, ops[0]);
      RunKeepsTies(Apply(db, ops[0]).0, ops[1..]);
    }
  }

  // ----- the answers -----

  function EmailOf(c: Claim): string { Lower(TrimSpace(c.email)) }

  predicate Credible(c: Claim) { c.parses && OneAt(EmailOf(c)) && TrimSpace(c.subject) != "" }

  predicate CarriedByOther(db: Db, id: UserId, email: string) {
    exists u <- db.users :: u != id && HasEmail(db.users[u], email)
  }

  /** The row a resolution leaves: verified, tied to the subject, and named if it had no name. */
  function Welcomed(u: User, email: Option<string>, subject: Subject, name: string): User {
    User(email, if TrimSpace(u.name) == "" then name else u.name, u.active, true, Some(subject))
  }

  ghost predicate Wrote(db: Db, next: Db, id: UserId, row: User, subject: Subject, email: string) {
    next == Db(db.users[id := row], db.identities[subject := Identity(id, email)])
  }

  /** What a sign-in with a linked subject answers. */
  ghost predicate ReturnAnswers(db: Db, next: Db, reply: Reply, c: Claim)
    requires c.subject in db.identities && db.identities[c.subject].user in db.users
  {
    var id := db.identities[c.subject].user;
    var u := db.users[id];
    if !u.active then reply == Refused(Inactive)
    else if u.email.None? || Lower(TrimSpace(u.email.value)) != EmailOf(c) then reply == Refused(EmailChanged)
    else if CarriedByOther(db, id, EmailOf(c)) then reply == Refused(StorageFault)
    else reply == Resolved(id, false)
         && Wrote(db, next, id, Welcomed(u, Some(EmailOf(c)), c.subject, c.name), c.subject, EmailOf(c))
  }

  /** What a first sign-in answers whose email belongs to user `id`. */
  ghost predicate LinkAnswers(db: Db, next: Db, reply: Reply, c: Claim, id: UserId)
    requires id in db.users
  {
    var u := db.users[id];
    if !u.active then reply == Refused(Inactive)
    else if u.privy.Some? then reply == Refused(LinkedElsewhere)
    else reply == Resolved(id, false)
         && Wrote(db, next, id, Welcomed(u, u.email, c.subject, c.name), c.subject, EmailOf(c))
  }

  lemma CredibleIff(c: Claim)
    ensures NormalizeEmail(c.email, c.parses) == (if c.parses && OneAt(EmailOf(c)) then Some(EmailOf(c)) else None)
  {
    OneCounted(EmailOf(c));
  }

  lemma ReturningSignIn(db: Db, c: Claim, owner: Option<UserId>, newId: UserId)
    requires Inv(db) && TiesBacked(db) && LooksUp(db, c, owner) && Credible(c) && c.subject in db.identities
    ensures var (next, reply) := Apply(db, SignIn(c, owner, newId, false)); ReturnAnswers(db, next, reply, c)
  {
    CredibleIff(c);
    var id := db.identities[c.subject].user;
    LowerTwice(TrimSpace(c.email));
    forall u <- db.users | u != id ensures db.users[u].privy != Some(c.subject) {}
  }

  lemma FirstSignIn(db: Db, c: Claim, owner: Option<UserId>, newId: UserId)
    requires Inv(db) && TiesBacked(db) && LooksUp(db, c, owner) && Credible(c) && c.subject !in db.identities
    requires newId !in db.users
    ensures var (next, reply) := Apply(db, SignIn(c, owner, newId, false));
            if owner.Some? then owner.value in db.users && LinkAnswers(db, next, reply, c, owner.value)
            else
              && reply == Resolved(newId, true)
              && Wrote(db, next, newId, User(Some(EmailOf(c)), c.name, true, true, Some(c.subject)), c.subject,
                       EmailOf(c))
  {
    CredibleIff(c);
    LowerTwice(TrimSpace(c.email));
    if owner.None? {
      forall u <- db.users ensures !HasEmail(db.users[u], EmailOf(c)) { assert u !in Owners(db.users, EmailOf(c)); }
    } else {
      var privy := db.users[owner.value].privy;
      if privy.Some? { assert TrimSpace("") == ""; }
    }
  }

  /**
    In every reachable state, with a fresh identifier at hand: a claim that is not
    credible is unauthorized; a linked subject gets its own active user while the email
    is still the same; a new subject gets the active, untied user of its email, or a
    new user when nobody has it. A refusal, and any failing statement, changes nothing.
   */
  lemma SignInAnswers(ops: seq<Op>, c: Claim, owner: Option<UserId>, newId: UserId)
    requires LooksUp(Run(EMPTY, ops), c, owner) && newId !in Run(EMPTY, ops).users
    ensures var db := Run(EMPTY, ops);
            var (next, reply) := Apply(db, SignIn(c, owner, newId, false));
            && (!Credible(c) ==> reply == Refused(Unauthorized))
            && (Credible(c) && c.subject in db.identities ==>
                  db.identities[c.subject].user in db.users && ReturnAnswers(db, next, reply, c))
            && (Credible(c) && c.subject !in db.identities && owner.Some? ==>
                  owner.value in db.users && LinkAnswers(db, next, reply, c, owner.value))
            && (Credible(c) && c.subject !in db.identities && owner.None? ==>
                  && reply == Resolved(newId, true)
                  && Wrote(db, next, newId, User(Some(EmailOf(c)), c.name, true, true, Some(c.subject)), c.subject,
                           EmailOf(c)))
            && (reply.Refused? ==> next == db)
            && Apply(db, SignIn(c, owner, newId, true)) == (db, if reply.Refused? then reply else Refused(StorageFault))
  {
    RunKeepsTies(EMPTY, ops);
    var db := Run(EMPTY, ops);
    CredibleIff(c);
    if Credible(c) {
      if c.subject in db.identities {
        ReturningSignIn(db, c, owner, newId);
      } else {
        FirstSignIn(db, c, owner, newId);
      }
    }
    SignInLinksOnlyActive(db, c, owner, newId, false);
    SignInLinksOnlyActive(db, c, owner, newId, true);
    FaultRefuses(db, c, owner, newId);
  }

  /** A failing statement refuses what would have been resolved, and no other refusal changes. */
  lemma FaultRefuses(db: Db, c: Claim, owner: Option<UserId>, newId: UserId)
    ensures var reply := Apply(db, SignIn(c, owner, newId, false)).1;
            Apply(db, SignIn(c, owner, newId, true)) == (db, if reply.Refused? then reply else Refused(StorageFault))
  {}

  /** A password account is taken in exactly when nobody has its email; it stays inactive and untied until verified. */
  lemma SignUpAnswers(db: Db, id: UserId, email: string, name: string)
    requires id !in db.users
    ensures var (next, reply) := Apply(db, SignUp(id, email, name));
            if CarriedByOther(db, id, email) then next == db && reply == Refused(StorageFault)
            else
              && next == db.(users := db.users[id := User(Some(email), name, false, false, None)])
              && reply == Resolved(id, true)
  {}

  /** A run is its calls one after the other. */
  lemma RunGoesOn(db: Db, ops: seq<Op>, op: Op)
    ensures Run(db, []) == db && Run(db, ops + [op]) == Apply(Run(db, ops), op).0
  {
    RunSplits(db, ops, [op]);
  }
}
