/**
 Who can log in: which entry of the user table counts, what USER and PASS answer, and
 what a session is after a login.
 */
module FtpLogins {
  import opened Sequences
  import opened FtpSession
  import opened FtpRuns
  import opened FtpWords
  import opened FtpCommands

  // ---------- the table ----------

  /** USER takes an entry by its name, and an anonymous one also by the word `anonymous`. */
  predicate Fits(u: User, arg: string) {
    u.name == arg || (u.anon && arg == "anonymous")
  }

  /** Entry i is the first that fits. */
  predicate FirstFit(users: seq<User>, arg: string, i: nat) {
    i < |users| && Fits(users[i], arg) && forall j :: 0 <= j < i ==> !Fits(users[j], arg)
  }

  lemma {:induction false} FindsFirstFit(users: seq<User>, arg: string, i: nat)
    requires FirstFit(users, arg, i)
    ensures FindUser(users, arg) == Some(users[i])
  {
    if i > 0 {
      assert !Fits(users[0], arg);
      FindsFirstFit(users[1..], arg, i - 1);
    }
  }

  lemma {:induction false} FindsNoFit(users: seq<User>, arg: string)
    requires forall j :: 0 <= j < |users| ==> !Fits(users[j], arg)
    ensures FindUser(users, arg) == None
  {
    if users != [] {
      assert !Fits(users[0], arg);
      FindsNoFit(users[1..], arg);
    }
  }

  /** Entry i is the first password account of that name. */
  predicate FirstAccount(users: seq<User>, name: string, i: nat) {
    && i < |users| && users[i].name == name && !users[i].anon
    && forall j :: 0 <= j < i ==> users[j].name != name || users[j].anon
  }

  predicate NoAccount(users: seq<User>, name: string) {
    forall j :: 0 <= j < |users| ==> users[j].name != name || users[j].anon
  }

  lemma {:induction false} FindsFirstAccount(users: seq<User>, name: string, i: nat)
    requires FirstAccount(users, name, i)
    ensures FindAccount(users, name) == Some(users[i])
  {
    if i > 0 {
      assert users[0].name != name || users[0].anon;
      FindsFirstAccount(users[1..], name, i - 1);
    }
  }

  lemma {:induction false} FindsNoAccount(users: seq<User>, name: string)
    requires NoAccount(users, name)
    ensures FindAccount(users, name) == None
  {
    if users != [] {
      FindsNoAccount(users[1..], name);
    }
  }

  /** `add_user` puts the new entry in the place of the first account of its name. */
  lemma {:induction false} AccountReplaced(users: seq<User>, u: User, i: nat)
    requires FirstAccount(users, u.name, i)
    ensures WithAccount(users, u) == users[i := u]
  {
    if i > 0 {
      assert users[0].name != u.name || users[0].anon;
      AccountReplaced(users[1..], u, i - 1);
      assert users == [users[0]] + users[1..];
    }
  }

  /** Or at the end, if there is none. */
  lemma {:induction false} AccountAppended(users: seq<User>, u: User)
    requires NoAccount(users, u.name)
    ensures WithAccount(users, u) == users + [u]
  {
    if users != [] {
      AccountAppended(users[1..], u);
      assert users == [users[0]] + users[1..];
    }
  }

  // ---------- USER and PASS ----------

  /**
   USER: the first entry that fits decides. An anonymous one logs the session in at
   once, with its rights, at the temporary directory.
   */
  lemma UserAnswers(s: Session, users: seq<User>, tmp: string, arg: string, env: Env, i: nat)
    requires FirstFit(users, arg, i)
    ensures var s', u := Performed(s, users, tmp, Name(arg), env), users[i];
            && (u.anon ==> s' == Answered(s.(user := u.name, auth := true, perm := u.perm, phyRoot := tmp), 230))
            && (!u.anon ==> s' == Answered(s.(user := u.name), 331))
  {
    FindsFirstFit(users, arg, i);
  }

  lemma UserUnknown(s: Session, users: seq<User>, tmp: string, arg: string, env: Env)
    requires forall j :: 0 <= j < |users| ==> !Fits(users[j], arg)
    ensures Performed(s, users, tmp, Name(arg), env) == Answered(s, 530)
  {
    FindsNoFit(users, arg);
  }

  /** PASS before a login: the first account of the name that USER gave decides, by its password. */
  lemma PassAnswers(s: Session, users: seq<User>, tmp: string, arg: string, env: Env, i: nat)
    requires !s.auth && s.user != "" && FirstAccount(users, s.user, i)
    ensures var s', u := Performed(s, users, tmp, Password(arg), env), users[i];
            && (u.pass != arg ==> s' == Answered(s, 530))
            && (u.pass == arg ==>
                  && s'.auth && s'.perm == u.perm && s'.phyRoot == RootOf(tmp, u)
                  && s'.user == s.user && s'.cwd == s.cwd
                  && s'.replies == Answered(s, 230).replies && s'.events == s.events && s'.dataSock == s.dataSock
                  && s'.effects == s.effects + if RootOf(tmp, u) == tmp then [] else [MakeRoot(RootOf(tmp, u))])
  {
    hide RootOf;
    FindsFirstAccount(users, s.user, i);
  }

  lemma PassRefused(s: Session, users: seq<User>, tmp: string, arg: string, env: Env)
    ensures s.auth ==> Performed(s, users, tmp, Password(arg), env) == Answered(s, 230)
    ensures !s.auth && s.user == "" ==> Performed(s, users, tmp, Password(arg), env) == Answered(s, 503)
    ensures !s.auth && s.user != "" && NoAccount(users, s.user) ==>
              Performed(s, users, tmp, Password(arg), env) == Answered(s, 530)
  {
    if NoAccount(users, s.user) {
      FindsNoAccount(users, s.user);
    }
  }

  /** The root: the temporary directory, or what is configured below it, with or without a slash in front. */
  lemma Roots(tmp: string, name: string, pass: string, perm: Perm, root: string)
    ensures RootOf(tmp, User(name, pass, root, perm, true)) == tmp
    ensures RootOf(tmp, User(name, pass, "", perm, false)) == RootOf(tmp, User(name, pass, "/", perm, false)) == tmp
    ensures root != "" ==> RootOf(tmp, User(name, pass, "/" + root, perm, false)) == tmp + "/" + root
    ensures root != "" && root[0] != '/' ==> RootOf(tmp, User(name, pass, root, perm, false)) == tmp + "/" + root
  {
    if root != "" {
      assert ("/" + root)[1..] == root;
      assert |"/" + root| > 1;
    }
  }

  // ---------- a login as a run ----------

  lemma OneMore(tmp: string, ops: seq<Op>, op: Op)
    ensures Run(tmp, ops + [op]) == Step(Run(tmp, ops), tmp, op)
  {
    assert (ops + [op])[..|ops|] == ops;
  }

  lemma {:induction false} PlacedFirst(users: seq<User>, u: User)
    requires !u.anon && forall j :: 0 <= j < |users| ==> users[j].anon ==> !Fits(users[j], u.name)
    ensures FindUser(WithAccount(users, u), u.name) == FindAccount(WithAccount(users, u), u.name) == Some(u)
  {
    if users != [] && (users[0].name != u.name || users[0].anon) {
      assert !Fits(users[0], u.name);
      PlacedFirst(users[1..], u);
      assert WithAccount(users, u)[1..] == WithAccount(users[1..], u);
    }
  }

  /** USER and PASS against an account that both find. */
  lemma AccountStep(w: World, tmp: string, u: User, env: Env)
    requires w.session.open && !w.session.auth && !u.anon && u.name != ""
    requires FindUser(w.users, u.name) == FindAccount(w.users, u.name) == Some(u)
    ensures var s, named := w.session, Step(w, tmp, Line("USER " + u.name, env));
            var s' := Step(named, tmp, Line("PASS " + u.pass, env)).session;
            && s'.auth && s'.user == u.name && s'.perm == u.perm && s'.phyRoot == RootOf(tmp, u)
            && s'.replies == s.replies + [331] + [230] && s'.cwd == s.cwd
  {
    hide RootOf, Parse, FindUser, FindAccount;
    LoginWords("USER " + u.name, "USER", u.name);
    LoginWords("PASS " + u.pass, "PASS", u.pass);
  }

  /**
   After any run that has left the session open and not logged in: add an account that no
   anonymous entry hides, send USER with its name and PASS with its password. The session
   is logged in with the rights and the root of the account, and the two lines are
   answered 331 and 230.
   */
  lemma AccountLogsIn(tmp: string, ops: seq<Op>, u: User, env: Env)
    requires var w := Run(tmp, ops);
             && w.session.open && !w.session.auth
             && forall j :: 0 <= j < |w.users| ==> w.users[j].anon ==> !Fits(w.users[j], u.name)
    requires !u.anon && u.name != ""
    ensures var s := Run(tmp, ops).session;
            var s' := Run(tmp, ops + [AddUser(u.name, u.pass, u.root, u.perm)] + [Line("USER " + u.name, env)] +
                               [Line("PASS " + u.pass, env)]).session;
            && s'.auth && s'.user == u.name && s'.perm == u.perm && s'.phyRoot == RootOf(tmp, u)
            && s'.replies == s.replies + [331] + [230] && s'.cwd == s.cwd
  {
    var w := Run(tmp, ops);
    var added := ops + [AddUser(u.name, u.pass, u.root, u.perm)];
    var named := added + [Line("USER " + u.name, env)];
    OneMore(tmp, ops, AddUser(u.name, u.pass, u.root, u.perm));
    OneMore(tmp, added, Line("USER " + u.name, env));
    OneMore(tmp, named, Line("PASS " + u.pass, env));
    assert u == User(u.name, u.pass, u.root, u.perm, false);
    PlacedFirst(w.users, u);
    assert Run(tmp, added) == w.(users := WithAccount(w.users, u));
    hide Run, RootOf, Performed, Parse, FindUser, FindAccount, WithAccount, Fits;
    AccountStep(Run(tmp, added), tmp, u, env);
  }

  lemma NobodyStep(w: World, tmp: string, name: string, pass: string, env: Env)
    requires w.users == [] && w.session.open && !w.session.auth && w.session.user != ""
    ensures Step(Step(w, tmp, Line("USER " + name, env)), tmp, Line("PASS " + pass, env)).session ==
            w.session.(replies := w.session.replies + [530] + [530])
  {
    hide Parse;
    LoginWords("USER " + name, "USER", name);
    LoginWords("PASS " + pass, "PASS", pass);
  }

  /** With nobody in the table nobody logs in: after `clear_users` both lines are answered 530. */
  lemma NobodyLogsIn(tmp: string, ops: seq<Op>, name: string, pass: string, env: Env)
    requires Run(tmp, ops).session.open && !Run(tmp, ops).session.auth && Run(tmp, ops).session.user != ""
    ensures var s := Run(tmp, ops).session;
            Run(tmp, ops + [ClearUsers] + [Line("USER " + name, env)] + [Line("PASS " + pass, env)]).session ==
            s.(replies := s.replies + [530] + [530])
  {
    var cleared := ops + [ClearUsers];
    var named := cleared + [Line("USER " + name, env)];
    OneMore(tmp, ops, ClearUsers);
    OneMore(tmp, cleared, Line("USER " + name, env));
    OneMore(tmp, named, Line("PASS " + pass, env));
    hide Run, Performed, Parse;
    NobodyStep(Run(tmp, cleared), tmp, name, pass, env);
  }

  /** An anonymous entry that no earlier one hides lets everybody in who says `anonymous`. */
  lemma AnonymousLogsIn(tmp: string, ops: seq<Op>, root: string, perm: Perm, env: Env)
    requires var w := Run(tmp, ops);
             w.session.open && forall j :: 0 <= j < |w.users| ==> !Fits(w.users[j], "anonymous")
    ensures var s := Run(tmp, ops).session;
            Run(tmp, ops + [AddAnonymous(root, perm)] + [Line("USER anonymous", env)]).session ==
            s.(user := "anonymous", auth := true, perm := perm, phyRoot := tmp, replies := s.replies + [230])
  {
    hide Run, Parse;
    var w := Run(tmp, ops);
    var added := ops + [AddAnonymous(root, perm)];
    OneMore(tmp, ops, AddAnonymous(root, perm));
    OneMore(tmp, added, Line("USER anonymous", env));
    assert "USER anonymous" == "USER" + " " + "anonymous";
    LoginWords("USER anonymous", "USER", "anonymous");
    UserAnswers(w.session, Run(tmp, added).users, tmp, "anonymous", env, |w.users|);
  }
}
